/** `get_output_files`: finds the newest rendered video in the render server's output folders. */
module OutputFiles {
  import opened Wrappers
  import opened Text
  import opened Files

  /** The render server's output folder and its `video` sub-folder, in the order searched. */
  const OutputDir: string := "C:/Users/Kak/Desktop/ComfyUI/output"
  const VideoDir: string := OutputDir + "/video"

  /** What one folder looks like when it is searched: whether it exists, and its entries
      (name and ctime) in the order the directory listing yields them. */
  datatype Listing = Listing(present: bool, entries: seq<Entry>)

  /** The files of the first glob tier (`*_I2V_*.mp4`, then `*.mp4`, then `*.webm`) with any match, or none when the folder is missing or no
      tier matches. */
  function Candidates(l: Listing): (r: seq<Entry>)
    ensures forall e :: e in r ==> e in l.entries
    ensures !l.present ==> r == []
    ensures l.present && (exists e :: e in l.entries && Matches(e.name, I2vMp4)) ==>
      r == Glob(l.entries, I2vMp4)
    ensures (l.present && (forall e :: e in l.entries ==> !Matches(e.name, I2vMp4)) &&
             (exists e :: e in l.entries && Matches(e.name, AnyMp4))) ==>
      r == Glob(l.entries, AnyMp4)
    ensures l.present && (forall e :: e in l.entries ==> !Matches(e.name, AnyMp4)) ==>
      r == Glob(l.entries, AnyWebm)
  {
    GlobMembers(l.entries, I2vMp4);
    GlobMembers(l.entries, AnyMp4);
    GlobMembers(l.entries, AnyWebm);
    if !l.present then []
    else if Glob(l.entries, I2vMp4) != [] then
      var e := Glob(l.entries, I2vMp4)[0];
      assert e in Glob(l.entries, I2vMp4);
      I2vIsMp4(e.name);
      Glob(l.entries, I2vMp4)
    else if Glob(l.entries, AnyMp4) != [] then
      assert Glob(l.entries, AnyMp4)[0] in Glob(l.entries, AnyMp4);
      Glob(l.entries, AnyMp4)
    else Glob(l.entries, AnyWebm)
  }

  /** The file picked in one folder: the newest candidate, the first listed on a tie. */
  function PickIn(l: Listing): (r: Option<Entry>)
    ensures r.Some? ==> r.value in Candidates(l) && r.value in l.entries
  {
    var c := Candidates(l);
    if c == [] then None else Some(c[NewestIndex(c)])
  }

  /** The path `get_output_files` returns: the video folder is searched first. */
  function SelectOutput(video: Listing, output: Listing): Option<string> {
    match PickIn(video)
    case Some(e) => Some(VideoDir + "/" + e.name)
    case None =>
      match PickIn(output)
      case Some(e) => Some(OutputDir + "/" + e.name)
      case None => None
  }

  /** The search loop of `get_output_files` over the two folders, narrowing the glob tier by
      tier and taking the newest match. */
  method GetOutputFiles(video: Listing, output: Listing) returns (r: Option<string>)
    ensures r == SelectOutput(video, output)
  {
    var dirs := [(VideoDir, video), (OutputDir, output)];
    for d := 0 to |dirs|
      invariant forall j :: 0 <= j < d ==> PickIn(dirs[j].1).None?
    {
      var (path, listing) := dirs[d];
      if listing.present {
        var videoFiles := Glob(listing.entries, I2vMp4);
        if videoFiles == [] {
          videoFiles := Glob(listing.entries, AnyMp4);
        }
        if videoFiles == [] {
          videoFiles := Glob(listing.entries, AnyWebm);
        }
        assert videoFiles == Candidates(listing);
        if videoFiles != [] {
          var latest := videoFiles[NewestIndex(videoFiles)];
          assert PickIn(listing) == Some(latest);
          assert d == 0 ==> path == VideoDir && listing == video;
          assert d == 1 ==> path == OutputDir && listing == output && PickIn(dirs[0].1).None? && dirs[0].1 == video;
          return Some(path + "/" + latest.name);
        }
      }
    }
    assert dirs[0].1 == video && dirs[1].1 == output;
    return None;
  }

  /** A folder holds a video file: it exists and lists an `*.mp4` or `*.webm` name. */
  predicate HasVideo(l: Listing) {
    l.present && exists e :: e in l.entries && (Matches(e.name, AnyMp4) || Matches(e.name, AnyWebm))
  }

  /** A folder yields a pick exactly when it holds a video file. */
  lemma PickInSomeIff(l: Listing)
    ensures PickIn(l).Some? <==> HasVideo(l)
  {
    GlobMembers(l.entries, I2vMp4);
    GlobMembers(l.entries, AnyMp4);
    GlobMembers(l.entries, AnyWebm);
    if HasVideo(l) {
      var e :| e in l.entries && (Matches(e.name, AnyMp4) || Matches(e.name, AnyWebm));
      if Matches(e.name, AnyMp4) {
        assert e in Glob(l.entries, AnyMp4);
      } else {
        assert e in Glob(l.entries, AnyWebm);
      }
    } else if l.present && Glob(l.entries, I2vMp4) != [] {
      var e := Glob(l.entries, I2vMp4)[0];
      assert e in Glob(l.entries, I2vMp4);
      I2vIsMp4(e.name);
    } else if l.present && Glob(l.entries, AnyMp4) != [] {
      assert Glob(l.entries, AnyMp4)[0] in Glob(l.entries, AnyMp4);
    } else if l.present && Glob(l.entries, AnyWebm) != [] {
      assert Glob(l.entries, AnyWebm)[0] in Glob(l.entries, AnyWebm);
    }
  }

  /** The pick in a folder is newest among its best tier's files, and every file of the tier
      listed before it is strictly older. */
  lemma PickInIsNewestOfTier(l: Listing)
    requires PickIn(l).Some?
    ensures var e := PickIn(l).value;
      && e in l.entries
      && (forall c :: c in Candidates(l) ==> c.time <= e.time)
      && (exists k :: 0 <= k < |Candidates(l)| && Candidates(l)[k] == e &&
            forall j :: 0 <= j < k ==> Candidates(l)[j].time < e.time)
  {
    var c := Candidates(l);
    var e := c[NewestIndex(c)];
    assert e in c;
    forall x | x in c ensures x.time <= e.time {
      var i :| 0 <= i < |c| && c[i] == x;
    }
  }

  /** The pick comes from the best tier the folder offers: an "_I2V_" video when there is one,
      otherwise an mp4 when there is one, otherwise a webm. */
  lemma PickInPrefersTiers(l: Listing)
    requires PickIn(l).Some?
    ensures var e := PickIn(l).value;
      && ((exists x :: x in l.entries && Matches(x.name, I2vMp4)) ==> Matches(e.name, I2vMp4))
      && ((exists x :: x in l.entries && Matches(x.name, AnyMp4)) ==> Matches(e.name, AnyMp4))
      && (Matches(e.name, AnyMp4) || Matches(e.name, AnyWebm))
  {
    GlobMembers(l.entries, I2vMp4);
    GlobMembers(l.entries, AnyMp4);
    GlobMembers(l.entries, AnyWebm);
    var c := Candidates(l);
    var e := c[NewestIndex(c)];
    assert e in c;
    if exists x :: x in l.entries && Matches(x.name, I2vMp4) {
      var x :| x in l.entries && Matches(x.name, I2vMp4);
      assert x in Glob(l.entries, I2vMp4);
    }
    if exists x :: x in l.entries && Matches(x.name, AnyMp4) {
      var x :| x in l.entries && Matches(x.name, AnyMp4);
      assert x in Glob(l.entries, AnyMp4);
    }
    if Glob(l.entries, I2vMp4) != [] {
      I2vIsMp4(e.name);
    }
  }

  /** `get_output_files` finds nothing exactly when neither existing folder lists a video
      file, and the video folder wins whenever it holds one. */
  lemma SelectOutputSpec(video: Listing, output: Listing)
    ensures SelectOutput(video, output).None? <==> !HasVideo(video) && !HasVideo(output)
    ensures HasVideo(video) ==>
      PickIn(video).Some? && SelectOutput(video, output) == Some(VideoDir + "/" + PickIn(video).value.name)
    ensures !HasVideo(video) && HasVideo(output) ==>
      PickIn(output).Some? && SelectOutput(video, output) == Some(OutputDir + "/" + PickIn(output).value.name)
  {
    PickInSomeIff(video);
    PickInSomeIff(output);
  }
}
