/** The serverless `handler`: start the render server, stage the job's images, queue the
    workflow, poll the history until the prompt appears or ten minutes pass, and locate the
    rendered video. The network, the clock and the disk are inputs. */
module Handler {
  import opened Wrappers
  import opened Text
  import opened Files

  /*---------------------------------------------------------------------------------------
   * Start-up
   *-------------------------------------------------------------------------------------*/

  /** The number of health probes made after launching the server. */
  const StartupProbes: nat := 30

  /** The server comes up: the probe before the launch answers ok, or one of the probes after it. */
  predicate StartsUp(healthy: nat -> bool) {
    healthy(0) || exists i: nat :: 1 <= i <= StartupProbes && healthy(i)
  }

  /** `start_comfyui`, against a server whose answer to health probe number `i` is `healthy(i)`:
      probe 0 is the check before launching, probes 1 to 30 follow the launch. A probe that
      raises counts as not ok. Returns whether the server is up, whether it was launched and
      how many probes were made. */
  method StartComfyUI(healthy: nat -> bool) returns (ok: bool, launched: bool, probes: nat)
    ensures ok <==> StartsUp(healthy)
    ensures healthy(0) ==> !launched && probes == 1
    ensures !healthy(0) ==> launched && 2 <= probes <= StartupProbes + 1
    ensures !healthy(0) && ok ==> healthy(probes - 1) && forall i: nat :: 1 <= i < probes - 1 ==> !healthy(i)
    ensures !healthy(0) && !ok ==> probes == StartupProbes + 1
  {
    probes := 1;
    if healthy(0) {
      return true, false, probes;
    }
    launched := true;
    for i := 0 to StartupProbes
      invariant probes == i + 1
      invariant forall j: nat :: 1 <= j <= i ==> !healthy(j)
    {
      probes := probes + 1;
      if healthy(i + 1) {
        return true, launched, probes;
      }
    }
    ok := false;
  }

  /*---------------------------------------------------------------------------------------
   * Image staging
   *-------------------------------------------------------------------------------------*/

  /** An entry of the job's `images` list; `None` where the key is missing. */
  datatype ImageObject = ImageObject(name: Option<string>, image: Option<string>)

  /** Python truthiness of an optional string: present and non-empty. */
  predicate Truthy(s: Option<string>) {
    s.Some? && s.value != []
  }

  /** The images the loop writes: those with both a name and data. */
  predicate Kept(img: ImageObject) {
    Truthy(img.name) && Truthy(img.image)
  }

  const DataImagePrefix: string := "data:image"

  /** The base64 payload of an image's data: a data URI loses everything up to the first comma
      and after any second one; `split(",")[1]` raises `IndexError` when there is no comma. */
  function StripDataUri(data: string): (r: Result<string>)
    ensures !StartsWith(data, DataImagePrefix) ==> r == Ok(data)
    ensures StartsWith(data, DataImagePrefix) ==> (r.Err? <==> ',' !in data)
    ensures r.Err? ==> r.message == "list index out of range"
    ensures StartsWith(data, DataImagePrefix) && r.Ok? ==> ',' !in r.value
  {
    if StartsWith(data, DataImagePrefix) then
      match SecondField(data, ',')
      case None => Err("list index out of range")
      case Some(field) => Ok(field)
    else Ok(data)
  }

  /** The payload of a data URI is the text between its first comma and the next one, or the
      end: a header and a comma-free payload come back apart whatever follows a second comma. */
  lemma DataUriPayload(header: string, payload: string, tail: string)
    requires StartsWith(header, DataImagePrefix) && ',' !in header && ',' !in payload
    requires tail == [] || tail[0] == ','
    ensures StripDataUri(header + "," + payload + tail) == Ok(payload)
  {
    var uri := header + "," + payload + tail;
    assert uri[..|DataImagePrefix|] == header[..|DataImagePrefix|];
    SecondFieldOfSplit(header, ',', payload, tail);
  }

  /** What the decoder and the disk answer while an image is staged: `decode` is
      `base64.b64decode` (the bytes, or the message of the `binascii.Error` it raises), and
      `create` is whether opening `/ComfyUI/input/<name>` for writing raises (its message) or not. */
  datatype StagingIo = StagingIo(decode: string -> Result<seq<bv8>>, create: string -> Option<string>)

  /** The staging loop's effect: the (file name, bytes) writes made in order, and the message
      of the exception that stopped it, if any. Images without a name or data are skipped. */
  datatype Staging = Staging(writes: seq<(string, seq<bv8>)>, error: Option<string>)

  /** Staging one kept image: strip the data URI, decode the payload, create the file. The
      first of the three steps that raises decides the error. */
  function StageOne(img: ImageObject, io: StagingIo): (r: Result<(string, seq<bv8>)>)
    requires Kept(img)
    ensures r.Ok? ==> r.value.0 == img.name.value && r.value.0 != [] && io.create(r.value.0).None?
    ensures StripDataUri(img.image.value).Err? ==> r == Err(StripDataUri(img.image.value).message)
    ensures StripDataUri(img.image.value).Ok? ==>
      (r.Ok? <==> io.decode(StripDataUri(img.image.value).value).Ok? && io.create(img.name.value).None?)
    ensures r.Ok? ==> r.value.1 == io.decode(StripDataUri(img.image.value).value).value
    ensures StripDataUri(img.image.value).Ok? && io.decode(StripDataUri(img.image.value).value).Err? ==>
      r == Err(io.decode(StripDataUri(img.image.value).value).message)
    ensures StripDataUri(img.image.value).Ok? && io.decode(StripDataUri(img.image.value).value).Ok? ==>
      io.create(img.name.value).Some? ==> r == Err(io.create(img.name.value).value)
  {
    match StripDataUri(img.image.value)
    case Err(message) => Err(message)
    case Ok(payload) =>
      match io.decode(payload)
      case Err(message) => Err(message)
      case Ok(bytes) =>
        match io.create(img.name.value)
        case Some(message) => Err(message)
        case None => Ok((img.name.value, bytes))
  }

  function Stage(images: seq<ImageObject>, io: StagingIo): (s: Staging)
    ensures |s.writes| <= |images|
    ensures forall w :: w in s.writes ==> w.0 != [] && io.create(w.0).None?
  {
    if images == [] then Staging([], None)
    else if !Kept(images[0]) then Stage(images[1..], io)
    else
      match StageOne(images[0], io)
      case Err(message) => Staging([], Some(message))
      case Ok(w) =>
        var rest := Stage(images[1..], io);
        Staging([w] + rest.writes, rest.error)
  }

  /** The staging loop of `handler`. */
  method StageImages(images: seq<ImageObject>, io: StagingIo) returns (writes: seq<(string, seq<bv8>)>, error: Option<string>)
    ensures Staging(writes, error) == Stage(images, io)
  {
    writes := [];
    for i := 0 to |images|
      invariant Stage(images, io) == Staging(writes + Stage(images[i..], io).writes, Stage(images[i..], io).error)
    {
      assert images[i..][0] == images[i] && images[i..][1..] == images[i + 1..];
      var imageName := images[i].name;
      var imageData := images[i].image;
      if Truthy(imageData) && Truthy(imageName) {
        var data := StripDataUri(imageData.value);
        if data.Err? {
          return writes, Some(data.message);
        }
        var imageBytes := io.decode(data.value);
        if imageBytes.Err? {
          return writes, Some(imageBytes.message);
        }
        var openError := io.create(imageName.value);
        if openError.Some? {
          return writes, Some(openError.value);
        }
        writes := writes + [(imageName.value, imageBytes.value)];
      }
    }
    assert images[|images|..] == [];
    error := None;
  }

  /** The images the loop stages: the kept ones, in order. */
  function KeptImages(images: seq<ImageObject>): (r: seq<ImageObject>)
    ensures forall x :: x in r <==> x in images && Kept(x)
    ensures |images| == 1 ==> r == (if Kept(images[0]) then images else [])
  {
    if images == [] then []
    else if Kept(images[0]) then [images[0]] + KeptImages(images[1..])
    else KeptImages(images[1..])
  }

  /** Keeping images works piecewise: the kept images of a concatenation are those of each
      part, in order. */
  lemma {:induction false} KeptImagesAppend(a: seq<ImageObject>, b: seq<ImageObject>)
    ensures KeptImages(a + b) == KeptImages(a) + KeptImages(b)
  {
    if a == [] {
      assert a + b == b;
    } else {
      assert (a + b)[0] == a[0] && (a + b)[1..] == a[1..] + b;
      KeptImagesAppend(a[1..], b);
    }
  }

  /** Write `w` is the one the loop makes for image `img`: the image is kept, all three steps
      succeed, and the file is named after the image and holds the decoded payload. */
  predicate WrittenFor(w: (string, seq<bv8>), img: ImageObject, io: StagingIo) {
    Kept(img) && StageOne(img, io).Ok? && w == StageOne(img, io).value
  }

  /** `s` is what staging the images `kept` (all kept ones) gives: one write per image, in
      order, up to the first image whose data URI has no comma, whose payload does not decode,
      or whose file cannot be created; that image's exception is the error, and without one
      every image is written. */
  predicate StagesKept(s: Staging, kept: seq<ImageObject>, io: StagingIo) {
    && |s.writes| <= |kept|
    && (forall k :: 0 <= k < |s.writes| ==> WrittenFor(s.writes[k], kept[k], io))
    && (s.error.None? ==> |s.writes| == |kept|)
    && (s.error.Some? ==> |s.writes| < |kept| && Kept(kept[|s.writes|]) &&
                          StageOne(kept[|s.writes|], io) == Err(s.error.value))
  }

  /** The staging loop meets that description on every input. */
  lemma {:induction false} StageSpec(images: seq<ImageObject>, io: StagingIo)
    ensures StagesKept(Stage(images, io), KeptImages(images), io)
  {
    if images != [] {
      StageSpec(images[1..], io);
      if Kept(images[0]) {
        assert KeptImages(images) == [images[0]] + KeptImages(images[1..]);
        match StageOne(images[0], io)
        case Err(message) =>
          FailStaged(images[0], message, KeptImages(images[1..]), io);
        case Ok(w) =>
          StagedCons(images[0], w, Stage(images[1..], io), KeptImages(images[1..]), io);
      }
    }
  }

  lemma FailStaged(img: ImageObject, message: string, keptRest: seq<ImageObject>, io: StagingIo)
    requires Kept(img) && StageOne(img, io) == Err(message)
    ensures StagesKept(Staging([], Some(message)), [img] + keptRest, io)
  {
    assert ([img] + keptRest)[0] == img;
  }

  lemma StagedCons(img: ImageObject, w: (string, seq<bv8>), rest: Staging, keptRest: seq<ImageObject>, io: StagingIo)
    requires Kept(img) && StageOne(img, io) == Ok(w) && StagesKept(rest, keptRest, io)
    ensures StagesKept(Staging([w] + rest.writes, rest.error), [img] + keptRest, io)
  {
    var writes := [w] + rest.writes;
    var kept := [img] + keptRest;
    forall k | 0 <= k < |writes| ensures WrittenFor(writes[k], kept[k], io) {
      if k > 0 {
        assert writes[k] == rest.writes[k - 1];
        assert kept[k] == keptRest[k - 1];
      }
    }
    if rest.error.Some? {
      assert kept[|writes|] == keptRest[|rest.writes|];
    }
  }

  /** Staging fails exactly when some kept image fails one of its three steps. */
  lemma StageFailsIff(images: seq<ImageObject>, io: StagingIo)
    ensures Stage(images, io).error.Some? <==>
      exists x :: x in KeptImages(images) && StageOne(x, io).Err?
  {
    StageSpec(images, io);
    var s := Stage(images, io);
    var kept := KeptImages(images);
    if s.error.Some? {
      assert kept[|s.writes|] in kept;
    } else {
      forall x | x in kept ensures StageOne(x, io).Ok? {
        var k :| 0 <= k < |kept| && kept[k] == x;
        assert WrittenFor(s.writes[k], kept[k], io);
      }
    }
  }

  /*---------------------------------------------------------------------------------------
   * Queueing and polling
   *-------------------------------------------------------------------------------------*/

  /** The answer to the POST that queues the workflow. */
  datatype QueueAnswer =
    | QueueRaised(message: string)     // the request raised; `message` is `str(e)`
    | QueueRejected(text: string)      // a status that is not ok; `text` is the body
    | QueueAccepted                    // ok; the prompt id it returns is what the polls ask about

  /** `videos[0]` of an output node, when the node has a `videos` entry. */
  datatype VideoInfo = VideoInfo(filename: Option<string>)
  datatype NodeOutput = NodeOutput(videos: Option<seq<VideoInfo>>)

  /** The `outputs` of a history entry: node ids with their outputs, in dict order. */
  type Outputs = seq<(string, NodeOutput)>

  /** The answer to one history request. */
  datatype HistoryAnswer =
    | HistoryRaised(message: string)   // the request or its JSON raised
    | HistoryNotOk                     // a status that is not ok
    | HistoryAbsent                    // ok, but the prompt is not in the history yet
    | HistoryPresent(outputs: Outputs) // the prompt's entry, with its outputs (`{}` when missing)

  /** One pass of the poll loop: the seconds elapsed when the loop condition is tested, and the
      history answer that pass receives. */
  datatype Poll = Poll(elapsed: real, answer: HistoryAnswer)

  const Timeout: real := 600.0

  /** The clock passes the timeout at some pass, so the loop ends. */
  predicate TimesOut(polls: seq<Poll>) {
    exists k :: 0 <= k < |polls| && polls[k].elapsed >= Timeout
  }

  /*---------------------------------------------------------------------------------------
   * Locating the video
   *-------------------------------------------------------------------------------------*/

  const OutputPrefix: string := "/ComfyUI/output/"

  /** The glob patterns of the last tier, in the order tried. */
  const PossiblePaths: seq<string> := [
    "/ComfyUI/output/*.mp4", "/ComfyUI/output/*.avi", "/ComfyUI/output/*.mov",
    "/ComfyUI/output/**/*.mp4", "/output/*.mp4", "*.mp4"
  ]

  /** What the disk answers when the video is looked for: the paths that exist, the matches of
      the first pattern of `PossiblePaths` (the mp4 files of the output folder) with their mtimes,
      in glob order, and the matches of the other five patterns, in order. */
  datatype Disk = Disk(existing: set<string>, outputMp4: seq<Entry>, otherGlobs: seq<seq<string>>)

  predicate WellShaped(disk: Disk) {
    |disk.otherGlobs| == |PossiblePaths| - 1
  }

  /** The matches of pattern number `k` of `PossiblePaths`; the first pattern is the same glob
      as the newest-mp4 tier's. */
  function GlobOf(disk: Disk, k: int): seq<string>
    requires WellShaped(disk) && 0 <= k < |PossiblePaths|
  {
    if k == 0 then Names(disk.outputMp4) else disk.otherGlobs[k - 1]
  }

  /** How the handler answers. */
  datatype Response =
    | Failure(error: string)                 // {"error": ...}
    | Video(filename: string)                // {"success": True, "video_base64": ..., "filename": ...}
    | LocationUnknown(outputs: Outputs)      // {"success": True, "message": ..., "outputs": ...}

  /** An output node that the first tier looks past: no `videos` entry, or a file name that
      does not exist on disk. */
  predicate PassedOver(o: NodeOutput, existing: set<string>) {
    o.videos.None? ||
    (o.videos.value != [] && o.videos.value[0].filename.Some? &&
     OutputPrefix + o.videos.value[0].filename.value !in existing)
  }

  /** An output node whose `videos[0].filename` exists on disk. */
  predicate Hit(o: NodeOutput, existing: set<string>) {
    o.videos.Some? && o.videos.value != [] && o.videos.value[0].filename.Some? &&
    OutputPrefix + o.videos.value[0].filename.value in existing
  }

  /** First tier: walk the output nodes in order; the first `videos[0].filename` that exists
      wins. An empty `videos` list raises `IndexError`, a missing `filename` raises `KeyError`. */
  function FromOutputs(outputs: Outputs, existing: set<string>): (r: Result<Option<string>>)
    ensures r.Ok? && r.value.Some? ==> OutputPrefix + r.value.value in existing
    ensures r.Err? ==> r.message == "list index out of range" || r.message == "'filename'"
  {
    if outputs == [] then Ok(None)
    else
      var o := outputs[0].1;
      if o.videos.None? then FromOutputs(outputs[1..], existing)
      else if o.videos.value == [] then Err("list index out of range")
      else if o.videos.value[0].filename.None? then Err("'filename'")
      else if OutputPrefix + o.videos.value[0].filename.value in existing then Ok(Some(o.videos.value[0].filename.value))
      else FromOutputs(outputs[1..], existing)
  }

  /** Second tier: the base name of the newest `*.mp4` in the output folder. */
  function NewestMp4(disk: Disk): (r: Option<string>)
    ensures r.Some? ==> '/' !in r.value
  {
    var sorted := SortNewestFirst(disk.outputMp4);
    if sorted == [] then None else Some(Basename(sorted[0].name))
  }

  /** Third tier, from pattern `k` on: the base name of the first match of the first pattern
      with any match. */
  function FirstGlobMatch(disk: Disk, k: nat): (r: Option<string>)
    requires WellShaped(disk) && k <= |PossiblePaths|
    ensures r.Some? ==> '/' !in r.value
    decreases |PossiblePaths| - k
  {
    if k == |PossiblePaths| then None
    else if GlobOf(disk, k) != [] then Some(Basename(GlobOf(disk, k)[0]))
    else FirstGlobMatch(disk, k + 1)
  }

  /** The whole cascade once the prompt's history entry has appeared. */
  function Locate(outputs: Outputs, disk: Disk): Response
    requires WellShaped(disk)
  {
    match FromOutputs(outputs, disk.existing)
    case Err(message) => Failure("Handler error: " + message)
    case Ok(Some(filename)) => Video(filename)
    case Ok(None) =>
      match NewestMp4(disk)
      case Some(filename) => Video(filename)
      case None =>
        match FirstGlobMatch(disk, 0)
        case Some(filename) => Video(filename)
        case None => LocationUnknown(outputs)
  }

  /** The cascade as the handler runs it: a loop over the outputs, a sort of the mp4 matches,
      and a loop over the patterns, each returning as soon as it finds a file. */
  method LocateVideo(outputs: Outputs, disk: Disk) returns (r: Response)
    requires WellShaped(disk)
    ensures r == Locate(outputs, disk)
  {
    for i := 0 to |outputs|
      invariant FromOutputs(outputs, disk.existing) == FromOutputs(outputs[i..], disk.existing)
    {
      assert outputs[i..][0] == outputs[i] && outputs[i..][1..] == outputs[i + 1..];
      var output := outputs[i].1;
      if output.videos.Some? {
        if output.videos.value == [] {
          return Failure("Handler error: " + "list index out of range");
        }
        var videoInfo := output.videos.value[0];
        if videoInfo.filename.None? {
          return Failure("Handler error: " + "'filename'");
        }
        var videoPath := OutputPrefix + videoInfo.filename.value;
        if videoPath in disk.existing {
          return Video(videoInfo.filename.value);
        }
      }
    }
    assert outputs[|outputs|..] == [];
    var mp4Files := disk.outputMp4;
    if mp4Files != [] {
      mp4Files := SortNewestFirst(mp4Files);
      return Video(Basename(mp4Files[0].name));
    }
    for k := 0 to |PossiblePaths|
      invariant FirstGlobMatch(disk, 0) == FirstGlobMatch(disk, k)
    {
      var foundFiles := GlobOf(disk, k);
      if foundFiles != [] {
        return Video(Basename(foundFiles[0]));
      }
    }
    r := LocationUnknown(outputs);
  }

  /*---------------------------------------------------------------------------------------
   * The handler
   *-------------------------------------------------------------------------------------*/

  /** The poll loop from pass `i` on: before the timeout, a raised request ends the handler
      with its message, a present entry runs the cascade, anything else polls again. */
  function PollFrom(polls: seq<Poll>, i: nat, disk: Disk): Response
    requires WellShaped(disk) && i <= |polls|
    requires exists k :: i <= k < |polls| && polls[k].elapsed >= Timeout
    decreases |polls| - i
  {
    if polls[i].elapsed >= Timeout then Failure("Video generation timed out")
    else
      match polls[i].answer
      case HistoryRaised(message) => Failure("Handler error: " + message)
      case HistoryPresent(outputs) => Locate(outputs, disk)
      case _ => PollFrom(polls, i + 1, disk)
  }

  /** What `handler` answers, and the image files it writes on the way. */
  function Respond(healthy: nat -> bool, images: seq<ImageObject>, io: StagingIo, queue: QueueAnswer, polls: seq<Poll>, disk: Disk): (Response, seq<(string, seq<bv8>)>)
    requires WellShaped(disk) && TimesOut(polls)
  {
    if !StartsUp(healthy) then (Failure("Failed to start ComfyUI server"), [])
    else
      var staging := Stage(images, io);
      if staging.error.Some? then (Failure("Handler error: " + staging.error.value), staging.writes)
      else
        match queue
        case QueueRaised(message) => (Failure("Handler error: " + message), staging.writes)
        case QueueRejected(text) => (Failure("Failed to queue workflow: " + text), staging.writes)
        case QueueAccepted => (PollFrom(polls, 0, disk), staging.writes)
  }

  /** `handler(job)`. */
  method Handle(healthy: nat -> bool, images: seq<ImageObject>, io: StagingIo, queue: QueueAnswer, polls: seq<Poll>, disk: Disk)
    returns (r: Response, writes: seq<(string, seq<bv8>)>)
    requires WellShaped(disk) && TimesOut(polls)
    ensures r == Respond(healthy, images, io, queue, polls, disk).0
    ensures writes == Respond(healthy, images, io, queue, polls, disk).1
  {
    var started, _, _ := StartComfyUI(healthy);
    if !started {
      return Failure("Failed to start ComfyUI server"), [];
    }
    var error;
    writes, error := StageImages(images, io);
    if error.Some? {
      return Failure("Handler error: " + error.value), writes;
    }
    match queue {
      case QueueRaised(message) =>
        return Failure("Handler error: " + message), writes;
      case QueueRejected(text) =>
        return Failure("Failed to queue workflow: " + text), writes;
      case QueueAccepted =>
    }
    var i := 0;
    while polls[i].elapsed < Timeout
      invariant 0 <= i < |polls|
      invariant exists k :: i <= k < |polls| && polls[k].elapsed >= Timeout
      invariant PollFrom(polls, 0, disk) == PollFrom(polls, i, disk)
      decreases |polls| - i
    {
      match polls[i].answer {
        case HistoryRaised(message) =>
          return Failure("Handler error: " + message), writes;
        case HistoryPresent(outputs) =>
          r := LocateVideo(outputs, disk);
          return r, writes;
        case _ =>
      }
      i := i + 1;
    }
    r := Failure("Video generation timed out");
  }

  /*---------------------------------------------------------------------------------------
   * Properties
   *-------------------------------------------------------------------------------------*/

  /** The first tier finds nothing when it passes over every output node. */
  lemma {:induction false} AllPassedOverFindsNothing(outputs: Outputs, existing: set<string>)
    requires forall j :: 0 <= j < |outputs| ==> PassedOver(outputs[j].1, existing)
    ensures FromOutputs(outputs, existing) == Ok(None)
  {
    if outputs != [] {
      assert PassedOver(outputs[0].1, existing);
      AllPassedOverFindsNothing(outputs[1..], existing);
    }
  }

  /** The first output node the first tier does not pass over decides it: a hit returns that
      node's file name, anything else (an empty `videos` list, no `filename`) raises. */
  lemma {:induction false} FirstUnpassedDecides(outputs: Outputs, existing: set<string>, k: int)
    requires 0 <= k < |outputs| && !PassedOver(outputs[k].1, existing)
    requires forall j :: 0 <= j < k ==> PassedOver(outputs[j].1, existing)
    ensures Hit(outputs[k].1, existing) ==>
      FromOutputs(outputs, existing) == Ok(Some(outputs[k].1.videos.value[0].filename.value))
    ensures !Hit(outputs[k].1, existing) ==> FromOutputs(outputs, existing).Err?
  {
    if k > 0 {
      assert PassedOver(outputs[0].1, existing);
      assert outputs[1..][k - 1] == outputs[k];
      assert forall j :: 0 <= j < k - 1 ==> outputs[1..][j] == outputs[j + 1];
      FirstUnpassedDecides(outputs[1..], existing, k - 1);
    }
  }

  /** The second tier returns the base name of the newest mp4, the first listed among equally
      new ones, exactly as `max` by mtime would pick it. */
  lemma NewestMp4IsNewest(disk: Disk)
    ensures disk.outputMp4 == [] <==> NewestMp4(disk).None?
    ensures disk.outputMp4 != [] ==>
      NewestMp4(disk) == Some(Basename(disk.outputMp4[NewestIndex(disk.outputMp4)].name))
  {
    if disk.outputMp4 != [] {
      SortHeadIsNewest(disk.outputMp4);
    } else {
      assert multiset(SortNewestFirst(disk.outputMp4)) == multiset{};
    }
  }

  /** The third tier finds nothing exactly when no remaining pattern matches. */
  lemma {:induction false} NoGlobMatchIff(disk: Disk, k: nat)
    requires WellShaped(disk) && k <= |PossiblePaths|
    ensures FirstGlobMatch(disk, k).None? <==> forall j :: k <= j < |PossiblePaths| ==> GlobOf(disk, j) == []
    decreases |PossiblePaths| - k
  {
    if k < |PossiblePaths| {
      NoGlobMatchIff(disk, k + 1);
    }
  }

  /** The third tier returns the first match of the first pattern with any match. */
  lemma {:induction false} FirstMatchingPatternWins(disk: Disk, k: nat, p: int)
    requires WellShaped(disk) && k <= p < |PossiblePaths| && GlobOf(disk, p) != []
    requires forall j :: k <= j < p ==> GlobOf(disk, j) == []
    ensures FirstGlobMatch(disk, k) == Some(Basename(GlobOf(disk, p)[0]))
    decreases p - k
  {
    if k < p {
      FirstMatchingPatternWins(disk, k + 1, p);
    }
  }

  /** The cascade fails only when the first tier raises. */
  lemma LocateFailsOnlyInFirstTier(outputs: Outputs, disk: Disk)
    requires WellShaped(disk)
    ensures Locate(outputs, disk).Failure? <==> FromOutputs(outputs, disk.existing).Err?
    ensures Locate(outputs, disk).Failure? ==>
      Locate(outputs, disk).error == "Handler error: " + FromOutputs(outputs, disk.existing).message
  {
  }

  /** The cascade reports an unknown location, with the history's outputs, exactly when every
      tier finds nothing. */
  lemma LocationUnknownIff(outputs: Outputs, disk: Disk)
    requires WellShaped(disk)
    ensures Locate(outputs, disk).LocationUnknown? <==>
      FromOutputs(outputs, disk.existing) == Ok(None) && disk.outputMp4 == [] &&
      forall j :: 0 <= j < |PossiblePaths| ==> GlobOf(disk, j) == []
    ensures Locate(outputs, disk).LocationUnknown? ==> Locate(outputs, disk).outputs == outputs
  {
    NewestMp4IsNewest(disk);
    NoGlobMatchIff(disk, 0);
  }

  /** The third tier's first pattern never fires: it is the second tier's glob, which is
      empty whenever the third tier is reached. */
  lemma FirstPatternNeverFires(outputs: Outputs, disk: Disk)
    requires WellShaped(disk)
    requires FromOutputs(outputs, disk.existing) == Ok(None) && NewestMp4(disk).None?
    ensures GlobOf(disk, 0) == []
    ensures Locate(outputs, disk) ==
      if FirstGlobMatch(disk, 1).Some? then Video(FirstGlobMatch(disk, 1).value) else LocationUnknown(outputs)
  {
    NewestMp4IsNewest(disk);
  }

  /** The tiers are tried in order: a file found by the first tier is the answer; when the
      first tier finds nothing, the newest mp4 of the output folder is; only when there is none
      do the glob patterns decide. */
  lemma LocateTiers(outputs: Outputs, disk: Disk)
    requires WellShaped(disk)
    ensures forall f :: FromOutputs(outputs, disk.existing) == Ok(Some(f)) ==> Locate(outputs, disk) == Video(f)
    ensures FromOutputs(outputs, disk.existing) == Ok(None) && disk.outputMp4 != [] ==>
      NewestMp4(disk).Some? && Locate(outputs, disk) == Video(NewestMp4(disk).value)
    ensures FromOutputs(outputs, disk.existing) == Ok(None) && disk.outputMp4 == [] ==>
      Locate(outputs, disk) ==
        if FirstGlobMatch(disk, 0).Some? then Video(FirstGlobMatch(disk, 0).value) else LocationUnknown(outputs)
  {
    NewestMp4IsNewest(disk);
  }

  /** The first pass before the timeout whose history request raises or finds the prompt
      decides the handler's answer: the caught exception, or the cascade over that entry's
      outputs. The passes before it all poll again. */
  lemma {:induction false} FirstAnswerDecides(polls: seq<Poll>, i: nat, k: nat, disk: Disk)
    requires WellShaped(disk) && i <= k < |polls|
    requires exists m :: i <= m < |polls| && polls[m].elapsed >= Timeout
    requires forall j :: i <= j < k ==>
      polls[j].elapsed < Timeout && (polls[j].answer.HistoryNotOk? || polls[j].answer.HistoryAbsent?)
    requires polls[k].elapsed < Timeout
    requires polls[k].answer.HistoryPresent? || polls[k].answer.HistoryRaised?
    ensures PollFrom(polls, i, disk) ==
      if polls[k].answer.HistoryPresent? then Locate(polls[k].answer.outputs, disk)
      else Failure("Handler error: " + polls[k].answer.message)
    decreases k - i
  {
    if i < k {
      assert polls[i].elapsed < Timeout;
      FirstAnswerDecides(polls, i + 1, k, disk);
    }
  }

  /** The handler's answer, case by case: start-up failure writes nothing; a staging
      exception is reported with the writes made before it; then the queue request decides,
      and an accepted workflow is answered by the poll loop. */
  lemma RespondCases(healthy: nat -> bool, images: seq<ImageObject>, io: StagingIo, queue: QueueAnswer, polls: seq<Poll>, disk: Disk)
    requires WellShaped(disk) && TimesOut(polls)
    ensures !StartsUp(healthy) ==>
      Respond(healthy, images, io, queue, polls, disk) == (Failure("Failed to start ComfyUI server"), [])
    ensures StartsUp(healthy) && Stage(images, io).error.Some? ==>
      Respond(healthy, images, io, queue, polls, disk) ==
        (Failure("Handler error: " + Stage(images, io).error.value), Stage(images, io).writes)
    ensures StartsUp(healthy) ==> Respond(healthy, images, io, queue, polls, disk).1 == Stage(images, io).writes
    ensures StartsUp(healthy) && Stage(images, io).error.None? && queue.QueueRaised? ==>
      Respond(healthy, images, io, queue, polls, disk).0 == Failure("Handler error: " + queue.message)
    ensures StartsUp(healthy) && Stage(images, io).error.None? && queue.QueueRejected? ==>
      Respond(healthy, images, io, queue, polls, disk).0 == Failure("Failed to queue workflow: " + queue.text)
    ensures StartsUp(healthy) && Stage(images, io).error.None? && queue.QueueAccepted? ==>
      Respond(healthy, images, io, queue, polls, disk) == (PollFrom(polls, 0, disk), Stage(images, io).writes)
  {
  }

  /** A rejected queue request answers with an error that names the rejection. */
  lemma QueueRejectionReported(healthy: nat -> bool, images: seq<ImageObject>, io: StagingIo, text: string, polls: seq<Poll>, disk: Disk)
    requires WellShaped(disk) && TimesOut(polls)
    requires StartsUp(healthy) && Stage(images, io).error.None?
    ensures Respond(healthy, images, io, QueueRejected(text), polls, disk).0 == Failure("Failed to queue workflow: " + text)
    ensures StartsWith(Respond(healthy, images, io, QueueRejected(text), polls, disk).0.error, "Failed to queue workflow")
  {
    var msg := "Failed to queue workflow: " + text;
    assert msg[..|"Failed to queue workflow"|] == "Failed to queue workflow";
  }

  /** When no history answer before the clock passes ten minutes carries the prompt or raises,
      the handler answers with the timeout error. */
  lemma {:induction false} TimeoutReported(polls: seq<Poll>, i: nat, disk: Disk)
    requires WellShaped(disk) && i <= |polls|
    requires exists k :: i <= k < |polls| && polls[k].elapsed >= Timeout
    requires forall j :: i <= j < |polls| && polls[j].elapsed < Timeout ==>
      polls[j].answer.HistoryNotOk? || polls[j].answer.HistoryAbsent?
    ensures PollFrom(polls, i, disk) == Failure("Video generation timed out")
    decreases |polls| - i
  {
    if polls[i].elapsed < Timeout {
      TimeoutReported(polls, i + 1, disk);
    }
  }

  /** No exception escapes: every failure the handler answers with is one of its four
      messages. */
  lemma FailuresAreReported(healthy: nat -> bool, images: seq<ImageObject>, io: StagingIo, queue: QueueAnswer, polls: seq<Poll>, disk: Disk)
    requires WellShaped(disk) && TimesOut(polls)
    ensures var r := Respond(healthy, images, io, queue, polls, disk).0;
      r.Failure? ==>
        r.error == "Failed to start ComfyUI server" || r.error == "Video generation timed out" ||
        StartsWith(r.error, "Handler error: ") || StartsWith(r.error, "Failed to queue workflow: ")
  {
    var r := Respond(healthy, images, io, queue, polls, disk).0;
    if r.Failure? && StartsUp(healthy) && Stage(images, io).error.None? && queue.QueueAccepted? {
      PollFailures(polls, 0, disk);
    }
  }

  lemma {:induction false} PollFailures(polls: seq<Poll>, i: nat, disk: Disk)
    requires WellShaped(disk) && i <= |polls|
    requires exists k :: i <= k < |polls| && polls[k].elapsed >= Timeout
    ensures var r := PollFrom(polls, i, disk);
      r.Failure? ==> r.error == "Video generation timed out" || StartsWith(r.error, "Handler error: ")
    decreases |polls| - i
  {
    if polls[i].elapsed < Timeout {
      match polls[i].answer
      case HistoryRaised(message) =>
        assert ("Handler error: " + message)[..|"Handler error: "|] == "Handler error: ";
      case HistoryPresent(outputs) =>
        LocateFailsOnlyInFirstTier(outputs, disk);
        if FromOutputs(outputs, disk.existing).Err? {
          var m := FromOutputs(outputs, disk.existing).message;
          assert ("Handler error: " + m)[..|"Handler error: "|] == "Handler error: ";
        }
      case _ =>
        PollFailures(polls, i + 1, disk);
    }
  }
}
