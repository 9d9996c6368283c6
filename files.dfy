/** Directory entries with a timestamp, and the two ways the source picks the newest one:
    `max(files, key=getctime)` in the script and a stable `sort(key=getmtime, reverse=True)`
    followed by `[0]` in the handler. */
module Files {
  import opened Text

  /** A file name (or path) with the timestamp the source orders by (ctime or mtime). */
  datatype Entry = Entry(name: string, time: real)

  /** `max(es, key=time)`: Python keeps the first element whose key is largest, replacing it
      only on a strictly larger key. */
  function NewestIndex(es: seq<Entry>): (k: nat)
    requires es != []
    ensures k < |es|
    ensures forall j :: 0 <= j < |es| ==> es[j].time <= es[k].time
    ensures forall j :: 0 <= j < k ==> es[j].time < es[k].time
  {
    if |es| == 1 then 0
    else
      var k := NewestIndex(es[..|es| - 1]);
      assert forall j :: 0 <= j < |es| - 1 ==> es[..|es| - 1][j] == es[j];
      if es[|es| - 1].time > es[k].time then |es| - 1 else k
  }

  /** The first-newest position is unique: no other index has both of its properties. */
  lemma FirstNewestUnique(es: seq<Entry>, k: int, k': int)
    requires 0 <= k < |es| && 0 <= k' < |es|
    requires forall j :: 0 <= j < |es| ==> es[j].time <= es[k].time
    requires forall j :: 0 <= j < k ==> es[j].time < es[k].time
    requires forall j :: 0 <= j < |es| ==> es[j].time <= es[k'].time
    requires forall j :: 0 <= j < k' ==> es[j].time < es[k'].time
    ensures k == k'
  {
    assert es[k].time == es[k'].time;
  }

  /** Descending by time: each entry is at least as new as every later one. */
  predicate NewestFirst(s: seq<Entry>) {
    forall i, j :: 0 <= i < j < |s| ==> s[i].time >= s[j].time
  }

  /** Inserts `e` in front of the first entry that is not newer, so that `e` stays ahead of
      the entries with its own timestamp (it came before them in the input). */
  function InsertNewestFirst(e: Entry, s: seq<Entry>): (r: seq<Entry>)
    requires NewestFirst(s)
    ensures multiset(r) == multiset(s) + multiset{e}
    ensures NewestFirst(r)
    ensures s == [] || s[0].time <= e.time ==> r[0] == e
    ensures s != [] && s[0].time > e.time ==> r[0] == s[0]
  {
    if s == [] || s[0].time <= e.time then [e] + s
    else
      var t := InsertNewestFirst(e, s[1..]);
      InsertBehindHead(e, s, t);
      [s[0]] + t
  }

  /** Putting the head of `s` back in front of `e` inserted into the rest of `s`. */
  lemma InsertBehindHead(e: Entry, s: seq<Entry>, t: seq<Entry>)
    requires s != [] && NewestFirst(s) && s[0].time > e.time
    requires NewestFirst(t) && multiset(t) == multiset(s[1..]) + multiset{e}
    ensures NewestFirst([s[0]] + t)
    ensures multiset([s[0]] + t) == multiset(s) + multiset{e}
  {
    assert s == [s[0]] + s[1..];
    forall x | x in t ensures x.time <= s[0].time {
      assert x in multiset(t);
      assert x == e || x in multiset(s[1..]);
    }
    ConsNewestFirst(s[0], t);
  }

  lemma ConsNewestFirst(h: Entry, t: seq<Entry>)
    requires NewestFirst(t) && forall x :: x in t ==> x.time <= h.time
    ensures NewestFirst([h] + t)
  {
    var r := [h] + t;
    forall i, j | 0 <= i < j < |r| ensures r[i].time >= r[j].time {
      assert r[j] == t[j - 1];
      if i > 0 {
        assert r[i] == t[i - 1];
      }
    }
  }

  /** `list.sort(key=time, reverse=True)`: a stable sort, newest first. */
  function SortNewestFirst(es: seq<Entry>): (r: seq<Entry>)
    ensures multiset(r) == multiset(es)
    ensures NewestFirst(r)
  {
    if es == [] then []
    else
      assert es == [es[0]] + es[1..];
      InsertNewestFirst(es[0], SortNewestFirst(es[1..]))
  }

  /** The head of the newest-first sort is exactly the element `max` picks: among entries with
      the largest timestamp, the one listed first. */
  lemma {:induction false} SortHeadIsNewest(es: seq<Entry>)
    requires es != []
    ensures SortNewestFirst(es) != [] && SortNewestFirst(es)[0] == es[NewestIndex(es)]
  {
    if |es| > 1 {
      SortHeadIsNewest(es[1..]);
      var m := NewestIndex(es[1..]);
      if es[1..][m].time <= es[0].time {
        FirstIsNewest(es);
      } else {
        LaterIsNewest(es, m);
      }
    }
  }

  lemma FirstIsNewest(es: seq<Entry>)
    requires |es| > 1 && es[1..][NewestIndex(es[1..])].time <= es[0].time
    ensures NewestIndex(es) == 0
  {
    var rest := es[1..];
    forall j | 1 <= j < |es| ensures es[j].time <= es[0].time {
      assert rest[j - 1] == es[j];
    }
    FirstNewestUnique(es, 0, NewestIndex(es));
  }

  lemma LaterIsNewest(es: seq<Entry>, m: int)
    requires |es| > 1 && m == NewestIndex(es[1..]) && es[1..][m].time > es[0].time
    ensures NewestIndex(es) == m + 1 && es[m + 1] == es[1..][m]
  {
    var rest := es[1..];
    forall j | 1 <= j < |es| ensures es[j].time <= es[m + 1].time {
      assert rest[j - 1] == es[j];
    }
    forall j | 1 <= j < m + 1 ensures es[j].time < es[m + 1].time {
      assert rest[j - 1] == es[j];
    }
    FirstNewestUnique(es, m + 1, NewestIndex(es));
  }

  /** The names of the entries, in order. */
  function Names(es: seq<Entry>): (r: seq<string>)
    ensures |r| == |es| && forall i :: 0 <= i < |es| ==> r[i] == es[i].name
  {
    seq(|es|, i requires 0 <= i < |es| => es[i].name)
  }

  /** The name patterns of the script's directory globs. */
  datatype Pattern = I2vMp4 | AnyMp4 | AnyWebm

  /** "_I2V_" occurs at position `i` of `name`, before a final ".mp4". */
  predicate MarkerAt(name: string, i: int) {
    0 <= i && i + 5 <= |name| - 4 && name[i..i + 5] == "_I2V_"
  }

  /** `fnmatch` of a name against `*_I2V_*.mp4`, `*.mp4` or `*.webm`. */
  predicate Matches(name: string, p: Pattern) {
    match p
    case I2vMp4 =>
      EndsWith(name, ".mp4") &&
      exists i :: 0 <= i < |name| && MarkerAt(name, i)
    case AnyMp4 => EndsWith(name, ".mp4")
    case AnyWebm => EndsWith(name, ".webm")
  }

  /** `fnmatch` on sample names: the `*` on either side of the marker may be empty, the marker
      must be whole, and the extension is compared as written. */
  lemma MatchesExamples()
    ensures Matches("clip_I2V_00001_.mp4", I2vMp4) && Matches("_I2V_.mp4", I2vMp4)
    ensures !Matches("clip_I2V.mp4", I2vMp4) && !Matches("clip_00001_.mp4", I2vMp4)
    ensures Matches("clip.mp4", AnyMp4) && !Matches("clip.mp4.part", AnyMp4) && !Matches("clip.MP4", AnyMp4)
    ensures Matches("clip.webm", AnyWebm) && !Matches("clip.mp4", AnyWebm)
  {
    assert MarkerAt("clip_I2V_00001_.mp4", 4);
    assert MarkerAt("_I2V_.mp4", 0);
    forall i | 0 <= i < |"clip_I2V.mp4"|
      ensures !MarkerAt("clip_I2V.mp4", i)
    {
      if i + 5 <= |"clip_I2V.mp4"| - 4 {
        assert "clip_I2V.mp4"[i..i + 5][1] == "clip_I2V.mp4"[i + 1] != 'I';
      }
    }
    forall i | 0 <= i < |"clip_00001_.mp4"|
      ensures !MarkerAt("clip_00001_.mp4", i)
    {
      if i + 5 <= |"clip_00001_.mp4"| - 4 {
        assert "clip_00001_.mp4"[i..i + 5][1] == "clip_00001_.mp4"[i + 1] != 'I';
      }
    }
  }

  /** A name with the "_I2V_" marker is also an `*.mp4` name. */
  lemma I2vIsMp4(name: string)
    requires Matches(name, I2vMp4)
    ensures Matches(name, AnyMp4)
  {
  }

  /** The entries of a listing matching `p`, in listing order. */
  function Glob(es: seq<Entry>, p: Pattern): (r: seq<Entry>)
    ensures |r| <= |es|
    ensures |es| == 1 ==> r == (if Matches(es[0].name, p) then es else [])
  {
    if es == [] then []
    else if Matches(es[0].name, p) then [es[0]] + Glob(es[1..], p)
    else Glob(es[1..], p)
  }

  /** A file is in a glob's result exactly when it is listed and matches the pattern. */
  lemma {:induction false} GlobMembers(es: seq<Entry>, p: Pattern)
    ensures forall e :: e in Glob(es, p) <==> e in es && Matches(e.name, p)
  {
    if es != [] {
      GlobMembers(es[1..], p);
      assert es == [es[0]] + es[1..];
    }
  }

  /** A glob keeps listing order: the matches in a concatenation are those of each part, in
      order. With the one-entry case above this fixes the result. */
  lemma {:induction false} GlobAppend(a: seq<Entry>, b: seq<Entry>, p: Pattern)
    ensures Glob(a + b, p) == Glob(a, p) + Glob(b, p)
  {
    if a == [] {
      assert a + b == b;
    } else {
      GlobAppend(a[1..], b, p);
      assert a == [a[0]] + a[1..];
      GlobAppendCons(a[0], a[1..], b, p);
    }
  }

  lemma GlobAppendCons(e: Entry, t: seq<Entry>, b: seq<Entry>, p: Pattern)
    requires Glob(t + b, p) == Glob(t, p) + Glob(b, p)
    ensures Glob([e] + t + b, p) == Glob([e] + t, p) + Glob(b, p)
  {
    var h := if Matches(e.name, p) then [e] else [];
    calc {
      Glob([e] + t + b, p);
      { assert [e] + t + b == [e] + (t + b); GlobCons(e, t + b, p); }
      h + Glob(t + b, p);
      h + (Glob(t, p) + Glob(b, p));
      { GlobCons(e, t, p); }
      Glob([e] + t, p) + Glob(b, p);
    }
  }

  lemma GlobCons(e: Entry, t: seq<Entry>, p: Pattern)
    ensures Glob([e] + t, p) == (if Matches(e.name, p) then [e] else []) + Glob(t, p)
  {
    assert ([e] + t)[0] == e && ([e] + t)[1..] == t;
  }

}
