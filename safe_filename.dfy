/** `create_safe_filename`: turns a free-text prompt into a file-name fragment. */
module SafeFilename {
  import opened Wrappers
  import opened Text

  /** The characters the sanitiser deletes: < > : " / \ | ? * */
  predicate IsForbidden(c: char) {
    c == '<' || c == '>' || c == ':' || c == '"' || c == '/' || c == '\\' ||
    c == '|' || c == '?' || c == '*'
  }

  /** A name with no forbidden character and no whitespace. */
  predicate IsSafe(s: string) {
    forall i :: 0 <= i < |s| ==> !IsForbidden(s[i]) && !IsSpace(s[i])
  }

  /** `re.sub(r'[<>:"/\\|?*]', '', s)`: drops every forbidden character, keeps the rest in order. */
  function RemoveForbidden(s: string): (r: string)
    ensures |r| <= |s|
    ensures forall i :: 0 <= i < |r| ==> !IsForbidden(r[i])
    ensures (forall i :: 0 <= i < |s| ==> !IsForbidden(s[i])) ==> r == s
    ensures |s| == 1 && IsForbidden(s[0]) ==> r == []
  {
    if s == [] then []
    else
      var tail := RemoveForbidden(s[1..]);
      if IsForbidden(s[0]) then tail else [s[0]] + tail
  }

  /** Deleting forbidden characters works piecewise: the pieces of a concatenation are cleaned
      apart and joined in order. With the one-character cases above this fixes the result. */
  lemma {:induction false} RemoveForbiddenAppend(a: string, b: string)
    ensures RemoveForbidden(a + b) == RemoveForbidden(a) + RemoveForbidden(b)
  {
    if a == [] {
      assert a + b == b;
    } else {
      assert (a + b)[0] == a[0] && (a + b)[1..] == a[1..] + b;
      RemoveForbiddenAppend(a[1..], b);
    }
  }

  /** `re.sub(r'\s+', '_', s)`: every maximal run of whitespace becomes one '_'. */
  function JoinWhitespaceRuns(s: string): (r: string)
    ensures |r| <= |s|
    ensures NoSpace(r)
    ensures (forall i :: 0 <= i < |s| ==> !IsForbidden(s[i])) ==> (forall i :: 0 <= i < |r| ==> !IsForbidden(r[i]))
    ensures NoSpace(s) ==> r == s
    decreases |s|
  {
    if s == [] then []
    else if IsSpace(s[0]) then "_" + JoinWhitespaceRuns(TrimStart(s[1..]))
    else [s[0]] + JoinWhitespaceRuns(s[1..])
  }

  /** The text after a leading run of whitespace is the text that follows the run. */
  lemma {:induction false} TrimStartSpaces(w: string, b: string)
    requires AllSpace(w) && (b == [] || !IsSpace(b[0]))
    ensures TrimStart(w + b) == b
  {
    if w == [] {
      assert w + b == b;
    } else {
      assert (w + b)[0] == w[0] && (w + b)[1..] == w[1..] + b;
      TrimStartSpaces(w[1..], b);
    }
  }

  /** A maximal run of whitespace `w` after space-free text `a` becomes a single '_', the text
      before it is kept as it is, and the rest is treated the same way. With the space-free case
      of the function's contract this fixes the result on every input. */
  lemma {:induction false} JoinOneRun(a: string, w: string, b: string)
    requires NoSpace(a) && w != [] && AllSpace(w) && (b == [] || !IsSpace(b[0]))
    ensures JoinWhitespaceRuns(a + w + b) == a + "_" + JoinWhitespaceRuns(b)
    decreases |a|
  {
    if a == [] {
      assert a + w + b == w + b;
      JoinLeadingRun(w, b);
    } else {
      var t := a[1..];
      calc {
        JoinWhitespaceRuns(a + w + b);
        { assert a + w + b == [a[0]] + (t + w + b); }
        JoinWhitespaceRuns([a[0]] + (t + w + b));
        { JoinKeepsNonSpace(a[0], t + w + b); }
        [a[0]] + JoinWhitespaceRuns(t + w + b);
        { JoinOneRun(t, w, b); }
        [a[0]] + (t + "_" + JoinWhitespaceRuns(b));
        { assert a == [a[0]] + t; }
        a + "_" + JoinWhitespaceRuns(b);
      }
    }
  }

  lemma JoinLeadingRun(w: string, b: string)
    requires w != [] && AllSpace(w) && (b == [] || !IsSpace(b[0]))
    ensures JoinWhitespaceRuns(w + b) == "_" + JoinWhitespaceRuns(b)
  {
    var s := w + b;
    assert s[0] == w[0] && s[1..] == w[1..] + b;
    TrimStartSpaces(w[1..], b);
  }

  lemma JoinKeepsNonSpace(c: char, t: string)
    requires !IsSpace(c)
    ensures JoinWhitespaceRuns([c] + t) == [c] + JoinWhitespaceRuns(t)
  {
    assert ([c] + t)[0] == c && ([c] + t)[1..] == t;
  }

  /** Python's `s[:n]`: a negative `n` counts from the end. */
  function PyPrefix(s: string, n: int): (r: string)
    ensures |r| <= |s| && r == s[..|r|]
    ensures |r| == if n >= 0 then MinInt(n, |s|) else MaxInt(0, |s| + n)
  {
    if n >= 0 then s[..if n < |s| then n else |s|]
    else s[..if |s| + n > 0 then |s| + n else 0]
  }

  /** A negative bound drops that many characters from the end, or everything when it is
      longer than the string. */
  lemma PyPrefixNegative()
    ensures PyPrefix("prompt", -2) == "prom"
    ensures PyPrefix("prompt", -9) == ""
    ensures PyPrefix("prompt", 50) == "prompt"
  {
  }

  const NoPrompt: string := "no_prompt"

  /** The sanitised prefix used for output file names (default `maxLength` is 50). */
  function SafeFilename(prompt: string, maxLength: int): (r: string)
    ensures AllSpace(prompt) ==> r == NoPrompt
    ensures !AllSpace(prompt) ==> maxLength >= 0 ==> |r| <= maxLength
    ensures IsSafe(r)
  {
    StripEmptyIff(prompt);
    if Strip(prompt) == [] then NoPrompt
    else
      var r := PyPrefix(JoinWhitespaceRuns(RemoveForbidden(Strip(prompt))), maxLength);
      assert forall i :: 0 <= i < |r| ==> r[i] in JoinWhitespaceRuns(RemoveForbidden(Strip(prompt)));
      r
  }

  /** A name that is already safe, non-empty and short enough comes back unchanged. */
  lemma SafeNameUnchanged(name: string, maxLength: int)
    requires name != [] && IsSafe(name) && |name| <= maxLength
    ensures SafeFilename(name, maxLength) == name
  {
    assert NoSpace(name);
    StripNoSpace(name);
    assert !AllSpace(name) by { assert !IsSpace(name[0]); }
    StripEmptyIff(name);
  }

  /** Sanitising twice is sanitising once, unless the first pass produced the empty name
      (a prompt made only of forbidden characters). */
  lemma SafeFilenameIdempotent(prompt: string, maxLength: int)
    requires maxLength >= |NoPrompt|
    requires SafeFilename(prompt, maxLength) != []
    ensures SafeFilename(SafeFilename(prompt, maxLength), maxLength) == SafeFilename(prompt, maxLength)
  {
    SafeNameUnchanged(SafeFilename(prompt, maxLength), maxLength);
  }

  /** Removing forbidden characters from a string made only of them leaves nothing. */
  lemma {:induction false} RemoveAllForbidden(s: string)
    requires forall i :: 0 <= i < |s| ==> IsForbidden(s[i])
    ensures RemoveForbidden(s) == []
  {
    if s != [] {
      RemoveAllForbidden(s[1..]);
    }
  }

  /** A non-empty prompt made only of forbidden characters gives the empty name, not "no_prompt". */
  lemma OnlyForbiddenGivesEmptyName(prompt: string, maxLength: int)
    requires prompt != [] && forall i :: 0 <= i < |prompt| ==> IsForbidden(prompt[i])
    ensures SafeFilename(prompt, maxLength) == []
  {
    ForbiddenHasNoSpace(prompt);
    StripNoSpace(prompt);
    RemoveAllForbidden(prompt);
    assert JoinWhitespaceRuns([]) == [];
  }

  lemma ForbiddenHasNoSpace(s: string)
    requires forall i :: 0 <= i < |s| ==> IsForbidden(s[i])
    ensures NoSpace(s)
  {
    forall i | 0 <= i < |s| ensures !IsSpace(s[i]) {
      ForbiddenIsNotSpace(s[i]);
    }
  }

  lemma ForbiddenIsNotSpace(c: char)
    requires IsForbidden(c)
    ensures !IsSpace(c)
  {
  }
}
