/** How the target width and height of a render are chosen: the symbolic tiers and the
    "auto" pick of the closest supported size for the input image. */
module Resolution {
  import opened Wrappers

  datatype Size = Size(width: int, height: int)

  /** The sizes the video model supports, in the order the picker scans them. */
  const Catalog: seq<Size> := [
    Size(512, 512), Size(640, 640), Size(768, 768), Size(1024, 1024), Size(512, 768),
    Size(768, 512), Size(640, 960), Size(960, 640), Size(1024, 768), Size(768, 1024)
  ]

  /** The fallback when the input cannot be measured, and for an unknown tier. */
  const DefaultSize: Size := Size(640, 640)

  predicate Measurable(input: Size) {
    input.width > 0 && input.height > 0
  }

  function Abs(x: real): real {
    if x < 0.0 then -x else x
  }

  /** The picker's score, in exact arithmetic: twice the aspect-ratio gap plus the pixel-count
      gap relative to the input's pixel count. Smaller is closer. */
  function Score(c: Size, input: Size): (s: real)
    requires c.height > 0 && Measurable(input)
    ensures s >= 0.0
    ensures c.width * input.height == input.width * c.height && c.width * c.height == input.width * input.height ==> s == 0.0
  {
    var aspect := c.width as real / c.height as real;
    var inputAspect := input.width as real / input.height as real;
    var inputPixels := (input.width * input.height) as real;
    assert inputPixels > 0.0 by { MulPositive(input.width, input.height); }
    Abs(aspect - inputAspect) * 2.0 + Abs((c.width * c.height) as real - inputPixels) / inputPixels
  }

  lemma MulPositive(a: int, b: int)
    requires a > 0 && b > 0
    ensures a * b > 0
  {
  }

  /** The index the picker holds after scanning the first `n` catalog entries: a later entry
      replaces the current one only when its score is strictly smaller. */
  function BestIndex(input: Size, n: nat): (k: nat)
    requires Measurable(input) && 1 <= n <= |Catalog|
    ensures k < n
  {
    if n == 1 then 0
    else
      var k := BestIndex(input, n - 1);
      if Score(Catalog[n - 1], input) < Score(Catalog[k], input) then n - 1 else k
  }

  /** The picked entry has the smallest score among the first `n` entries, and every earlier
      entry scores strictly worse: ties go to the first entry in catalog order. */
  lemma {:induction false} BestIndexIsFirstMinimum(input: Size, n: nat)
    requires Measurable(input) && 1 <= n <= |Catalog|
    ensures forall j :: 0 <= j < n ==> Score(Catalog[BestIndex(input, n)], input) <= Score(Catalog[j], input)
    ensures forall j :: 0 <= j < BestIndex(input, n) ==> Score(Catalog[j], input) > Score(Catalog[BestIndex(input, n)], input)
  {
    if n > 1 {
      BestIndexIsFirstMinimum(input, n - 1);
    }
  }

  /** What `calculate_auto_resolution` returns, given the measured size of the decoded input
      image (`None` when the data URI, base64 or image decoding raised). A zero width or
      height makes the source divide by zero, which it also answers with the default. */
  function AutoResolution(decoded: Option<Size>): Size {
    if decoded.Some? && Measurable(decoded.value) then Catalog[BestIndex(decoded.value, |Catalog|)]
    else DefaultSize
  }

  /** The loop of `calculate_auto_resolution`: scan the catalog keeping the best-scoring entry. */
  method CalculateAutoResolution(decoded: Option<Size>) returns (r: Size)
    ensures r == AutoResolution(decoded)
  {
    if decoded.None? || !Measurable(decoded.value) {
      return DefaultSize;
    }
    var input := decoded.value;
    var bestMatch: Option<Size> := None;
    var bestScore: real := 0.0;
    for i := 0 to |Catalog|
      invariant i == 0 <==> bestMatch.None?
      invariant i > 0 ==> bestMatch == Some(Catalog[BestIndex(input, i)])
      invariant i > 0 ==> bestScore == Score(bestMatch.value, input)
    {
      var c := Catalog[i];
      var score := Score(c, input);
      if bestMatch.None? || score < bestScore {
        bestScore := score;
        bestMatch := Some(c);
      }
    }
    r := bestMatch.value;
  }

  /** The auto pick is the catalog's first closest entry to a measurable input, and the
      default otherwise; either way it is a supported size. */
  lemma AutoResolutionIsClosest(decoded: Option<Size>)
    ensures AutoResolution(decoded) in Catalog
    ensures decoded.Some? && Measurable(decoded.value) ==>
      exists k :: 0 <= k < |Catalog| && AutoResolution(decoded) == Catalog[k] &&
        (forall j :: 0 <= j < |Catalog| ==> Score(Catalog[k], decoded.value) <= Score(Catalog[j], decoded.value)) &&
        (forall j :: 0 <= j < k ==> Score(Catalog[j], decoded.value) > Score(Catalog[k], decoded.value))
    ensures !(decoded.Some? && Measurable(decoded.value)) ==> AutoResolution(decoded) == DefaultSize
  {
    if decoded.Some? && Measurable(decoded.value) {
      BestIndexIsFirstMinimum(decoded.value, |Catalog|);
    }
  }

  /** An input whose size is in the catalog gets exactly that size back. */
  lemma CatalogSizeIsKept(input: Size)
    requires input in Catalog
    ensures AutoResolution(Some(input)) == input
  {
    var k := BestIndex(input, |Catalog|);
    BestIndexIsFirstMinimum(input, |Catalog|);
    var i :| 0 <= i < |Catalog| && Catalog[i] == input;
    assert Score(input, input) == 0.0;
    assert Score(Catalog[k], input) == 0.0;
    ZeroScoreIsSameSize(Catalog[k], input);
  }

  /** Only a candidate with the input's exact aspect ratio and pixel count scores zero. */
  lemma ZeroScoreIsSameSize(c: Size, input: Size)
    requires c.height > 0 && c.width > 0 && Measurable(input) && Score(c, input) == 0.0
    ensures c == input
  {
    var aspect := c.width as real / c.height as real;
    var inputAspect := input.width as real / input.height as real;
    var inputPixels := (input.width * input.height) as real;
    MulPositive(input.width, input.height);
    assert Abs(aspect - inputAspect) == 0.0;
    assert Abs((c.width * c.height) as real - inputPixels) / inputPixels == 0.0;
    assert c.width * c.height == input.width * input.height;
    assert c.width * input.height == input.width * c.height;
    SameRatioAndArea(c.width, c.height, input.width, input.height);
  }

  lemma SameRatioAndArea(w: int, h: int, w': int, h': int)
    requires w > 0 && h > 0 && w' > 0 && h' > 0
    requires w * h' == w' * h && w * h == w' * h'
    ensures w == w' && h == h'
  {
    if w < w' {
      MulLess(w, w', h);
      MulLessLeft(w, h, h');
      MulLess(w, w', h');
    } else if w > w' {
      MulLess(w', w, h);
      MulLessLeft(w, h', h);
      MulLess(w', w, h');
    } else {
      MulCancel(w, h, h');
    }
  }

  lemma MulLess(a: int, c: int, b: int)
    requires 0 <= a < c && b > 0
    ensures a * b < c * b
  {
  }

  lemma MulLessLeft(a: int, b: int, d: int)
    requires a > 0 && a * b < a * d
    ensures b < d
  {
  }

  lemma MulCancel(a: int, b: int, d: int)
    requires a > 0 && a * b == a * d
    ensures b == d
  {
  }

  /** Every supported size has sides that are multiples of 8. */
  lemma CatalogIsAligned()
    ensures forall c :: c in Catalog ==> c.width % 8 == 0 && c.height % 8 == 0
  {
    forall c | c in Catalog ensures c.width % 8 == 0 && c.height % 8 == 0 {
      var i :| 0 <= i < |Catalog| && Catalog[i] == c;
    }
  }

  /** The size used for the workflow: "auto" asks the picker, "720p" and any unknown tier
      give 640x640, "1080p" gives 1024x1024. */
  function TargetSize(resolution: string, decoded: Option<Size>): (r: Size)
    ensures r in Catalog && r.width % 8 == 0 && r.height % 8 == 0
    ensures resolution != "auto" ==> r.width == r.height
    ensures resolution == "1080p" ==> r == Size(1024, 1024)
    ensures resolution != "auto" && resolution != "1080p" ==> r == Size(640, 640)
    ensures resolution == "auto" ==> r == AutoResolution(decoded)
  {
    AutoResolutionIsClosest(decoded);
    CatalogIsAligned();
    assert Catalog[1] == Size(640, 640) && Catalog[3] == Size(1024, 1024);
    if resolution == "auto" then AutoResolution(decoded)
    else if resolution == "720p" then Size(640, 640)
    else if resolution == "1080p" then Size(1024, 1024)
    else DefaultSize
  }
}
