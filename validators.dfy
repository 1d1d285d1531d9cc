/**
 * Post-generation validation of an icon layer: the image must be 1024x1024,
 * its four corner pixels must be pure black, and a 256x256 nearest-neighbour
 * sample of it may hold at most 20 distinct colours (more than 5 draws a
 * warning). Failures accumulate in a `ValidationResult`; the result is `ok`
 * when it still passes and no error was recorded.
 */
module Validators {
  import opened Decimal

  type byte = x: int | 0 <= x < 256

  datatype Rgb = Rgb(r: byte, g: byte, b: byte)

  const Black := Rgb(0, 0, 0)

  const SampleSize := 256 * 256

  /** An image after `convert("RGB")`: `rows[y][x]` is the pixel at (x, y),
      and `sample` is its `resize((256, 256), NEAREST)` read row by row, as
      the imaging library computes it. */
  datatype Raster = Raster(width: nat, height: nat, rows: seq<seq<Rgb>>, sample: seq<Rgb>) {
    predicate WellFormed() {
      && width > 0 && height > 0
      && |rows| == height
      && (forall y :: 0 <= y < |rows| ==> |rows[y]| == width)
      && |sample| == SampleSize
    }
  }

  /** A decoded image; an image file always has at least one pixel. */
  type Image = r: Raster | r.WellFormed() witness Raster(1, 1, [[Black]], seq(SampleSize, _ => Black))

  function Pixel(img: Image, x: nat, y: nat): Rgb
    requires x < img.width && y < img.height
  {
    img.rows[y][x]
  }

  // ---------------------------------------------------------------------------
  // Findings
  // ---------------------------------------------------------------------------

  /** One line of a validation report; `Text` gives the line as printed. */
  datatype Message =
    | WrongSize(width: nat, height: nat)
    | CornerNotBlack(corner: string, x: nat, y: nat, pixel: Rgb)
    | TooManyColors(count: nat)
    | ColorVariation(count: nat)

  function RgbText(p: Rgb): string {
    "(" + NatToString(p.r) + ", " + NatToString(p.g) + ", " + NatToString(p.b) + ")"
  }

  function Text(m: Message): string {
    match m
    case WrongSize(w, h) =>
      "Expected 1024x1024, got " + NatToString(w) + "x" + NatToString(h)
    case CornerNotBlack(name, x, y, p) =>
      "Corner " + name + " at (" + NatToString(x) + "," + NatToString(y) + ") is "
      + RgbText(p) + ", expected (0,0,0)"
    case TooManyColors(n) =>
      "Too many colors (" + NatToString(n) + ") — image likely has gradients or details"
    case ColorVariation(n) =>
      "Color count is " + NatToString(n) + " (ideal is 2) — may have anti-aliasing or slight variation"
  }

  /** The size error for a 512x512 image, as `check_size` prints it. */
  lemma SizeErrorText()
    ensures Text(WrongSize(512, 512)) == "Expected 1024x1024, got 512x512"
  {
    assert DigitChar(5) == '5' && DigitChar(1) == '1' && DigitChar(2) == '2';
    assert NatToString(512) == "512";
  }

  /** The state of a `ValidationResult` as a value. */
  datatype Report = Report(passed: bool, warnings: seq<Message>, errors: seq<Message>) {
    predicate Ok() {
      passed && errors == []
    }
  }

  const Fresh := Report(true, [], [])

  class ValidationResult {
    var passed: bool
    var warnings: seq<Message>
    var errors: seq<Message>

    constructor ()
      ensures Snapshot() == Fresh
    {
      passed := true;
      warnings := [];
      errors := [];
    }

    function Snapshot(): Report
      reads this
    {
      Report(passed, warnings, errors)
    }

    /** The `ok` property: still passing and no error recorded. */
    function Ok(): (r: bool)
      reads this
      ensures r <==> Snapshot().Ok()
      ensures r ==> errors == []
    {
      passed && errors == []
    }
  }

  // ---------------------------------------------------------------------------
  // Size
  // ---------------------------------------------------------------------------

  predicate IsIconSize(img: Image) {
    img.width == 1024 && img.height == 1024
  }

  function AfterSizeCheck(r: Report, img: Image): Report {
    if IsIconSize(img) then r
    else Report(false, r.warnings, r.errors + [WrongSize(img.width, img.height)])
  }

  /** `check_size`. */
  method CheckSize(img: Image, result: ValidationResult)
    modifies result
    ensures result.Snapshot() == AfterSizeCheck(old(result.Snapshot()), img)
  {
    if !(img.width == 1024 && img.height == 1024) {
      result.passed := false;
      result.errors := result.errors + [WrongSize(img.width, img.height)];
    }
  }

  // ---------------------------------------------------------------------------
  // Corners
  // ---------------------------------------------------------------------------

  datatype Corner = Corner(x: nat, y: nat, name: string)

  /** The corners checked, in order. */
  const Corners := [
    Corner(0, 0, "top-left"),
    Corner(1023, 0, "top-right"),
    Corner(0, 1023, "bottom-left"),
    Corner(1023, 1023, "bottom-right")
  ]

  predicate Covers(img: Image, cs: seq<Corner>) {
    forall k :: 0 <= k < |cs| ==> cs[k].x < img.width && cs[k].y < img.height
  }

  /** The error for each corner of `cs` that is not black, in order. */
  function CornerFindings(img: Image, cs: seq<Corner>): (found: seq<Message>)
    requires Covers(img, cs)
    ensures |found| <= |cs|
  {
    if cs == [] then []
    else
      var c := cs[|cs| - 1];
      var p := Pixel(img, c.x, c.y);
      CornerFindings(img, cs[..|cs| - 1])
      + (if p != Black then [CornerNotBlack(c.name, c.x, c.y, p)] else [])
  }

  /** Extending the corner list by one corner adds that corner's finding, if any. */
  lemma CornerFindingsStep(img: Image, cs: seq<Corner>, n: nat)
    requires Covers(img, cs) && n < |cs|
    ensures Covers(img, cs[..n]) && Covers(img, cs[..n + 1])
    ensures CornerFindings(img, cs[..n + 1])
         == CornerFindings(img, cs[..n])
            + (if Pixel(img, cs[n].x, cs[n].y) != Black
               then [CornerNotBlack(cs[n].name, cs[n].x, cs[n].y, Pixel(img, cs[n].x, cs[n].y))]
               else [])
  {
    assert cs[..n + 1][..n] == cs[..n];
  }

  /** Every finding is a corner error for a non-black pixel, and there is none
      exactly when every corner of `cs` is black. */
  lemma {:induction false} CornerFindingsMeaning(img: Image, cs: seq<Corner>)
    requires Covers(img, cs)
    ensures var found := CornerFindings(img, cs);
      && (forall k :: 0 <= k < |found| ==> found[k].CornerNotBlack? && found[k].pixel != Black)
      && (found == [] <==> forall k :: 0 <= k < |cs| ==> Pixel(img, cs[k].x, cs[k].y) == Black)
    decreases |cs|
  {
    if cs != [] {
      var init := cs[..|cs| - 1];
      CornerFindingsMeaning(img, init);
      assert forall k :: 0 <= k < |init| ==> init[k] == cs[k];
    }
  }

  /** The four corner pixels of a 1024x1024 image are black. */
  predicate AllCornersBlack(img: Image)
    requires IsIconSize(img)
  {
    && Pixel(img, 0, 0) == Black && Pixel(img, 1023, 0) == Black
    && Pixel(img, 0, 1023) == Black && Pixel(img, 1023, 1023) == Black
  }

  /** The corner check finds nothing exactly when all four corners are black. */
  lemma CornerFindingsNone(img: Image)
    requires IsIconSize(img)
    ensures Covers(img, Corners)
    ensures CornerFindings(img, Corners) == [] <==> AllCornersBlack(img)
  {
    CornerFindingsInOrder(img);
  }

  /** The finding for the corner named `name` at (x, y): none when its pixel
      is black, else one error carrying the name, the position and the pixel. */
  function CornerFinding(img: Image, x: nat, y: nat, name: string): seq<Message>
    requires x < img.width && y < img.height
  {
    if Pixel(img, x, y) != Black then [CornerNotBlack(name, x, y, Pixel(img, x, y))] else []
  }

  /** One more corner adds its own finding at the end. */
  lemma CornerFindingsSnoc(img: Image, cs: seq<Corner>, c: Corner)
    requires Covers(img, cs) && c.x < img.width && c.y < img.height
    ensures Covers(img, cs + [c])
    ensures CornerFindings(img, cs + [c]) == CornerFindings(img, cs) + CornerFinding(img, c.x, c.y, c.name)
  {
    assert (cs + [c])[..|cs|] == cs;
  }

  /** Over any four corners, the findings are those of each corner in turn. */
  lemma FourCornerFindings(img: Image, a: Corner, b: Corner, c: Corner, d: Corner)
    requires a.x < img.width && a.y < img.height && b.x < img.width && b.y < img.height
    requires c.x < img.width && c.y < img.height && d.x < img.width && d.y < img.height
    ensures Covers(img, [a, b, c, d])
    ensures CornerFindings(img, [a, b, c, d])
         == CornerFinding(img, a.x, a.y, a.name) + CornerFinding(img, b.x, b.y, b.name)
            + CornerFinding(img, c.x, c.y, c.name) + CornerFinding(img, d.x, d.y, d.name)
  {
    var s0: seq<Corner> := [];
    CornerFindingsSnoc(img, s0, a);
    var s1 := s0 + [a];
    CornerFindingsSnoc(img, s1, b);
    var s2 := s1 + [b];
    CornerFindingsSnoc(img, s2, c);
    var s3 := s2 + [c];
    CornerFindingsSnoc(img, s3, d);
    assert s3 + [d] == [a, b, c, d];
  }

  /** The corner check reports each non-black corner once, with its name,
      position and pixel, in the order top-left, top-right, bottom-left,
      bottom-right. */
  lemma CornerFindingsInOrder(img: Image)
    requires IsIconSize(img)
    ensures Covers(img, Corners)
    ensures CornerFindings(img, Corners)
         == CornerFinding(img, 0, 0, "top-left") + CornerFinding(img, 1023, 0, "top-right")
            + CornerFinding(img, 0, 1023, "bottom-left") + CornerFinding(img, 1023, 1023, "bottom-right")
  {
    FourCornerFindings(img, Corner(0, 0, "top-left"), Corner(1023, 0, "top-right"),
                       Corner(0, 1023, "bottom-left"), Corner(1023, 1023, "bottom-right"));
  }

  function AfterCornerCheck(r: Report, img: Image): Report
    requires Covers(img, Corners)
  {
    var found := CornerFindings(img, Corners);
    Report(r.passed && found == [], r.warnings, r.errors + found)
  }

  /** `check_corners`; the source reads the four pixels, so the image must
      reach (1023, 1023). */
  method CheckCorners(img: Image, result: ValidationResult)
    requires img.width >= 1024 && img.height >= 1024
    modifies result
    ensures result.Snapshot() == AfterCornerCheck(old(result.Snapshot()), img)
  {
    ghost var before := result.Snapshot();
    assert Covers(img, Corners);
    for n := 0 to |Corners|
      invariant Covers(img, Corners[..n])
      invariant result.warnings == before.warnings
      invariant result.errors == before.errors + CornerFindings(img, Corners[..n])
      invariant result.passed == (before.passed && CornerFindings(img, Corners[..n]) == [])
    {
      var corner := Corners[n];
      var pixel := Pixel(img, corner.x, corner.y);
      CornerFindingsStep(img, Corners, n);
      if pixel != Black {
        result.passed := false;
        result.errors := result.errors + [CornerNotBlack(corner.name, corner.x, corner.y, pixel)];
      }
    }
    assert Corners[..|Corners|] == Corners;
  }

  // ---------------------------------------------------------------------------
  // Colour count
  // ---------------------------------------------------------------------------

  /** `len(set(small.getdata()))`: at least one colour, and no more than the
      sample has pixels. */
  function ColorCount(img: Image): (n: nat)
    ensures 1 <= n <= SampleSize
  {
    var colors := set p | p in img.sample;
    assert colors == (colors - {img.sample[0]}) + {img.sample[0]};
    DistinctAtMostLength(img.sample);
    |colors|
  }

  /** A sequence holds no more distinct elements than it has positions. */
  lemma {:induction false} DistinctAtMostLength(s: seq<Rgb>)
    ensures |set p | p in s| <= |s|
    decreases |s|
  {
    if s != [] {
      var init := s[..|s| - 1];
      DistinctAtMostLength(init);
      assert (set p | p in s) == (set p | p in init) + {s[|s| - 1]} by {
        forall p | p in s ensures p in init || p == s[|s| - 1] {
          var k :| 0 <= k < |s| && s[k] == p;
          if k < |s| - 1 {
            assert init[k] == p;
          }
        }
      }
    }
  }

  function AfterColorCheck(r: Report, img: Image): Report {
    var colors := ColorCount(img);
    if colors > 20 then Report(false, r.warnings, r.errors + [TooManyColors(colors)])
    else if colors > 5 then Report(r.passed, r.warnings + [ColorVariation(colors)], r.errors)
    else r
  }

  /** `check_color_count`. */
  method CheckColorCount(img: Image, result: ValidationResult)
    modifies result
    ensures result.Snapshot() == AfterColorCheck(old(result.Snapshot()), img)
  {
    var small := img.sample;
    var colors := |set p | p in small|;
    if colors > 20 {
      result.passed := false;
      result.errors := result.errors + [TooManyColors(colors)];
    } else if colors > 5 {
      result.warnings := result.warnings + [ColorVariation(colors)];
    }
  }

  /** A sample of a single colour has a colour count of one. */
  lemma UniformColorCount(img: Image, c: Rgb)
    requires forall k :: 0 <= k < |img.sample| ==> img.sample[k] == c
    ensures ColorCount(img) == 1
  {
    assert img.sample[0] == c;
    assert (set p | p in img.sample) == {c};
  }

  // ---------------------------------------------------------------------------
  // Validation
  // ---------------------------------------------------------------------------

  /** The report `validate` returns: the size check, the corner check only on a
      1024x1024 image, then the colour check. */
  function Validation(img: Image): Report {
    var sized := AfterSizeCheck(Fresh, img);
    var cornered := if IsIconSize(img) then AfterCornerCheck(sized, img) else sized;
    AfterColorCheck(cornered, img)
  }

  /** An image `validate` finds `ok`: 1024x1024, black corners, at most 20
      colours. */
  predicate Acceptable(img: Image) {
    IsIconSize(img) && AllCornersBlack(img) && ColorCount(img) <= 20
  }

  /** What the report means: it is `ok` exactly for a 1024x1024 image with
      black corners and at most 20 colours; it passes exactly when it holds no
      error; a wrong size is the first error, and corners are reported only
      on an image of the right size. */
  lemma ValidationMeaning(img: Image)
    ensures var r := Validation(img);
      && (r.Ok() <==> Acceptable(img))
      && (r.passed <==> r.errors == [])
      && |r.errors| <= 5 && |r.warnings| <= 1
      && r.warnings == (if 5 < ColorCount(img) <= 20 then [ColorVariation(ColorCount(img))] else [])
      && (TooManyColors(ColorCount(img)) in r.errors <==> ColorCount(img) > 20)
      && (!IsIconSize(img) ==> r.errors[0] == WrongSize(img.width, img.height))
      && (forall k :: 0 <= k < |r.errors| && r.errors[k].CornerNotBlack? ==> IsIconSize(img))
  {
    if IsIconSize(img) {
      CornerFindingsNone(img);
      CornerFindingsInOrder(img);
    }
  }

  /** `validate`, on the decoded image. */
  method Validate(img: Image) returns (result: ValidationResult)
    ensures fresh(result)
    ensures result.Snapshot() == Validation(img)
  {
    result := new ValidationResult();
    CheckSize(img, result);
    if img.width == 1024 && img.height == 1024 {
      CheckCorners(img, result);
    }
    CheckColorCount(img, result);
  }

  /** A black 1024x1024 canvas passes with no warning. */
  lemma BlackCanvasPasses(img: Image)
    requires IsIconSize(img)
    requires forall y, x :: 0 <= y < img.height && 0 <= x < img.width ==> img.rows[y][x] == Black
    requires forall k :: 0 <= k < |img.sample| ==> img.sample[k] == Black
    ensures Validation(img).Ok() && Validation(img).warnings == []
  {
    UniformColorCount(img, Black);
    ValidationMeaning(img);
  }

  /** Report `b` extends report `a`: errors and warnings only grow at the end,
      and a report that no longer passes never passes again. */
  predicate Extends(b: Report, a: Report) {
    && |a.errors| <= |b.errors| && b.errors[..|a.errors|] == a.errors
    && |a.warnings| <= |b.warnings| && b.warnings[..|a.warnings|] == a.warnings
    && (b.passed ==> a.passed)
  }

  /** No check sets `passed` back to true, and each only appends. */
  lemma ChecksOnlyAppend(r: Report, img: Image)
    ensures Extends(AfterSizeCheck(r, img), r)
    ensures Extends(AfterColorCheck(r, img), r)
    ensures Covers(img, Corners) ==> Extends(AfterCornerCheck(r, img), r)
  {
  }

  /** `ok` depends on `passed` and `errors` only, never on the warnings. */
  lemma OkIgnoresWarnings(r: Report, warnings: seq<Message>)
    ensures r.(warnings := warnings).Ok() == r.Ok()
  {
  }
}
