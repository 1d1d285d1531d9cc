/**
 * The fixed texts of the prompt compiler (the constraints preamble, the three
 * variant style guides, the abbreviated rules of an edit prompt and the
 * strengthened suffix) and the proof that none of them holds a banned word.
 *
 * Each text is written as a list of pieces joined by `Concat`, so that every
 * piece can be checked on its own: a piece without 'p' or 'P' cannot hold
 * "petal", nor can a piece shorter than the word, and neighbouring pieces
 * meet where no occurrence can cross from one into the next.
 */
module PromptTexts {
  import opened Caseless

  const Petal := "petal"
  const Petals := "petals"

  /** The letters of "petal" after its first. */
  const PetalTail := "etal"

  // ---------------------------------------------------------------------------
  // Clean text: free of "petal" and ending on a character no banned word uses
  // ---------------------------------------------------------------------------

  predicate Clean(c: string) {
    c != [] && !Contains(c, Petal) && Barrier(c[|c| - 1], Petals)
  }

  function Concat(pieces: seq<string>): string {
    if pieces == [] then [] else pieces[0] + Concat(pieces[1..])
  }

  /** A piece free of "petal" by inspection: it has no 'p' in either case, or
      it is shorter than the word. */
  predicate PieceOK(c: string) {
    c != [] && (('p' !in c && 'P' !in c) || |c| < |Petal|)
  }

  /** A 'p' followed by a character that can neither continue "petal" nor
      start it again. */
  predicate BlockedP(a: string) {
    |a| == 2 && (a[0] == 'p' || a[0] == 'P') && !CharMatches(a[1], 'e') && !CharMatches(a[1], 'p')
  }

  /** No occurrence of "petal" can start in piece `a` and end in a text that
      starts like `b`. */
  predicate JoinOK(a: string, b: string) {
    a != [] && b != [] && (Barrier(a[|a| - 1], Petal) || Barrier(b[0], PetalTail) || BlockedP(a))
  }

  predicate AllPiecesOK(pieces: seq<string>) {
    && (forall j :: 0 <= j < |pieces| ==> PieceOK(pieces[j]))
    && (forall j :: 0 <= j < |pieces| - 1 ==> JoinOK(pieces[j], pieces[j + 1]))
  }

  /** The last piece ends on a character no banned word uses. */
  predicate EndsClean(pieces: seq<string>) {
    && pieces != [] && pieces[|pieces| - 1] != []
    && Barrier(pieces[|pieces| - 1][|pieces[|pieces| - 1]| - 1], Petals)
  }

  lemma PieceFree(c: string)
    requires PieceOK(c)
    ensures !Contains(c, Petal)
  {
    if 'p' !in c && 'P' !in c {
      assert Petal[0] == 'p';
      forall i | 0 <= i && i + |Petal| <= |c| ensures !MatchAt(c, i, Petal) {
        assert c[i + 0] in c;
        assert !CharMatches(c[i + 0], Petal[0]);
      }
    }
  }

  lemma PieceClean(c: string)
    requires PieceOK(c) && Barrier(c[|c| - 1], Petals)
    ensures Clean(c)
  {
    PieceFree(c);
  }

  /** Two texts free of "petal", joined where no occurrence can cross, are
      still free of it. */
  lemma JoinClean(a: string, b: string)
    requires !Contains(a, Petal) && !Contains(b, Petal) && JoinOK(a, b)
    ensures !Contains(a + b, Petal)
  {
    if Barrier(a[|a| - 1], Petal) {
      ContainsConcat(a, b, Petal);
    } else {
      forall i | 0 <= i && i + |Petal| <= |a + b| ensures !MatchAt(a + b, i, Petal) {
        if i + |Petal| <= |a| {
          assert !MatchAt(a, i, Petal);
          MatchSameWindow(a + b, i, a, i, Petal);
        } else if i >= |a| {
          assert !MatchAt(b, i - |a|, Petal);
          MatchSameWindow(a + b, i, b, i - |a|, Petal);
        } else if Barrier(b[0], PetalTail) {
          var k := |a| - i;
          assert PetalTail[k - 1] == Petal[k];
          assert !CharMatches((a + b)[i + k], Petal[k]);
        } else if i == 0 {
          assert !CharMatches((a + b)[i + 1], Petal[1]);
        } else {
          assert !CharMatches((a + b)[i + 0], Petal[0]);
        }
      }
    }
  }

  /** Two clean texts joined are clean. */
  lemma CleanJoin(a: string, b: string)
    requires Clean(a) && Clean(b)
    ensures Clean(a + b)
  {
    BarrierShorter(a[|a| - 1]);
    ContainsConcat(a, b, Petal);
    assert (a + b)[|a + b| - 1] == b[|b| - 1];
  }

  lemma BarrierShorter(c: char)
    requires Barrier(c, Petals)
    ensures Barrier(c, Petal)
  {
    forall k | 0 <= k < |Petal| ensures !CharMatches(c, Petal[k]) {
      assert Petal[k] == Petals[k];
    }
  }

  lemma {:induction false} ConcatClean(pieces: seq<string>)
    requires AllPiecesOK(pieces) && EndsClean(pieces)
    ensures Clean(Concat(pieces))
    decreases |pieces|
  {
    var first := pieces[0];
    assert PieceOK(first);
    PieceFree(first);
    if |pieces| == 1 {
      assert Concat(pieces) == first + [];
      assert first + [] == first;
    } else {
      var rest := pieces[1..];
      assert forall j :: 0 <= j < |rest| ==> rest[j] == pieces[j + 1];
      assert AllPiecesOK(rest);
      ConcatClean(rest);
      var tail := Concat(rest);
      assert tail == rest[0] + Concat(rest[1..]);
      assert JoinOK(first, pieces[1]);
      assert tail[0] == pieces[1][0];
      JoinClean(first, tail);
      assert Concat(pieces) == first + tail;
      assert (first + tail)[|first + tail| - 1] == tail[|tail| - 1];
    }
  }

  /** Two lists of pieces joined after a clean ending keep every piece and
      every meeting point checked. */
  lemma AllPiecesAppend(a: seq<string>, b: seq<string>)
    requires AllPiecesOK(a) && AllPiecesOK(b) && EndsClean(a)
    ensures AllPiecesOK(a + b)
    ensures EndsClean(b) ==> EndsClean(a + b)
  {
    var last := a[|a| - 1];
    BarrierShorter(last[|last| - 1]);
    forall j | 0 <= j < |a + b| ensures PieceOK((a + b)[j]) {
      if j < |a| {
        assert (a + b)[j] == a[j];
      } else {
        assert (a + b)[j] == b[j - |a|];
      }
    }
    forall j | 0 <= j < |a + b| - 1 ensures JoinOK((a + b)[j], (a + b)[j + 1]) {
      if j < |a| - 1 {
        assert (a + b)[j] == a[j] && (a + b)[j + 1] == a[j + 1];
      } else if j == |a| - 1 {
        assert (a + b)[j] == last && (a + b)[j + 1] == b[0];
        assert PieceOK(b[0]);
      } else {
        assert (a + b)[j] == b[j - |a|] && (a + b)[j + 1] == b[j + 1 - |a|];
      }
    }
    if EndsClean(b) {
      assert (a + b)[|a + b| - 1] == b[|b| - 1];
    }
  }

  // ---------------------------------------------------------------------------
  // The texts
  // ---------------------------------------------------------------------------

  /** CONSTRAINTS_PREAMBLE: the nine lines every generation prompt starts with. */
  const ConstraintsPreamble: string :=
    Concat(IntroLine + BlankLine + BackgroundLine + ShapeLine + ColorLine + GeometryLine
           + CompositionLine + CornersLine + StyleLine)

  /** VARIANT_GUIDES, used in turn by successive variants. */
  const VariantGuides: seq<string> := [Concat(Guide0), Concat(Guide1), Concat(Guide2)]

  /** The abbreviated rules every edit prompt starts with. */
  const AbbreviatedRules: string :=
    Concat(Abbreviated0 + Abbreviated1 + Abbreviated2 + Abbreviated3)

  /** The text `strengthened_suffix` returns. */
  const Reminder: string := Concat(Reminder0 + Reminder1 + Reminder2 + Reminder3)

  lemma PreambleClean()
    ensures Clean(ConstraintsPreamble)
  {
    IntroLineClean();
    BlankLineClean();
    BackgroundLineClean();
    ShapeLineClean();
    ColorLineClean();
    GeometryLineClean();
    CompositionLineClean();
    CornersLineClean();
    StyleLineClean();
    var lines := IntroLine;
    AllPiecesAppend(lines, BlankLine);
    lines := lines + BlankLine;
    AllPiecesAppend(lines, BackgroundLine);
    lines := lines + BackgroundLine;
    AllPiecesAppend(lines, ShapeLine);
    lines := lines + ShapeLine;
    AllPiecesAppend(lines, ColorLine);
    lines := lines + ColorLine;
    AllPiecesAppend(lines, GeometryLine);
    lines := lines + GeometryLine;
    AllPiecesAppend(lines, CompositionLine);
    lines := lines + CompositionLine;
    AllPiecesAppend(lines, CornersLine);
    lines := lines + CornersLine;
    AllPiecesAppend(lines, StyleLine);
    lines := lines + StyleLine;
    ConcatClean(lines);
  }

  lemma GuidesClean()
    ensures forall g :: 0 <= g < |VariantGuides| ==> Clean(VariantGuides[g])
  {
    forall g | 0 <= g < |VariantGuides|
      ensures Clean(VariantGuides[g])
    {
      GuideWhole(g);
    }
  }

  lemma GuideWhole(g: nat)
    requires g < |VariantGuides|
    ensures Clean(VariantGuides[g])
  {
    if g == 0 {
      Guide0Whole();
    } else if g == 1 {
      Guide1Whole();
    } else {
      Guide2Whole();
    }
  }

  lemma Guide0Whole()
    ensures Clean(Concat(Guide0))
  {
    Guide0Clean();
    ConcatClean(Guide0);
  }

  lemma Guide1Whole()
    ensures Clean(Concat(Guide1))
  {
    Guide1Clean();
    ConcatClean(Guide1);
  }

  lemma Guide2Whole()
    ensures Clean(Concat(Guide2))
  {
    Guide2Clean();
    ConcatClean(Guide2);
  }

  lemma AbbreviatedRulesClean()
    ensures Clean(AbbreviatedRules)
  {
    Abbreviated0Clean();
    Abbreviated1Clean();
    Abbreviated2Clean();
    Abbreviated3Clean();
    AllPiecesAppend(Abbreviated0, Abbreviated1);
    AllPiecesAppend(Abbreviated0 + Abbreviated1, Abbreviated2);
    AllPiecesAppend(Abbreviated0 + Abbreviated1 + Abbreviated2, Abbreviated3);
    ConcatClean(Abbreviated0 + Abbreviated1 + Abbreviated2 + Abbreviated3);
  }

  lemma ReminderClean()
    ensures Clean(Reminder)
    ensures Reminder[0] == '\n'
  {
    Reminder0Clean();
    Reminder1Clean();
    Reminder2Clean();
    Reminder3Clean();
    var pieces := Reminder0 + Reminder1 + Reminder2 + Reminder3;
    AllPiecesAppend(Reminder0, Reminder1);
    AllPiecesAppend(Reminder0 + Reminder1, Reminder2);
    AllPiecesAppend(Reminder0 + Reminder1 + Reminder2, Reminder3);
    ConcatClean(pieces);
    assert pieces[0] == Reminder0[0];
    assert Reminder0[0][0] == '\n';
    assert Concat(pieces) == pieces[0] + Concat(pieces[1..]);
  }

  /** Line 1 of the constraints preamble. */
  const IntroLine: seq<string> :=
    ["Generate a 1024x1024 ", "PNG ", "icon layer with ALL ", "of these rules:\n"]

  /** The empty second line. */
  const BlankLine: seq<string> :=
    ["\n"]

  /** The BACKGROUND rule. */
  const BackgroundLine: seq<string> :=
    ["BACKGROUND: ", "Pure", " ", "black background (RGB ", "0,0,0) filling the ",
     "entire canvas.\n"]

  /** The SHAPE rule. */
  const ShapeLine: seq<string> :=
    ["SHA", "PE: ", "Exactly ONE ", "continuous silhouette ", "sha", "pe ", "— no ", "se", "par",
     "ate ", "piec", "es, ", "no floating elements.\n"]

  /** The COLOR rule. */
  const ColorLine: seq<string> :=
    ["COLOR: The silhouette ", "must be ONE solid ", "flat color — ", "absolutely NO ",
     "gradients, shadows, ", "highlights, glow, ", "outlines, textures, ",
     "or internal details.\n"]

  /** The GEOMETRY rule. */
  const GeometryLine: seq<string> :=
    ["GEOMETRY: Large ", "smooth rounded ", "curves. Avoid thin ", "lines, small details, ",
     "or intricate ", "features.\n"]

  /** The COMPOSITION rule. */
  const CompositionLine: seq<string> :=
    ["COM", "POSI", "TION", ": ", "Centered on the ", "canvas with ", "a", "ppro", "xim",
     "ately ", "60", "px ", "margin on all sides. ", "Bold, geometric, and ",
     "readable at small ", "sizes.\n"]

  /** The CORNERS rule. */
  const CornersLine: seq<string> :=
    ["CORNERS: All four ", "corners of the image ", "MUST be ", "pure", " ",
     "black (RGB 0,0,0).\n"]

  /** The STYLE rule. */
  const StyleLine: seq<string> :=
    ["STYLE: Ultra-minimal ", "flat design. Think of ", "a single-color vinyl ",
     "sticker silhouette.\n"]

  /** Variant style guide 0. */
  const Guide0: seq<string> :=
    ["STYLE GUIDE: Bold, ", "rounded, balanced ", "silhouette. Symmetric ", "and ", "com",
     "pact", "."]

  /** Variant style guide 1. */
  const Guide1: seq<string> :=
    ["STYLE GUIDE: Outer ", "contour suggests a ", "layered or ", "dimensional form, but ",
     "without any interior ", "lines or detail. One ", "solid filled ", "sha", "pe ", "only."]

  /** Variant style guide 2. */
  const Guide2: seq<string> :=
    ["STYLE GUIDE: Thick ", "crescent or arc-based ", "silhouette. ", "Sim", "ple,", " ",
     "readable, with ", "generous curves."]

  /** Source line 0 of the abbreviated rules restated in an edit prompt. */
  const Abbreviated0: seq<string> :=
    ["This is an icon ", "layer. Maintain these ", "rules: "]

  /** Source line 1 of the abbreviated rules restated in an edit prompt. */
  const Abbreviated1: seq<string> :=
    ["pure", " ", "black background (RGB ", "0,0,0), exactly ONE ", "continuous silhouette ",
     "sha", "pe, "]

  /** Source line 2 of the abbreviated rules restated in an edit prompt. */
  const Abbreviated2: seq<string> :=
    ["ONE solid flat color ", "with NO gradients/", "shadows/highlights/", "glow/outlines/",
     "textures/details, "]

  /** Source line 3 of the abbreviated rules restated in an edit prompt. */
  const Abbreviated3: seq<string> :=
    ["large smooth rounded ", "curves, centered with ", "~60", "px ", "margin, all four ",
     "corners ", "pure", " ", "black."]

  /** Source line 0 of the strengthened suffix. */
  const Reminder0: seq<string> :=
    ["\n\nCRITICAL REMINDER: ", "The four corners MUST ", "be ", "pure", " ", "black. "]

  /** Source line 1 of the strengthened suffix. */
  const Reminder1: seq<string> :=
    ["Use ONLY ONE flat ", "color for the ", "silhouette — no ", "gradients, no ", "shading, "]

  /** Source line 2 of the strengthened suffix. */
  const Reminder2: seq<string> :=
    ["no highlights. The ", "background must be ", "com", "pl", "etely ", "black. "]

  /** Source line 3 of the strengthened suffix. */
  const Reminder3: seq<string> :=
    ["Kee", "p ", "the ", "sha", "pe ", "sim", "ple ", "with smooth curves."]

  lemma IntroLinePiece0() ensures PieceOK(IntroLine[0]) && JoinOK(IntroLine[0], IntroLine[1]) {}
  lemma IntroLinePiece1() ensures PieceOK(IntroLine[1]) && JoinOK(IntroLine[1], IntroLine[2]) {}
  lemma IntroLinePiece2() ensures PieceOK(IntroLine[2]) && JoinOK(IntroLine[2], IntroLine[3]) {}
  lemma IntroLinePiece3() ensures PieceOK(IntroLine[3]) && EndsClean(IntroLine) {}
  lemma IntroLineClean()
    ensures AllPiecesOK(IntroLine) && EndsClean(IntroLine)
  {
    IntroLinePiece0(); IntroLinePiece1(); IntroLinePiece2(); IntroLinePiece3();
  }

  lemma BlankLinePiece0() ensures PieceOK(BlankLine[0]) && EndsClean(BlankLine) {}
  lemma BlankLineClean()
    ensures AllPiecesOK(BlankLine) && EndsClean(BlankLine)
  {
    BlankLinePiece0();
  }

  lemma BackgroundLinePiece0() ensures PieceOK(BackgroundLine[0]) && JoinOK(BackgroundLine[0], BackgroundLine[1]) {}
  lemma BackgroundLinePiece1() ensures PieceOK(BackgroundLine[1]) && JoinOK(BackgroundLine[1], BackgroundLine[2]) {}
  lemma BackgroundLinePiece2() ensures PieceOK(BackgroundLine[2]) && JoinOK(BackgroundLine[2], BackgroundLine[3]) {}
  lemma BackgroundLinePiece3() ensures PieceOK(BackgroundLine[3]) && JoinOK(BackgroundLine[3], BackgroundLine[4]) {}
  lemma BackgroundLinePiece4() ensures PieceOK(BackgroundLine[4]) && JoinOK(BackgroundLine[4], BackgroundLine[5]) {}
  lemma BackgroundLinePiece5() ensures PieceOK(BackgroundLine[5]) && EndsClean(BackgroundLine) {}
  lemma BackgroundLineClean()
    ensures AllPiecesOK(BackgroundLine) && EndsClean(BackgroundLine)
  {
    BackgroundLinePiece0(); BackgroundLinePiece1(); BackgroundLinePiece2(); BackgroundLinePiece3();
    BackgroundLinePiece4(); BackgroundLinePiece5();
  }

  lemma ShapeLinePiece0() ensures PieceOK(ShapeLine[0]) && JoinOK(ShapeLine[0], ShapeLine[1]) {}
  lemma ShapeLinePiece1() ensures PieceOK(ShapeLine[1]) && JoinOK(ShapeLine[1], ShapeLine[2]) {}
  lemma ShapeLinePiece2() ensures PieceOK(ShapeLine[2]) && JoinOK(ShapeLine[2], ShapeLine[3]) {}
  lemma ShapeLinePiece3() ensures PieceOK(ShapeLine[3]) && JoinOK(ShapeLine[3], ShapeLine[4]) {}
  lemma ShapeLinePiece4() ensures PieceOK(ShapeLine[4]) && JoinOK(ShapeLine[4], ShapeLine[5]) {}
  lemma ShapeLinePiece5() ensures PieceOK(ShapeLine[5]) && JoinOK(ShapeLine[5], ShapeLine[6]) {}
  lemma ShapeLinePiece6() ensures PieceOK(ShapeLine[6]) && JoinOK(ShapeLine[6], ShapeLine[7]) {}
  lemma ShapeLinePiece7() ensures PieceOK(ShapeLine[7]) && JoinOK(ShapeLine[7], ShapeLine[8]) {}
  lemma ShapeLinePiece8() ensures PieceOK(ShapeLine[8]) && JoinOK(ShapeLine[8], ShapeLine[9]) {}
  lemma ShapeLinePiece9() ensures PieceOK(ShapeLine[9]) && JoinOK(ShapeLine[9], ShapeLine[10]) {}
  lemma ShapeLinePiece10() ensures PieceOK(ShapeLine[10]) && JoinOK(ShapeLine[10], ShapeLine[11]) {}
  lemma ShapeLinePiece11() ensures PieceOK(ShapeLine[11]) && JoinOK(ShapeLine[11], ShapeLine[12]) {}
  lemma ShapeLinePiece12() ensures PieceOK(ShapeLine[12]) && EndsClean(ShapeLine) {}
  lemma ShapeLineClean()
    ensures AllPiecesOK(ShapeLine) && EndsClean(ShapeLine)
  {
    ShapeLinePiece0(); ShapeLinePiece1(); ShapeLinePiece2(); ShapeLinePiece3(); ShapeLinePiece4();
    ShapeLinePiece5(); ShapeLinePiece6(); ShapeLinePiece7(); ShapeLinePiece8(); ShapeLinePiece9();
    ShapeLinePiece10(); ShapeLinePiece11(); ShapeLinePiece12();
  }

  lemma ColorLinePiece0() ensures PieceOK(ColorLine[0]) && JoinOK(ColorLine[0], ColorLine[1]) {}
  lemma ColorLinePiece1() ensures PieceOK(ColorLine[1]) && JoinOK(ColorLine[1], ColorLine[2]) {}
  lemma ColorLinePiece2() ensures PieceOK(ColorLine[2]) && JoinOK(ColorLine[2], ColorLine[3]) {}
  lemma ColorLinePiece3() ensures PieceOK(ColorLine[3]) && JoinOK(ColorLine[3], ColorLine[4]) {}
  lemma ColorLinePiece4() ensures PieceOK(ColorLine[4]) && JoinOK(ColorLine[4], ColorLine[5]) {}
  lemma ColorLinePiece5() ensures PieceOK(ColorLine[5]) && JoinOK(ColorLine[5], ColorLine[6]) {}
  lemma ColorLinePiece6() ensures PieceOK(ColorLine[6]) && JoinOK(ColorLine[6], ColorLine[7]) {}
  lemma ColorLinePiece7() ensures PieceOK(ColorLine[7]) && EndsClean(ColorLine) {}
  lemma ColorLineClean()
    ensures AllPiecesOK(ColorLine) && EndsClean(ColorLine)
  {
    ColorLinePiece0(); ColorLinePiece1(); ColorLinePiece2(); ColorLinePiece3(); ColorLinePiece4();
    ColorLinePiece5(); ColorLinePiece6(); ColorLinePiece7();
  }

  lemma GeometryLinePiece0() ensures PieceOK(GeometryLine[0]) && JoinOK(GeometryLine[0], GeometryLine[1]) {}
  lemma GeometryLinePiece1() ensures PieceOK(GeometryLine[1]) && JoinOK(GeometryLine[1], GeometryLine[2]) {}
  lemma GeometryLinePiece2() ensures PieceOK(GeometryLine[2]) && JoinOK(GeometryLine[2], GeometryLine[3]) {}
  lemma GeometryLinePiece3() ensures PieceOK(GeometryLine[3]) && JoinOK(GeometryLine[3], GeometryLine[4]) {}
  lemma GeometryLinePiece4() ensures PieceOK(GeometryLine[4]) && JoinOK(GeometryLine[4], GeometryLine[5]) {}
  lemma GeometryLinePiece5() ensures PieceOK(GeometryLine[5]) && EndsClean(GeometryLine) {}
  lemma GeometryLineClean()
    ensures AllPiecesOK(GeometryLine) && EndsClean(GeometryLine)
  {
    GeometryLinePiece0(); GeometryLinePiece1(); GeometryLinePiece2(); GeometryLinePiece3();
    GeometryLinePiece4(); GeometryLinePiece5();
  }

  lemma CompositionLinePiece0() ensures PieceOK(CompositionLine[0]) && JoinOK(CompositionLine[0], CompositionLine[1]) {}
  lemma CompositionLinePiece1() ensures PieceOK(CompositionLine[1]) && JoinOK(CompositionLine[1], CompositionLine[2]) {}
  lemma CompositionLinePiece2() ensures PieceOK(CompositionLine[2]) && JoinOK(CompositionLine[2], CompositionLine[3]) {}
  lemma CompositionLinePiece3() ensures PieceOK(CompositionLine[3]) && JoinOK(CompositionLine[3], CompositionLine[4]) {}
  lemma CompositionLinePiece4() ensures PieceOK(CompositionLine[4]) && JoinOK(CompositionLine[4], CompositionLine[5]) {}
  lemma CompositionLinePiece5() ensures PieceOK(CompositionLine[5]) && JoinOK(CompositionLine[5], CompositionLine[6]) {}
  lemma CompositionLinePiece6() ensures PieceOK(CompositionLine[6]) && JoinOK(CompositionLine[6], CompositionLine[7]) {}
  lemma CompositionLinePiece7() ensures PieceOK(CompositionLine[7]) && JoinOK(CompositionLine[7], CompositionLine[8]) {}
  lemma CompositionLinePiece8() ensures PieceOK(CompositionLine[8]) && JoinOK(CompositionLine[8], CompositionLine[9]) {}
  lemma CompositionLinePiece9() ensures PieceOK(CompositionLine[9]) && JoinOK(CompositionLine[9], CompositionLine[10]) {}
  lemma CompositionLinePiece10() ensures PieceOK(CompositionLine[10]) && JoinOK(CompositionLine[10], CompositionLine[11]) {}
  lemma CompositionLinePiece11() ensures PieceOK(CompositionLine[11]) && JoinOK(CompositionLine[11], CompositionLine[12]) {}
  lemma CompositionLinePiece12() ensures PieceOK(CompositionLine[12]) && JoinOK(CompositionLine[12], CompositionLine[13]) {}
  lemma CompositionLinePiece13() ensures PieceOK(CompositionLine[13]) && JoinOK(CompositionLine[13], CompositionLine[14]) {}
  lemma CompositionLinePiece14() ensures PieceOK(CompositionLine[14]) && JoinOK(CompositionLine[14], CompositionLine[15]) {}
  lemma CompositionLinePiece15() ensures PieceOK(CompositionLine[15]) && EndsClean(CompositionLine) {}
  lemma CompositionLineClean()
    ensures AllPiecesOK(CompositionLine) && EndsClean(CompositionLine)
  {
    CompositionLinePiece0(); CompositionLinePiece1(); CompositionLinePiece2();
    CompositionLinePiece3(); CompositionLinePiece4(); CompositionLinePiece5();
    CompositionLinePiece6(); CompositionLinePiece7(); CompositionLinePiece8();
    CompositionLinePiece9(); CompositionLinePiece10(); CompositionLinePiece11();
    CompositionLinePiece12(); CompositionLinePiece13(); CompositionLinePiece14();
    CompositionLinePiece15();
  }

  lemma CornersLinePiece0() ensures PieceOK(CornersLine[0]) && JoinOK(CornersLine[0], CornersLine[1]) {}
  lemma CornersLinePiece1() ensures PieceOK(CornersLine[1]) && JoinOK(CornersLine[1], CornersLine[2]) {}
  lemma CornersLinePiece2() ensures PieceOK(CornersLine[2]) && JoinOK(CornersLine[2], CornersLine[3]) {}
  lemma CornersLinePiece3() ensures PieceOK(CornersLine[3]) && JoinOK(CornersLine[3], CornersLine[4]) {}
  lemma CornersLinePiece4() ensures PieceOK(CornersLine[4]) && JoinOK(CornersLine[4], CornersLine[5]) {}
  lemma CornersLinePiece5() ensures PieceOK(CornersLine[5]) && EndsClean(CornersLine) {}
  lemma CornersLineClean()
    ensures AllPiecesOK(CornersLine) && EndsClean(CornersLine)
  {
    CornersLinePiece0(); CornersLinePiece1(); CornersLinePiece2(); CornersLinePiece3();
    CornersLinePiece4(); CornersLinePiece5();
  }

  lemma StyleLinePiece0() ensures PieceOK(StyleLine[0]) && JoinOK(StyleLine[0], StyleLine[1]) {}
  lemma StyleLinePiece1() ensures PieceOK(StyleLine[1]) && JoinOK(StyleLine[1], StyleLine[2]) {}
  lemma StyleLinePiece2() ensures PieceOK(StyleLine[2]) && JoinOK(StyleLine[2], StyleLine[3]) {}
  lemma StyleLinePiece3() ensures PieceOK(StyleLine[3]) && EndsClean(StyleLine) {}
  lemma StyleLineClean()
    ensures AllPiecesOK(StyleLine) && EndsClean(StyleLine)
  {
    StyleLinePiece0(); StyleLinePiece1(); StyleLinePiece2(); StyleLinePiece3();
  }

  lemma Guide0Piece0() ensures PieceOK(Guide0[0]) && JoinOK(Guide0[0], Guide0[1]) {}
  lemma Guide0Piece1() ensures PieceOK(Guide0[1]) && JoinOK(Guide0[1], Guide0[2]) {}
  lemma Guide0Piece2() ensures PieceOK(Guide0[2]) && JoinOK(Guide0[2], Guide0[3]) {}
  lemma Guide0Piece3() ensures PieceOK(Guide0[3]) && JoinOK(Guide0[3], Guide0[4]) {}
  lemma Guide0Piece4() ensures PieceOK(Guide0[4]) && JoinOK(Guide0[4], Guide0[5]) {}
  lemma Guide0Piece5() ensures PieceOK(Guide0[5]) && JoinOK(Guide0[5], Guide0[6]) {}
  lemma Guide0Piece6() ensures PieceOK(Guide0[6]) && EndsClean(Guide0) {}
  lemma Guide0Clean()
    ensures AllPiecesOK(Guide0) && EndsClean(Guide0)
  {
    Guide0Piece0(); Guide0Piece1(); Guide0Piece2(); Guide0Piece3(); Guide0Piece4(); Guide0Piece5();
    Guide0Piece6();
  }

  lemma Guide1Piece0() ensures PieceOK(Guide1[0]) && JoinOK(Guide1[0], Guide1[1]) {}
  lemma Guide1Piece1() ensures PieceOK(Guide1[1]) && JoinOK(Guide1[1], Guide1[2]) {}
  lemma Guide1Piece2() ensures PieceOK(Guide1[2]) && JoinOK(Guide1[2], Guide1[3]) {}
  lemma Guide1Piece3() ensures PieceOK(Guide1[3]) && JoinOK(Guide1[3], Guide1[4]) {}
  lemma Guide1Piece4() ensures PieceOK(Guide1[4]) && JoinOK(Guide1[4], Guide1[5]) {}
  lemma Guide1Piece5() ensures PieceOK(Guide1[5]) && JoinOK(Guide1[5], Guide1[6]) {}
  lemma Guide1Piece6() ensures PieceOK(Guide1[6]) && JoinOK(Guide1[6], Guide1[7]) {}
  lemma Guide1Piece7() ensures PieceOK(Guide1[7]) && JoinOK(Guide1[7], Guide1[8]) {}
  lemma Guide1Piece8() ensures PieceOK(Guide1[8]) && JoinOK(Guide1[8], Guide1[9]) {}
  lemma Guide1Piece9() ensures PieceOK(Guide1[9]) && EndsClean(Guide1) {}
  lemma Guide1Clean()
    ensures AllPiecesOK(Guide1) && EndsClean(Guide1)
  {
    Guide1Piece0(); Guide1Piece1(); Guide1Piece2(); Guide1Piece3(); Guide1Piece4(); Guide1Piece5();
    Guide1Piece6(); Guide1Piece7(); Guide1Piece8(); Guide1Piece9();
  }

  lemma Guide2Piece0() ensures PieceOK(Guide2[0]) && JoinOK(Guide2[0], Guide2[1]) {}
  lemma Guide2Piece1() ensures PieceOK(Guide2[1]) && JoinOK(Guide2[1], Guide2[2]) {}
  lemma Guide2Piece2() ensures PieceOK(Guide2[2]) && JoinOK(Guide2[2], Guide2[3]) {}
  lemma Guide2Piece3() ensures PieceOK(Guide2[3]) && JoinOK(Guide2[3], Guide2[4]) {}
  lemma Guide2Piece4() ensures PieceOK(Guide2[4]) && JoinOK(Guide2[4], Guide2[5]) {}
  lemma Guide2Piece5() ensures PieceOK(Guide2[5]) && JoinOK(Guide2[5], Guide2[6]) {}
  lemma Guide2Piece6() ensures PieceOK(Guide2[6]) && JoinOK(Guide2[6], Guide2[7]) {}
  lemma Guide2Piece7() ensures PieceOK(Guide2[7]) && EndsClean(Guide2) {}
  lemma Guide2Clean()
    ensures AllPiecesOK(Guide2) && EndsClean(Guide2)
  {
    Guide2Piece0(); Guide2Piece1(); Guide2Piece2(); Guide2Piece3(); Guide2Piece4(); Guide2Piece5();
    Guide2Piece6(); Guide2Piece7();
  }

  lemma Abbreviated0Piece0() ensures PieceOK(Abbreviated0[0]) && JoinOK(Abbreviated0[0], Abbreviated0[1]) {}
  lemma Abbreviated0Piece1() ensures PieceOK(Abbreviated0[1]) && JoinOK(Abbreviated0[1], Abbreviated0[2]) {}
  lemma Abbreviated0Piece2() ensures PieceOK(Abbreviated0[2]) && EndsClean(Abbreviated0) {}
  lemma Abbreviated0Clean()
    ensures AllPiecesOK(Abbreviated0) && EndsClean(Abbreviated0)
  {
    Abbreviated0Piece0(); Abbreviated0Piece1(); Abbreviated0Piece2();
  }

  lemma Abbreviated1Piece0() ensures PieceOK(Abbreviated1[0]) && JoinOK(Abbreviated1[0], Abbreviated1[1]) {}
  lemma Abbreviated1Piece1() ensures PieceOK(Abbreviated1[1]) && JoinOK(Abbreviated1[1], Abbreviated1[2]) {}
  lemma Abbreviated1Piece2() ensures PieceOK(Abbreviated1[2]) && JoinOK(Abbreviated1[2], Abbreviated1[3]) {}
  lemma Abbreviated1Piece3() ensures PieceOK(Abbreviated1[3]) && JoinOK(Abbreviated1[3], Abbreviated1[4]) {}
  lemma Abbreviated1Piece4() ensures PieceOK(Abbreviated1[4]) && JoinOK(Abbreviated1[4], Abbreviated1[5]) {}
  lemma Abbreviated1Piece5() ensures PieceOK(Abbreviated1[5]) && JoinOK(Abbreviated1[5], Abbreviated1[6]) {}
  lemma Abbreviated1Piece6() ensures PieceOK(Abbreviated1[6]) && EndsClean(Abbreviated1) {}
  lemma Abbreviated1Clean()
    ensures AllPiecesOK(Abbreviated1) && EndsClean(Abbreviated1)
  {
    Abbreviated1Piece0(); Abbreviated1Piece1(); Abbreviated1Piece2(); Abbreviated1Piece3();
    Abbreviated1Piece4(); Abbreviated1Piece5(); Abbreviated1Piece6();
  }

  lemma Abbreviated2Piece0() ensures PieceOK(Abbreviated2[0]) && JoinOK(Abbreviated2[0], Abbreviated2[1]) {}
  lemma Abbreviated2Piece1() ensures PieceOK(Abbreviated2[1]) && JoinOK(Abbreviated2[1], Abbreviated2[2]) {}
  lemma Abbreviated2Piece2() ensures PieceOK(Abbreviated2[2]) && JoinOK(Abbreviated2[2], Abbreviated2[3]) {}
  lemma Abbreviated2Piece3() ensures PieceOK(Abbreviated2[3]) && JoinOK(Abbreviated2[3], Abbreviated2[4]) {}
  lemma Abbreviated2Piece4() ensures PieceOK(Abbreviated2[4]) && EndsClean(Abbreviated2) {}
  lemma Abbreviated2Clean()
    ensures AllPiecesOK(Abbreviated2) && EndsClean(Abbreviated2)
  {
    Abbreviated2Piece0(); Abbreviated2Piece1(); Abbreviated2Piece2(); Abbreviated2Piece3();
    Abbreviated2Piece4();
  }

  lemma Abbreviated3Piece0() ensures PieceOK(Abbreviated3[0]) && JoinOK(Abbreviated3[0], Abbreviated3[1]) {}
  lemma Abbreviated3Piece1() ensures PieceOK(Abbreviated3[1]) && JoinOK(Abbreviated3[1], Abbreviated3[2]) {}
  lemma Abbreviated3Piece2() ensures PieceOK(Abbreviated3[2]) && JoinOK(Abbreviated3[2], Abbreviated3[3]) {}
  lemma Abbreviated3Piece3() ensures PieceOK(Abbreviated3[3]) && JoinOK(Abbreviated3[3], Abbreviated3[4]) {}
  lemma Abbreviated3Piece4() ensures PieceOK(Abbreviated3[4]) && JoinOK(Abbreviated3[4], Abbreviated3[5]) {}
  lemma Abbreviated3Piece5() ensures PieceOK(Abbreviated3[5]) && JoinOK(Abbreviated3[5], Abbreviated3[6]) {}
  lemma Abbreviated3Piece6() ensures PieceOK(Abbreviated3[6]) && JoinOK(Abbreviated3[6], Abbreviated3[7]) {}
  lemma Abbreviated3Piece7() ensures PieceOK(Abbreviated3[7]) && JoinOK(Abbreviated3[7], Abbreviated3[8]) {}
  lemma Abbreviated3Piece8() ensures PieceOK(Abbreviated3[8]) && EndsClean(Abbreviated3) {}
  lemma Abbreviated3Clean()
    ensures AllPiecesOK(Abbreviated3) && EndsClean(Abbreviated3)
  {
    Abbreviated3Piece0(); Abbreviated3Piece1(); Abbreviated3Piece2(); Abbreviated3Piece3();
    Abbreviated3Piece4(); Abbreviated3Piece5(); Abbreviated3Piece6(); Abbreviated3Piece7();
    Abbreviated3Piece8();
  }

  lemma Reminder0Piece0() ensures PieceOK(Reminder0[0]) && JoinOK(Reminder0[0], Reminder0[1]) {}
  lemma Reminder0Piece1() ensures PieceOK(Reminder0[1]) && JoinOK(Reminder0[1], Reminder0[2]) {}
  lemma Reminder0Piece2() ensures PieceOK(Reminder0[2]) && JoinOK(Reminder0[2], Reminder0[3]) {}
  lemma Reminder0Piece3() ensures PieceOK(Reminder0[3]) && JoinOK(Reminder0[3], Reminder0[4]) {}
  lemma Reminder0Piece4() ensures PieceOK(Reminder0[4]) && JoinOK(Reminder0[4], Reminder0[5]) {}
  lemma Reminder0Piece5() ensures PieceOK(Reminder0[5]) && EndsClean(Reminder0) {}
  lemma Reminder0Clean()
    ensures AllPiecesOK(Reminder0) && EndsClean(Reminder0)
  {
    Reminder0Piece0(); Reminder0Piece1(); Reminder0Piece2(); Reminder0Piece3(); Reminder0Piece4();
    Reminder0Piece5();
  }

  lemma Reminder1Piece0() ensures PieceOK(Reminder1[0]) && JoinOK(Reminder1[0], Reminder1[1]) {}
  lemma Reminder1Piece1() ensures PieceOK(Reminder1[1]) && JoinOK(Reminder1[1], Reminder1[2]) {}
  lemma Reminder1Piece2() ensures PieceOK(Reminder1[2]) && JoinOK(Reminder1[2], Reminder1[3]) {}
  lemma Reminder1Piece3() ensures PieceOK(Reminder1[3]) && JoinOK(Reminder1[3], Reminder1[4]) {}
  lemma Reminder1Piece4() ensures PieceOK(Reminder1[4]) && EndsClean(Reminder1) {}
  lemma Reminder1Clean()
    ensures AllPiecesOK(Reminder1) && EndsClean(Reminder1)
  {
    Reminder1Piece0(); Reminder1Piece1(); Reminder1Piece2(); Reminder1Piece3(); Reminder1Piece4();
  }

  lemma Reminder2Piece0() ensures PieceOK(Reminder2[0]) && JoinOK(Reminder2[0], Reminder2[1]) {}
  lemma Reminder2Piece1() ensures PieceOK(Reminder2[1]) && JoinOK(Reminder2[1], Reminder2[2]) {}
  lemma Reminder2Piece2() ensures PieceOK(Reminder2[2]) && JoinOK(Reminder2[2], Reminder2[3]) {}
  lemma Reminder2Piece3() ensures PieceOK(Reminder2[3]) && JoinOK(Reminder2[3], Reminder2[4]) {}
  lemma Reminder2Piece4() ensures PieceOK(Reminder2[4]) && JoinOK(Reminder2[4], Reminder2[5]) {}
  lemma Reminder2Piece5() ensures PieceOK(Reminder2[5]) && EndsClean(Reminder2) {}
  lemma Reminder2Clean()
    ensures AllPiecesOK(Reminder2) && EndsClean(Reminder2)
  {
    Reminder2Piece0(); Reminder2Piece1(); Reminder2Piece2(); Reminder2Piece3(); Reminder2Piece4();
    Reminder2Piece5();
  }

  lemma Reminder3Piece0() ensures PieceOK(Reminder3[0]) && JoinOK(Reminder3[0], Reminder3[1]) {}
  lemma Reminder3Piece1() ensures PieceOK(Reminder3[1]) && JoinOK(Reminder3[1], Reminder3[2]) {}
  lemma Reminder3Piece2() ensures PieceOK(Reminder3[2]) && JoinOK(Reminder3[2], Reminder3[3]) {}
  lemma Reminder3Piece3() ensures PieceOK(Reminder3[3]) && JoinOK(Reminder3[3], Reminder3[4]) {}
  lemma Reminder3Piece4() ensures PieceOK(Reminder3[4]) && JoinOK(Reminder3[4], Reminder3[5]) {}
  lemma Reminder3Piece5() ensures PieceOK(Reminder3[5]) && JoinOK(Reminder3[5], Reminder3[6]) {}
  lemma Reminder3Piece6() ensures PieceOK(Reminder3[6]) && JoinOK(Reminder3[6], Reminder3[7]) {}
  lemma Reminder3Piece7() ensures PieceOK(Reminder3[7]) && EndsClean(Reminder3) {}
  lemma Reminder3Clean()
    ensures AllPiecesOK(Reminder3) && EndsClean(Reminder3)
  {
    Reminder3Piece0(); Reminder3Piece1(); Reminder3Piece2(); Reminder3Piece3(); Reminder3Piece4();
    Reminder3Piece5(); Reminder3Piece6(); Reminder3Piece7();
  }
}
