/**
  When glyphs only shrink with the font size, a text that fits at one size fits at every
  smaller one, so the scan is as good as a search over all sizes, down to its last step.
 */
module TextScaling {
  import opened Prelude
  import opened TextWrap
  import opened TextWrapResults
  import opened TextWrapMinimal
  import opened TextLayout
  import opened TextLayoutResults

  // ----- assumptions on the typeface

  /** No measure of a text grows when the size shrinks. */
  ghost predicate Shrinks(face: Face) {
    forall t: Text, f: real, g: real {:trigger face.measure(t, f), face.measure(t, g)} :: 0.0 < f <= g ==>
      && face.measure(t, f).width <= face.measure(t, g).width
      && face.measure(t, f).ascent <= face.measure(t, g).ascent
      && face.measure(t, f).descent <= face.measure(t, g).descent
  }

  /** A line rises and falls as far as the highest and lowest of its words. */
  ghost predicate LineSpansWords(face: Face, ws: seq<Text>) {
    forall a: nat, b: nat, f: real {:trigger face.measure(Line(ws, a, b), f)} :: a < b <= |ws| && 0.0 < f ==>
      && (exists i :: a <= i < b && face.measure(Line(ws, a, b), f).ascent == face.measure(ws[i], f).ascent)
      && (exists i :: a <= i < b && face.measure(Line(ws, a, b), f).descent == face.measure(ws[i], f).descent)
      && (forall i :: a <= i < b ==>
            && face.measure(ws[i], f).ascent <= face.measure(Line(ws, a, b), f).ascent
            && face.measure(ws[i], f).descent <= face.measure(Line(ws, a, b), f).descent)
  }

  /** The paragraphs of the text under a size: every word fits a line, and lines grow with their words. */
  ghost predicate Regular(o: Options, size: real) {
    && 0.0 < size
    && Shrinks(o.face)
    && forall p :: p in Paragraphs(o.text) ==>
         && AllFit(o.At(size), Words(p))
         && LineSpansWords(o.face, Words(p))
         && forall f: real :: 0.0 < f <= size ==> Grows(o.At(f), Words(p))
  }

  lemma WidthShrinks(o: Options, t: Text, f: real, g: real)
    requires Shrinks(o.face) && 0.0 < f <= g
    ensures o.At(f).Width(t) <= o.At(g).Width(t)
  {
    var _ := o.face.measure(t, f);
    var _ := o.face.measure(t, g);
  }

  lemma AllFitShrinks(o: Options, ws: seq<Text>, f: real, g: real)
    requires Shrinks(o.face) && 0.0 < f <= g && AllFit(o.At(g), ws)
    ensures AllFit(o.At(f), ws)
  {
    forall i | 0 <= i < |ws|
      ensures o.At(f).Fits(ws[i])
    {
      WidthShrinks(o, ws[i], f, g);
    }
  }

  lemma RegularShrinks(o: Options, f: real, g: real)
    requires Regular(o, g) && 0.0 < f <= g
    ensures Regular(o, f)
  {
    forall p | p in Paragraphs(o.text)
      ensures AllFit(o.At(f), Words(p))
    {
      AllFitShrinks(o, Words(p), f, g);
    }
  }

  // ----- no more lines

  lemma {:induction false} BreaksShrink(o: Options, ws: seq<Text>, from: nat, ends: seq<nat>, f: real, g: real)
    requires Shrinks(o.face) && 0.0 < f <= g && Breaks(o.At(g), ws, from, ends)
    ensures Breaks(o.At(f), ws, from, ends)
    decreases |ends|
  {
    if ends != [] {
      WidthShrinks(o, Line(ws, from, ends[0]), f, g);
      BreaksShrink(o, ws, ends[0], ends[1..], f, g);
    }
  }

  lemma ParagraphShrinks(o: Options, p: Text, f: real, g: real)
    requires Regular(o, g) && 0.0 < f <= g && p in Paragraphs(o.text)
    ensures |WrapParagraph(o.At(f), p)| <= |WrapParagraph(o.At(g), p)|
  {
    var ws := Words(p);
    if ws != [] {
      AllFitShrinks(o, ws, f, g);
      var ends := GreedyEnds(o.At(g), ws, 0);
      WrapIsGreedy(o.At(g), p);
      GreedyBreaks(o.At(g), ws, 0);
      LinesCount(o.At(g), ws, 0, ends);
      BreaksShrink(o, ws, 0, ends, f, g);
      WrapIsMinimal(o.At(f), p, ends);
    }
  }

  lemma {:induction false} WrapShrinks(o: Options, ps: seq<Text>, f: real, g: real)
    requires Regular(o, g) && 0.0 < f <= g && forall i :: 0 <= i < |ps| ==> ps[i] in Paragraphs(o.text)
    ensures |WrapAll(o.At(f), ps)| <= |WrapAll(o.At(g), ps)|
  {
    if ps != [] {
      ParagraphShrinks(o, ps[0], f, g);
      WrapShrinks(o, ps[1..], f, g);
    }
  }

  // ----- no line too wide

  lemma {:induction false} BrokenLinesFit(r: Ruler, ws: seq<Text>, from: nat, ends: seq<nat>)
    requires Breaks(r, ws, from, ends)
    ensures forall i :: 0 <= i < |LinesOf(ws, from, ends)| ==> r.Fits(LinesOf(ws, from, ends)[i])
    decreases |ends|
  {
    if ends != [] {
      BrokenLinesFit(r, ws, ends[0], ends[1..]);
    }
  }

  lemma {:induction false} WrappedLinesFit(o: Options, ps: seq<Text>, f: real)
    requires Regular(o, f) && 0.0 <= o.width && forall i :: 0 <= i < |ps| ==> ps[i] in Paragraphs(o.text)
    ensures forall i :: 0 <= i < |WrapAll(o.At(f), ps)| ==> o.At(f).Fits(WrapAll(o.At(f), ps)[i])
  {
    if ps != [] {
      WrappedLinesFit(o, ps[1..], f);
      if Words(ps[0]) != [] {
        WrapIsGreedy(o.At(f), ps[0]);
        GreedyBreaks(o.At(f), Words(ps[0]), 0);
        BrokenLinesFit(o.At(f), Words(ps[0]), 0, GreedyEnds(o.At(f), Words(ps[0]), 0));
      }
    }
  }

  // ----- no higher

  /** What the lines of the text are made of: words, and an empty line for a blank paragraph. */
  function Atoms(ps: seq<Text>): seq<Text> {
    if ps == [] then []
    else (if Words(ps[0]) == [] then [[]] else Words(ps[0])) + Atoms(ps[1..])
  }

  lemma {:induction false} ExtentAppend(o: Options, xs: seq<Text>, ys: seq<Text>, f: real)
    ensures o.MaxAscent(xs + ys, f) == RealMax(o.MaxAscent(xs, f), o.MaxAscent(ys, f))
    ensures o.MaxDescent(xs + ys, f) == RealMax(o.MaxDescent(xs, f), o.MaxDescent(ys, f))
  {
    if xs == [] {
      assert xs + ys == ys;
    } else {
      assert (xs + ys)[1..] == xs[1..] + ys;
      ExtentAppend(o, xs[1..], ys, f);
    }
  }

  lemma {:induction false} ExtentBounds(o: Options, xs: seq<Text>, f: real)
    ensures forall i :: 0 <= i < |xs| ==>
      o.LineMetrics(xs[i], f).ascent <= o.MaxAscent(xs, f) && o.LineMetrics(xs[i], f).descent <= o.MaxDescent(xs, f)
    ensures o.MaxAscent(xs, f) == 0.0 || exists i :: 0 <= i < |xs| && o.MaxAscent(xs, f) == o.LineMetrics(xs[i], f).ascent
    ensures o.MaxDescent(xs, f) == 0.0 || exists i :: 0 <= i < |xs| && o.MaxDescent(xs, f) == o.LineMetrics(xs[i], f).descent
  {
    if xs != [] {
      ExtentBounds(o, xs[1..], f);
      assert forall i :: 1 <= i < |xs| ==> xs[i] == xs[1..][i - 1];
    }
  }

  lemma {:induction false} ExtentShrinks(o: Options, xs: seq<Text>, f: real, g: real)
    requires Shrinks(o.face) && 0.0 < f <= g
    ensures o.MaxAscent(xs, f) <= o.MaxAscent(xs, g) && o.MaxDescent(xs, f) <= o.MaxDescent(xs, g)
  {
    if xs != [] {
      ExtentShrinks(o, xs[1..], f, g);
      var _, _ := o.LineMetrics(xs[0], f), o.LineMetrics(xs[0], g);
    }
  }

  /** One line reaches exactly as high and as low as its words. */
  lemma LineExtent(o: Options, ws: seq<Text>, a: nat, b: nat, f: real)
    requires Inked(ws) && LineSpansWords(o.face, ws) && a < b <= |ws| && 0.0 < f
    ensures o.MaxAscent([Line(ws, a, b)], f) == o.MaxAscent(ws[a..b], f)
    ensures o.MaxDescent([Line(ws, a, b)], f) == o.MaxDescent(ws[a..b], f)
  {
    LineIsTight(ws, a, b);
    var m := o.face.measure(Line(ws, a, b), f);
    var part := ws[a..b];
    ExtentBounds(o, part, f);
    var i :| a <= i < b && m.ascent == o.face.measure(ws[i], f).ascent;
    assert part[i - a] == ws[i];
    var j :| a <= j < b && m.descent == o.face.measure(ws[j], f).descent;
    assert part[j - a] == ws[j];
    assert forall k :: 0 <= k < |part| ==> part[k] == ws[a + k] && part[k] != [];
    assert o.MaxAscent([Line(ws, a, b)], f) == RealMax(m.ascent, 0.0);
    assert o.MaxDescent([Line(ws, a, b)], f) == RealMax(m.descent, 0.0);
  }

  lemma ExtentOfParts(o: Options, ws: seq<Text>, from: nat, mid: nat, f: real)
    requires from <= mid <= |ws|
    ensures o.MaxAscent(ws[from..], f) == RealMax(o.MaxAscent(ws[from..mid], f), o.MaxAscent(ws[mid..], f))
    ensures o.MaxDescent(ws[from..], f) == RealMax(o.MaxDescent(ws[from..mid], f), o.MaxDescent(ws[mid..], f))
  {
    ExtentAppend(o, ws[from..mid], ws[mid..], f);
    assert ws[from..] == ws[from..mid] + ws[mid..];
  }

  lemma {:induction false} BreaksExtent(o: Options, ws: seq<Text>, from: nat, ends: seq<nat>, f: real)
    requires Inked(ws) && LineSpansWords(o.face, ws) && 0.0 < f && from <= |ws| && Breaks(o.At(f), ws, from, ends)
    ensures o.MaxAscent(LinesOf(ws, from, ends), f) == o.MaxAscent(ws[from..], f)
    ensures o.MaxDescent(LinesOf(ws, from, ends), f) == o.MaxDescent(ws[from..], f)
    decreases |ends|
  {
    if ends == [] {
      assert ws[from..] == [];
    } else {
      var end := ends[0];
      BreaksExtent(o, ws, end, ends[1..], f);
      LineExtent(o, ws, from, end, f);
      ExtentAppend(o, [Line(ws, from, end)], LinesOf(ws, end, ends[1..]), f);
      ExtentOfParts(o, ws, from, end, f);
      assert LinesOf(ws, from, ends) == [Line(ws, from, end)] + LinesOf(ws, end, ends[1..]);
    }
  }

  lemma {:induction false} WrapExtent(o: Options, ps: seq<Text>, f: real)
    requires Regular(o, f) && forall i :: 0 <= i < |ps| ==> ps[i] in Paragraphs(o.text)
    ensures o.MaxAscent(WrapAll(o.At(f), ps), f) == o.MaxAscent(Atoms(ps), f)
    ensures o.MaxDescent(WrapAll(o.At(f), ps), f) == o.MaxDescent(Atoms(ps), f)
  {
    if ps != [] {
      var ws := Words(ps[0]);
      WrapExtent(o, ps[1..], f);
      ExtentAppend(o, WrapParagraph(o.At(f), ps[0]), WrapAll(o.At(f), ps[1..]), f);
      ExtentAppend(o, if ws == [] then [[]] else ws, Atoms(ps[1..]), f);
      if ws != [] {
        WrapIsGreedy(o.At(f), ps[0]);
        GreedyBreaks(o.At(f), ws, 0);
        WordsAreInked(ps[0]);
        BreaksExtent(o, ws, 0, GreedyEnds(o.At(f), ws, 0), f);
        assert ws[0..] == ws;
      }
    }
  }

  // ----- fitting goes downwards

  lemma ProductsGrow(x: real, y: real, f: real, g: real, h: real)
    requires 0.0 <= x <= y && 0.0 < f <= g && 0.0 <= h
    ensures x * f * h <= y * g * h
  {
    assert x * f <= y * f <= y * g;
  }

  lemma LeadingShrinks(o: Options, m: nat, n: nat, f: real, g: real)
    requires m <= n && 0.0 < f <= g && 0.0 <= o.lineHeight
    ensures o.Leading(m, f) <= o.Leading(n, g)
  {
    ProductsGrow(Max(0, m - 1) as real, Max(0, n - 1) as real, f, g, o.lineHeight);
  }

  lemma ExtentsShrink(o: Options, f: real, g: real)
    requires Regular(o, f) && Regular(o, g) && f <= g
    ensures o.MaxAscent(o.LinesAt(f), f) <= o.MaxAscent(o.LinesAt(g), g)
    ensures o.MaxDescent(o.LinesAt(f), f) <= o.MaxDescent(o.LinesAt(g), g)
  {
    var ps := Paragraphs(o.text);
    assert forall i :: 0 <= i < |ps| ==> ps[i] in ps;
    WrapExtent(o, ps, f);
    WrapExtent(o, ps, g);
    ExtentShrinks(o, Atoms(ps), f, g);
  }

  lemma HeightShrinks(o: Options, xs: seq<Text>, ys: seq<Text>, f: real, g: real)
    requires 0.0 < f <= g && 0.0 <= o.lineHeight && |xs| <= |ys|
    requires o.MaxAscent(xs, f) <= o.MaxAscent(ys, g) && o.MaxDescent(xs, f) <= o.MaxDescent(ys, g)
    ensures o.PaintedHeight(xs, f) <= o.PaintedHeight(ys, g)
  {
    LeadingShrinks(o, |xs|, |ys|, f, g);
  }

  lemma NoLineTooWide(o: Options, f: real)
    requires Regular(o, f) && 0.0 <= o.width
    ensures o.Widest(o.LinesAt(f), f) <= o.width
  {
    var ps := Paragraphs(o.text);
    assert forall i :: 0 <= i < |ps| ==> ps[i] in ps;
    WrappedLinesFit(o, ps, f);
  }

  /** Fitting at one size implies fitting at every smaller size. */
  lemma FitsDownward(o: Options, f: real, g: real)
    requires Regular(o, g) && 0.0 < f <= g && 0.0 <= o.lineHeight && o.FitsAt(g)
    ensures o.FitsAt(f)
  {
    var ps := Paragraphs(o.text);
    assert forall i :: 0 <= i < |ps| ==> ps[i] in ps;
    RegularShrinks(o, f, g);
    WrapShrinks(o, ps, f, g);
    NoLineTooWide(o, f);
    ExtentsShrink(o, f, g);
    HeightShrinks(o, o.LinesAt(f), o.LinesAt(g), f, g);
  }

  /** The last step of the scan. */
  predicate LastStep(o: Options, k: nat) {
    OnGrid(o, k) && !OnGrid(o, k + 1)
  }

  lemma OnGridBefore(o: Options, j: nat, k: nat)
    requires j <= k && OnGrid(o, k)
    ensures OnGrid(o, j) && Grid(o, k) <= Grid(o, j)
  {
  }

  /**
    The scan succeeds exactly when the text fits at the last size it tries; and then no size at all,
    on the grid or off it, that is half a pixel larger than the one returned fits.
   */
  lemma ScanIsComplete(o: Options, last: nat)
    requires LastStep(o, last) && 0.0 < Grid(o, last) && 0.0 <= o.lineHeight && Regular(o, o.StartSize())
    ensures o.Scan(o.StartSize()).Some? <==> o.FitsAt(Grid(o, last))
    ensures o.Scan(o.StartSize()).Some? ==>
      var size := o.Scan(o.StartSize()).value;
      && (forall f :: 0.0 < f <= size ==> o.FitsAt(f))
      && (forall f :: size + 0.5 <= f <= o.StartSize() ==> !o.FitsAt(f))
  {
    ScanIsLargest(o);
    if o.Scan(o.StartSize()).Some? {
      var size := o.Scan(o.StartSize()).value;
      var j: nat :| OnGrid(o, j) && size == Grid(o, j) && o.FitsAt(size) && forall i: nat :: i < j ==> !o.FitsAt(Grid(o, i));
      assert j <= last;
      OnGridBefore(o, j, last);
      RegularShrinks(o, size, o.StartSize());
      FitsDownward(o, Grid(o, last), size);
      forall f | 0.0 < f <= size
        ensures o.FitsAt(f)
      {
        FitsDownward(o, f, size);
      }
      forall f | size + 0.5 <= f <= o.StartSize()
        ensures !o.FitsAt(f)
      {
        if o.FitsAt(f) {
          assert j > 0;
          assert Grid(o, j - 1) == size + 0.5;
          RegularShrinks(o, f, o.StartSize());
          FitsDownward(o, Grid(o, j - 1), f);
        }
      }
    }
  }

  /**
    When the authored size is a whole number of half pixels above the floor, `scale_down` paints
    exactly when the text fits at the floor.
   */
  lemma FloorDecidesOnGrid(o: Options, steps: nat)
    requires o.overflow == ScaleDown && o.baseFontSize >= 1.0 && o.readabilityFloor > 0.0
    requires o.baseFontSize - o.readabilityFloor == 0.5 * (steps as real)
    requires 0.0 <= o.lineHeight && Regular(o, o.StartSize())
    ensures o.Prepare().Paint? <==> o.FitsAt(o.readabilityFloor)
  {
    assert Grid(o, steps) == o.readabilityFloor;
    ScanIsComplete(o, steps);
  }

  // ----- the floor itself can be missed

  const HALF_EM: Face := Face(
    (t: Text, size: real) => Metrics(|t| as real * size * 0.5, size * 0.8, size * 0.2),
    (t: Text) => if t == [] then [] else [t])

  const OFF_GRID: Options := Options([0x41], 12.0, 100.0, 24.3, 24.0, 1, 1.0, 0.0, ScaleDown, HALF_EM)

  /** A base size that is no whole number of half steps above the floor: the floor fits, yet the layout is refused. */
  lemma FloorCanBeMissed()
    ensures OFF_GRID.FitsAt(OFF_GRID.readabilityFloor)
    ensures OFF_GRID.Prepare() == Unfit
  {
    var o := OFF_GRID;
    LetterWraps(24.0);
    LetterWraps(24.3);
    assert o.Widest([[0x41]], 24.0) == 12.0;
    assert o.PaintedHeight([[0x41]], 24.0) == 24.0;
    assert o.At(24.3).Width([0x41]) == 12.15;
    assert o.Widest([[0x41]], 24.3) >= o.At(24.3).Width([[0x41]][0]);
    assert o.Scan(23.8) == None;
  }

  lemma LetterWraps(size: real)
    ensures OFF_GRID.LinesAt(size) == [[0x41]]
  {
    var t: Text := [0x41];
    var r := OFF_GRID.At(size);
    assert t[1..] == [];
    assert Paragraphs(t[1..]) == [[]];
    assert [t[0]] + [] == t;
    assert Paragraphs(t) == [t];
    assert RunLength(t) == 1;
    assert t[..1] == t;
    assert Words(t) == [t];
    assert AddWord(r, Flow([], []), t) == Flow([], t) by {
      if !r.Fits(t) {
        assert r.face.segment(t) == [t];
        assert AddGlyph(r, Flow([], []), t) == Flow([], t);
        assert AddGlyphs(r, Flow([], []), [t]) == Flow([], t);
      }
    }
    assert AddWords(r, Flow([], []), [t]) == Flow([], t);
    assert WrapParagraph(r, t) == [t];
    assert WrapAll(r, [t]) == [t];
  }
}
