/** What the three overflow policies promise about anything that is painted. */
module TextLayoutResults {
  import opened Prelude
  import opened TextWrap
  import opened TextWrapResults
  import opened TextLayout

  /** The size of scan step `k`. */
  function Grid(o: Options, k: nat): real {
    o.StartSize() - 0.5 * (k as real)
  }

  predicate OnGrid(o: Options, k: nat) {
    Grid(o, k) >= o.MinimumSize() - 0.001
  }

  lemma ScanStep(o: Options, k: nat, next: nat)
    requires next == k + 1
    ensures Grid(o, next) == Grid(o, k) - 0.5
    ensures OnGrid(o, k) ==> o.Scan(Grid(o, k)) == if o.FitsAt(Grid(o, k)) then Some(Grid(o, k)) else o.Scan(Grid(o, next))
    ensures !OnGrid(o, k) ==> o.Scan(Grid(o, k)) == None && forall j: nat :: k <= j ==> !OnGrid(o, j)
  {
  }

  lemma {:induction false} ScanFrom(o: Options, k: nat)
    ensures match o.Scan(Grid(o, k))
      case Some(size) =>
        exists j: nat :: k <= j && OnGrid(o, j) && size == Grid(o, j) && o.FitsAt(size)
          && forall i: nat :: k <= i < j ==> !o.FitsAt(Grid(o, i))
      case None => forall j: nat :: k <= j && OnGrid(o, j) ==> !o.FitsAt(Grid(o, j))
    decreases 2.0 * (Grid(o, k) - o.MinimumSize()) + 1.0
  {
    var next := k + 1;
    ScanStep(o, k, next);
    if OnGrid(o, k) && !o.FitsAt(Grid(o, k)) {
      ScanFrom(o, next);
    }
  }

  /** The scan finds the largest grid size at which the text fits, and fails only if there is none. */
  lemma ScanIsLargest(o: Options)
    ensures match o.Scan(o.StartSize())
      case Some(size) =>
        exists j: nat :: OnGrid(o, j) && size == Grid(o, j) && o.FitsAt(size)
          && forall i: nat :: i < j ==> !o.FitsAt(Grid(o, i))
      case None => forall j: nat :: OnGrid(o, j) ==> !o.FitsAt(Grid(o, j))
  {
    ScanFrom(o, 0);
    assert Grid(o, 0) == o.StartSize();
  }

  /** A layout from the fit path keeps to its box and holds all of the text. */
  lemma FitPathKeepsBox(o: Options, size: real)
    requires Segments(o.face.segment) && o.Scan(o.StartSize()) == Some(size)
    ensures o.Prepare() == o.PaintAt(size, o.LinesAt(size))
    ensures |o.LinesAt(size)| <= o.maxLines
    ensures forall i :: 0 <= i < |o.LinesAt(size)| ==> o.At(size).Width(o.LinesAt(size)[i]) <= o.width
    ensures o.PaintedHeight(o.LinesAt(size), size) <= o.height
    ensures Ink(Flatten(o.LinesAt(size))) == Ink(o.text)
    ensures o.MinimumSize() - 0.001 <= size <= o.StartSize()
  {
    ScanIsLargest(o);
    WrapKeepsInk(o.At(size), o.text);
  }

  /** `refuse` paints at the authored size or not at all, when that size is at least one. */
  lemma RefusePaintsOnlyBase(o: Options)
    requires o.overflow == Refuse && o.baseFontSize >= 1.0
    ensures o.Prepare() == if o.FitsAt(o.baseFontSize) then o.PaintAt(o.baseFontSize, o.LinesAt(o.baseFontSize)) else Skip
  {
    assert o.StartSize() == o.baseFontSize;
    assert o.Scan(o.baseFontSize - 0.5) == None;
  }

  /** `refuse` paints at another size exactly when that size is below one and a scanned size other than it fits. */
  lemma RefuseLeavesBaseExactly(o: Options)
    requires o.overflow == Refuse
    ensures o.Prepare().Paint? && o.Prepare().fontSize != o.baseFontSize <==>
      o.baseFontSize < 1.0 && exists k: nat :: OnGrid(o, k) && Grid(o, k) != o.baseFontSize && o.FitsAt(Grid(o, k))
  {
    ScanIsLargest(o);
    if o.baseFontSize >= 1.0 {
      RefusePaintsOnlyBase(o);
    } else if k: nat :| OnGrid(o, k) && Grid(o, k) != o.baseFontSize && o.FitsAt(Grid(o, k)) {
      var size := o.Scan(o.StartSize()).value;
      var j: nat :| OnGrid(o, j) && size == Grid(o, j) && o.FitsAt(size) && forall i: nat :: i < j ==> !o.FitsAt(Grid(o, i));
      assert j <= k;
      assert j < k ==> Grid(o, k) <= Grid(o, j) - 0.5;
    }
  }

  /** `scale_down` paints exactly when some scanned size fits, and only text that fits. */
  lemma ScaleDownPaintsOnlyFit(o: Options)
    requires o.overflow == ScaleDown
    ensures o.Prepare().Unfit? <==> forall j: nat :: OnGrid(o, j) ==> !o.FitsAt(Grid(o, j))
    ensures !o.Prepare().Unfit? ==>
      && o.Prepare().Paint?
      && o.FitsAt(o.Prepare().fontSize)
      && o.Prepare().lines == o.LinesAt(o.Prepare().fontSize)
      && o.Prepare().fontSize >= o.readabilityFloor - 0.001
  {
    ScanIsLargest(o);
  }

  // ----- sizes, heights and what is painted

  lemma AtLeastQuotient(x: real, a: real, d: real)
    requires d > 0.0
    ensures x >= a / d <==> x * d >= a
  {
    assert a / d * d == a;
    if x >= a / d {
      assert (x - a / d) * d >= 0.0;
    } else {
      assert (a / d - x) * d > 0.0;
    }
  }

  lemma AtLeastLarger(x: real, a: real, b: real)
    ensures x >= RealMax(a, b) <==> x >= a && x >= b
    ensures x >= RealMin(a, b) <==> x >= a || x >= b
  {
  }

  /** At this size maxLines line heights, or one size if that is more, are no less than the height. */
  predicate Fills(o: Options, x: real) {
    var stack := o.maxLines as real * o.lineHeight;
    if stack >= 1.0 then x * stack >= o.height else x >= o.height
  }

  lemma FillsExactly(o: Options, x: real)
    ensures x >= o.BoxFloor() <==> Fills(o, x)
  {
    var stack := o.maxLines as real * o.lineHeight;
    AtLeastQuotient(x, o.height, RealMax(1.0, stack));
  }

  /**
    The scan starts at the authored size, or at one. It ends at the readability floor for `scale_down`
    and at the authored size for `refuse`; for `truncate` it ends at the floor too, but no later than
    at the size, or the authored one, at which maxLines line heights fill the box.
   */
  lemma SizesExactly(o: Options, x: real)
    ensures x >= o.StartSize() <==> x >= 1.0 && x >= o.baseFontSize
    ensures x >= o.MinimumSize() <==>
      match o.overflow
      case ScaleDown => x >= o.readabilityFloor
      case Refuse => x >= o.baseFontSize
      case Truncate => x >= o.readabilityFloor && (x >= o.baseFontSize || Fills(o, x))
  {
    FillsExactly(o, x);
    AtLeastLarger(x, o.readabilityFloor, RealMin(o.baseFontSize, o.BoxFloor()));
    AtLeastLarger(x, o.baseFontSize, o.BoxFloor());
  }

  /** The metrics of a line, of an M when it is empty. */
  function MetricsOf(o: Options, line: Text, size: real): Metrics {
    o.face.measure(if line == [] then [0x4D] else line, size)
  }

  /** Some line rises so far, or none rises and it is zero. */
  predicate Rises(o: Options, lines: seq<Text>, size: real, ascent: real) {
    ascent == 0.0 || exists i :: 0 <= i < |lines| && MetricsOf(o, lines[i], size).ascent == ascent
  }

  predicate Falls(o: Options, lines: seq<Text>, size: real, descent: real) {
    descent == 0.0 || exists i :: 0 <= i < |lines| && MetricsOf(o, lines[i], size).descent == descent
  }

  /** The most any line rises, and falls. */
  ghost predicate Extremes(o: Options, lines: seq<Text>, size: real, ascent: real, descent: real) {
    && 0.0 <= ascent && 0.0 <= descent && Rises(o, lines, size, ascent) && Falls(o, lines, size, descent)
    && forall i :: 0 <= i < |lines| ==>
         MetricsOf(o, lines[i], size).ascent <= ascent && MetricsOf(o, lines[i], size).descent <= descent
  }

  lemma {:induction false} AscentIsExtreme(o: Options, lines: seq<Text>, size: real)
    ensures Rises(o, lines, size, o.MaxAscent(lines, size))
    ensures forall i :: 0 <= i < |lines| ==> MetricsOf(o, lines[i], size).ascent <= o.MaxAscent(lines, size)
  {
    if lines != [] {
      var rest := lines[1..];
      AscentIsExtreme(o, rest, size);
      assert forall i :: 1 <= i < |lines| ==> lines[i] == rest[i - 1];
      if i :| 0 <= i < |rest| && MetricsOf(o, rest[i], size).ascent == o.MaxAscent(rest, size) {
        assert lines[i + 1] == rest[i];
      }
    }
  }

  lemma {:induction false} DescentIsExtreme(o: Options, lines: seq<Text>, size: real)
    ensures Falls(o, lines, size, o.MaxDescent(lines, size))
    ensures forall i :: 0 <= i < |lines| ==> MetricsOf(o, lines[i], size).descent <= o.MaxDescent(lines, size)
  {
    if lines != [] {
      var rest := lines[1..];
      DescentIsExtreme(o, rest, size);
      assert forall i :: 1 <= i < |lines| ==> lines[i] == rest[i - 1];
      if i :| 0 <= i < |rest| && MetricsOf(o, rest[i], size).descent == o.MaxDescent(rest, size) {
        assert lines[i + 1] == rest[i];
      }
    }
  }

  /** The gaps between so many lines. */
  function Gaps(o: Options, n: nat, size: real): real {
    if n == 0 then 0.0 else (n - 1) as real * size * o.lineHeight
  }

  lemma GapsAre(o: Options, n: nat, size: real)
    ensures o.Leading(n, size) == Gaps(o, n, size)
  {
    var k := Max(0, n - 1) as real;
    if n == 0 {
      assert k == 0.0;
      assert k * size == 0.0;
    } else {
      assert k == (n - 1) as real;
    }
  }

  lemma HeightIs(o: Options, lines: seq<Text>, size: real)
    ensures o.PaintedHeight(lines, size) == o.MaxAscent(lines, size) + o.MaxDescent(lines, size) + Gaps(o, |lines|, size)
  {
    GapsAre(o, |lines|, size);
  }

  lemma WidestWithin(o: Options, lines: seq<Text>, size: real)
    ensures o.Widest(lines, size) <= o.width <==>
      0.0 <= o.width && forall i :: 0 <= i < |lines| ==> o.At(size).Width(lines[i]) <= o.width
  {
  }

  lemma LinesFitExactly(o: Options, lines: seq<Text>, size: real, ascent: real, descent: real)
    requires Extremes(o, lines, size, ascent, descent)
    ensures o.LinesFit(lines, size) <==>
      && |lines| <= o.maxLines
      && 0.0 <= o.width && (forall i :: 0 <= i < |lines| ==> o.At(size).Width(lines[i]) <= o.width)
      && ascent + descent + Gaps(o, |lines|, size) <= o.height
  {
    ExtremesAgree(o, lines, size, ascent, descent);
    WidestWithin(o, lines, size);
    HeightIs(o, lines, size);
  }

  /**
    A text fits at a size exactly when its lines are no more than allowed, none is wider than the box,
    and the highest rise, the deepest fall and the gaps between the lines are no higher than the box.
   */
  lemma FitsExactly(o: Options, size: real, ascent: real, descent: real)
    requires Extremes(o, o.LinesAt(size), size, ascent, descent)
    ensures var lines := o.LinesAt(size);
      o.FitsAt(size) <==>
        && |lines| <= o.maxLines
        && 0.0 <= o.width && (forall i :: 0 <= i < |lines| ==> o.At(size).Width(lines[i]) <= o.width)
        && ascent + descent + Gaps(o, |lines|, size) <= o.height
  {
    LinesFitExactly(o, o.LinesAt(size), size, ascent, descent);
  }

  lemma ExtremesAgree(o: Options, lines: seq<Text>, size: real, ascent: real, descent: real)
    requires Extremes(o, lines, size, ascent, descent)
    ensures ascent == o.MaxAscent(lines, size) && descent == o.MaxDescent(lines, size)
  {
    AscentIsExtreme(o, lines, size);
    DescentIsExtreme(o, lines, size);
  }

  /** Size `size` is scanned, the text fits there, and at no size scanned before. */
  ghost predicate FirstFitting(o: Options, size: real) {
    exists j: nat ::
      && size == Grid(o, j) && size >= o.MinimumSize() - 0.001 && o.FitsAt(size)
      && forall i: nat :: i < j ==> !o.FitsAt(Grid(o, i))
  }

  ghost predicate NoneFits(o: Options) {
    forall j: nat :: Grid(o, j) >= o.MinimumSize() - 0.001 ==> !o.FitsAt(Grid(o, j))
  }

  /**
    What comes of a text: it is painted at the first size of the scan that fits, with the lines it has
    there. When none fits, `refuse` skips it, `scale_down` reports it, and `truncate` paints the cut
    lines at the last size, or at one. The rise, the fall and the tracking painted are the lines' own.
   */
  lemma PreparedExactly(o: Options)
    ensures var prepared := o.Prepare();
      && (prepared.Skip? <==> o.overflow == Refuse && NoneFits(o))
      && (prepared.Unfit? <==> o.overflow == ScaleDown && NoneFits(o))
      && (prepared.Paint? ==>
            && Extremes(o, prepared.lines, prepared.fontSize, prepared.ascent, prepared.descent)
            && prepared.trackingPixels == o.trackingPixels
            && if NoneFits(o)
               then prepared.fontSize == RealMax(1.0, o.MinimumSize()) && prepared.lines == o.TruncatedLines(prepared.fontSize)
               else FirstFitting(o, prepared.fontSize) && prepared.lines == o.LinesAt(prepared.fontSize))
  {
    ScanIsLargest(o);
    var prepared := o.Prepare();
    if prepared.Paint? {
      AscentIsExtreme(o, prepared.lines, prepared.fontSize);
      DescentIsExtreme(o, prepared.lines, prepared.fontSize);
    }
    ScanDecides(o);
  }

  lemma ScanDecides(o: Options)
    ensures o.Scan(o.StartSize()).None? <==> NoneFits(o)
    ensures o.Scan(o.StartSize()).Some? ==> FirstFitting(o, o.Scan(o.StartSize()).value)
  {
    ScanIsLargest(o);
    if o.Scan(o.StartSize()).Some? {
      var size := o.Scan(o.StartSize()).value;
      var j: nat :| OnGrid(o, j) && size == Grid(o, j) && o.FitsAt(size) && forall i: nat :: i < j ==> !o.FitsAt(Grid(o, i));
      assert !NoneFits(o);
    }
  }

  // ----- truncation

  /** What is left of a line is a prefix, followed by an ellipsis it fits the width, and no longer prefix does. */
  lemma {:induction false} ShortenIsLongest(o: Options, line: Text, size: real)
    ensures
      var kept := o.Shorten(line, size);
      && kept <= line
      && (kept == [] || o.At(size).Fits(kept + [ELLIPSIS]))
      && forall n :: |kept| < n <= |line| ==> !o.At(size).Fits(line[..n] + [ELLIPSIS])
    decreases |line|
  {
    if line != [] && !o.At(size).Fits(line + [ELLIPSIS]) {
      var shorter := line[..|line| - 1];
      ShortenIsLongest(o, shorter, size);
      forall n | |o.Shorten(line, size)| < n <= |line|
        ensures !o.At(size).Fits(line[..n] + [ELLIPSIS])
      {
        if n < |line| {
          assert shorter[..n] == line[..n];
        } else {
          assert line[..n] == line;
        }
      }
    } else {
      assert line[..|line|] == line;
    }
  }

  lemma {:induction false} InkOfTrim(t: Text)
    ensures Ink(TrimEnd(t)) == Ink(t)
    decreases |t|
  {
    if t != [] && IsSpace(t[|t| - 1]) {
      InkOfTrim(t[..|t| - 1]);
      InkAppend(t[..|t| - 1], [t[|t| - 1]]);
      assert t[..|t| - 1] + [t[|t| - 1]] == t;
      assert Ink(t[..|t| - 1]) + [] == Ink(t[..|t| - 1]);
    }
  }

  lemma InkOfPrefix(a: Text, b: Text)
    requires a <= b
    ensures Ink(a) <= Ink(b)
  {
    assert b == a + b[|a|..];
    InkAppend(a, b[|a|..]);
  }


  lemma {:induction false} FlattenPrefix(lines: seq<Text>, n: nat, kept: Text)
    requires n < |lines| && kept <= lines[n]
    ensures Flatten(lines[..n]) + kept <= Flatten(lines)
  {
    if n == 0 {
      assert [] + kept == kept;
    } else {
      FlattenPrefix(lines[1..], n - 1, kept);
      assert lines[1..][..n - 1] == lines[..n][1..];
      Regroup(lines[0], Flatten(lines[..n][1..]), kept);
    }
  }

  lemma {:induction false} TrimDropsSpaces(t: Text)
    ensures TrimEnd(t) <= t && (forall i :: |TrimEnd(t)| <= i < |t| ==> IsSpace(t[i]))
    ensures TrimEnd(t) != [] ==> !IsSpace(TrimEnd(t)[|TrimEnd(t)| - 1])
    decreases |t|
  {
    if t != [] && IsSpace(t[|t| - 1]) {
      TrimDropsSpaces(t[..|t| - 1]);
    }
  }

  /** `kept` is as much of a line as an ellipsis can follow within the width. */
  ghost predicate MostOf(o: Options, size: real, line: Text, kept: Text) {
    && kept <= line
    && (kept == [] || o.At(size).Width(kept + [0x2026]) <= o.width)
    && forall n :: |kept| < n <= |line| ==> o.At(size).Width(line[..n] + [0x2026]) > o.width
  }

  /** `shown` is `kept` without white space at its end. */
  predicate Trimmed(kept: Text, shown: Text) {
    && shown <= kept && (forall i :: |shown| <= i < |kept| ==> IsSpace(kept[i]))
    && (shown != [] ==> !IsSpace(shown[|shown| - 1]))
  }

  /** `last` is that much of the line, trimmed, and an ellipsis. */
  ghost predicate CutTo(o: Options, size: real, line: Text, last: Text) {
    exists kept, shown :: MostOf(o, size, line, kept) && Trimmed(kept, shown) && last == shown + [0x2026]
  }

  lemma LastIsCut(o: Options, size: real, line: Text)
    ensures CutTo(o, size, line, TrimEnd(o.Shorten(line, size)) + [ELLIPSIS])
  {
    var kept := o.Shorten(line, size);
    ShortenIsLongest(o, line, size);
    TrimDropsSpaces(kept);
    assert MostOf(o, size, line, kept) && Trimmed(kept, TrimEnd(kept));
  }

  /**
    `truncate` without a fit: the first maxLines lines, or all if there are fewer. All but the last
    stand as wrapped; of the last stays the longest prefix that an ellipsis can follow within the width,
    without the white space at its end; and the ink before the ellipsis is a prefix of the ink of the text.
   */
  lemma TruncateKeepsMost(o: Options, size: real)
    requires Segments(o.face.segment)
    ensures
      var all, lines := o.LinesAt(size), o.TruncatedLines(size);
      && |lines| == Min(o.maxLines, |all|)
      && (lines != [] ==>
            var n, last := |lines| - 1, lines[|lines| - 1];
            && lines[..n] == all[..n] && CutTo(o, size, all[n], last)
            && Ink(Flatten(lines[..n]) + last[..|last| - 1]) <= Ink(o.text))
  {
    var all, lines := o.LinesAt(size), o.TruncatedLines(size);
    if lines != [] {
      var n := |lines| - 1;
      var kept := o.Shorten(all[n], size);
      assert lines[..n] == all[..n];
      assert lines[n] == TrimEnd(kept) + [ELLIPSIS];
      LastIsCut(o, size, all[n]);
      ShortenIsLongest(o, all[n], size);
      assert lines[n][..|lines[n]| - 1] == TrimEnd(kept);
      TruncatedInk(o, all, n, kept);
      WrapKeepsInk(o.At(size), o.text);
    }
  }

  lemma TruncatedInk(o: Options, all: seq<Text>, n: nat, kept: Text)
    requires n < |all| && kept <= all[n]
    ensures Ink(Flatten(all[..n]) + TrimEnd(kept)) <= Ink(Flatten(all))
  {
    FlattenPrefix(all, n, kept);
    InkOfPrefix(Flatten(all[..n]) + kept, Flatten(all));
    InkAppend(Flatten(all[..n]), kept);
    InkAppend(Flatten(all[..n]), TrimEnd(kept));
    InkOfTrim(kept);
  }

  /** `truncate` always paints, and never more than maxLines lines. */
  lemma TruncateAlwaysPaints(o: Options)
    requires o.overflow == Truncate
    ensures o.Prepare().Paint? && |o.Prepare().lines| <= o.maxLines
    ensures o.Scan(o.StartSize()).None? ==>
      var size := RealMax(1.0, o.MinimumSize());
      o.Prepare() == o.PaintAt(size, o.TruncatedLines(size))
  {
    ScanIsLargest(o);
  }
}
