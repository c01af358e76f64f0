/**
  Greedy wrapping wastes no line: when every word fits on a line and a line grows with its
  words, no other way to break a paragraph needs fewer lines.
 */
module TextWrapMinimal {
  import opened Prelude
  import opened TextWrap
  import opened TextWrapResults

  /** The words from `a` up to `b`, joined by single spaces. */
  function Line(ws: seq<Text>, a: nat, b: nat): (line: Text)
    requires a < b <= |ws|
    decreases b
  {
    if b == a + 1 then ws[a] else Line(ws, a, b - 1) + [SPACE] + ws[b - 1]
  }

  predicate LineFits(r: Ruler, ws: seq<Text>, a: nat, b: nat)
    requires a < b <= |ws|
  {
    r.Fits(Line(ws, a, b))
  }

  predicate AllFit(r: Ruler, ws: seq<Text>) {
    forall i :: 0 <= i < |ws| ==> r.Fits(ws[i])
  }

  /** A line is at least as wide as any stretch of its words. */
  ghost predicate Grows(r: Ruler, ws: seq<Text>) {
    forall a: nat, b: nat, c: nat, d: nat {:trigger Line(ws, a, d), Line(ws, b, c)} ::
      a <= b < c <= d <= |ws| ==> r.Width(Line(ws, b, c)) <= r.Width(Line(ws, a, d))
  }

  /** `ends` breaks the words from `from` on into lines that fit, each ending at one of `ends`. */
  predicate Breaks(r: Ruler, ws: seq<Text>, from: nat, ends: seq<nat>)
    decreases |ends|
  {
    if ends == [] then from == |ws|
    else from < ends[0] <= |ws| && LineFits(r, ws, from, ends[0]) && Breaks(r, ws, ends[0], ends[1..])
  }

  function LinesOf(ws: seq<Text>, from: nat, ends: seq<nat>): seq<Text>
    decreases |ends|
  {
    if ends == [] || !(from < ends[0] <= |ws|) then []
    else [Line(ws, from, ends[0])] + LinesOf(ws, ends[0], ends[1..])
  }

  // ----- the greedy breaks

  /** How far the line that started at `a` and holds the words up to `i` gets. */
  function Reach(r: Ruler, ws: seq<Text>, a: nat, i: nat): (end: nat)
    requires a < i <= |ws|
    ensures i <= end <= |ws|
    decreases |ws| - i
  {
    if i < |ws| && LineFits(r, ws, a, i + 1) then Reach(r, ws, a, i + 1) else i
  }

  function GreedyEnds(r: Ruler, ws: seq<Text>, from: nat): seq<nat>
    requires from <= |ws|
    decreases |ws| - from
  {
    if from == |ws| then []
    else
      var end := Reach(r, ws, from, from + 1);
      [end] + GreedyEnds(r, ws, end)
  }

  lemma {:induction false} ReachFits(r: Ruler, ws: seq<Text>, a: nat, i: nat)
    requires a < i <= |ws| && LineFits(r, ws, a, i)
    ensures LineFits(r, ws, a, Reach(r, ws, a, i))
    decreases |ws| - i
  {
    if i < |ws| && LineFits(r, ws, a, i + 1) {
      ReachFits(r, ws, a, i + 1);
    }
  }

  lemma {:induction false} GreedyBreaks(r: Ruler, ws: seq<Text>, from: nat)
    requires from <= |ws| && AllFit(r, ws)
    ensures Breaks(r, ws, from, GreedyEnds(r, ws, from))
    decreases |ws| - from
  {
    if from < |ws| {
      ReachFits(r, ws, from, from + 1);
      GreedyBreaks(r, ws, Reach(r, ws, from, from + 1));
    }
  }

  lemma ReachStep(r: Ruler, ws: seq<Text>, a: nat, i: nat, j: nat)
    requires a < i < |ws| && j == i + 1
    ensures Reach(r, ws, a, i) == if LineFits(r, ws, a, j) then Reach(r, ws, a, j) else i
  {
  }

  /** A stretch of a line that fits, fits. */
  lemma StretchFits(r: Ruler, ws: seq<Text>, a: nat, b: nat, c: nat, d: nat)
    requires Grows(r, ws) && a <= b < c <= d <= |ws| && LineFits(r, ws, a, d)
    ensures LineFits(r, ws, b, c)
  {
    assert r.Width(Line(ws, b, c)) <= r.Width(Line(ws, a, d));
  }

  /** A line that may reach `e` does. */
  lemma {:induction false} ReachesAtLeast(r: Ruler, ws: seq<Text>, a: nat, i: nat, e: nat)
    requires Grows(r, ws) && a < i <= e <= |ws| && LineFits(r, ws, a, e)
    ensures e <= Reach(r, ws, a, i)
    decreases |ws| - i
  {
    if i < e {
      var j := i + 1;
      StretchFits(r, ws, a, a, j, e);
      ReachesAtLeast(r, ws, a, j, e);
      ReachStep(r, ws, a, i, j);
    }
  }

  /** Starting later never costs more lines. */
  lemma {:induction false} LaterIsNoWorse(r: Ruler, ws: seq<Text>, a: nat, b: nat)
    requires Grows(r, ws) && AllFit(r, ws) && a <= b <= |ws|
    ensures |GreedyEnds(r, ws, b)| <= |GreedyEnds(r, ws, a)|
    decreases |ws| - a
  {
    if a < b {
      var e := Reach(r, ws, a, a + 1);
      ReachFits(r, ws, a, a + 1);
      if e <= b {
        LaterIsNoWorse(r, ws, e, b);
      } else {
        StretchFits(r, ws, a, b, e, e);
        ReachesAtLeast(r, ws, b, b + 1, e);
        LaterIsNoWorse(r, ws, e, Reach(r, ws, b, b + 1));
      }
    }
  }

  lemma {:induction false} GreedyIsMinimal(r: Ruler, ws: seq<Text>, from: nat, ends: seq<nat>)
    requires Grows(r, ws) && AllFit(r, ws) && from <= |ws| && Breaks(r, ws, from, ends)
    ensures |GreedyEnds(r, ws, from)| <= |ends|
    decreases |ends|
  {
    if ends != [] {
      ReachesAtLeast(r, ws, from, from + 1, ends[0]);
      GreedyIsMinimal(r, ws, ends[0], ends[1..]);
      LaterIsNoWorse(r, ws, ends[0], Reach(r, ws, from, from + 1));
    }
  }

  // ----- wrapText breaks where the greedy breaks are

  lemma {:induction false} LineIsTight(ws: seq<Text>, a: nat, b: nat)
    requires Inked(ws) && a < b <= |ws|
    ensures Tight(Line(ws, a, b))
    decreases b
  {
    assert ws[b - 1] != [] && ws[b - 1][|ws[b - 1]| - 1] in ws[b - 1] && ws[b - 1][0] in ws[b - 1];
    if a + 1 < b {
      LineIsTight(ws, a, b - 1);
      var line := Line(ws, a, b);
      assert line[|line| - 1] == ws[b - 1][|ws[b - 1]| - 1];
    }
  }

  /** With every word fitting, a filled line either takes the next word or ends before it. */
  lemma NextWord(r: Ruler, ws: seq<Text>, out: seq<Text>, a: nat, i: nat, j: nat)
    requires Inked(ws) && AllFit(r, ws) && a < i < |ws| && j == i + 1
    ensures AddWord(r, Flow(out, Line(ws, a, i)), ws[i])
      == if LineFits(r, ws, a, j) then Flow(out, Line(ws, a, j)) else Flow(out + [Line(ws, a, i)], Line(ws, i, j))
  {
    LineIsTight(ws, a, i);
    LineIsTight(ws, a, j);
    TrimTight(Line(ws, a, j));
  }

  /** The greedy lines of the words from `i` on. */
  function GreedyLines(r: Ruler, ws: seq<Text>, i: nat): seq<Text>
    requires i <= |ws|
  {
    LinesOf(ws, i, GreedyEnds(r, ws, i))
  }

  function Lines(f: Flow): seq<Text> {
    f.output + [f.line]
  }

  /** What the loop over words makes of word `i` on, starting from the line of the words from `a`. */
  function Filled(r: Ruler, ws: seq<Text>, a: nat, i: nat): seq<Text>
    requires a < i <= |ws|
  {
    Lines(AddWords(r, Flow([], Line(ws, a, i)), ws[i..]))
  }

  /** The greedy lines, the first of them holding the words from `a` and so far up to `i`. */
  function GreedyFrom(r: Ruler, ws: seq<Text>, a: nat, i: nat): seq<Text>
    requires a < i <= |ws|
  {
    var end := Reach(r, ws, a, i);
    [Line(ws, a, end)] + GreedyLines(r, ws, end)
  }

  /** A line that was pushed comes before what the rest makes. */
  lemma FilledBehind(r: Ruler, ws: seq<Text>, line: Text, i: nat, j: nat)
    requires i < j <= |ws|
    ensures Lines(AddWords(r, Flow([line], Line(ws, i, j)), ws[j..])) == [line] + Filled(r, ws, i, j)
  {
    WordsKeepOutput(r, [line], Flow([], Line(ws, i, j)), ws[j..]);
    var f := AddWords(r, Flow([], Line(ws, i, j)), ws[j..]);
    assert [line] + [] == [line];
    assert [line] + f.output + [f.line] == [line] + (f.output + [f.line]);
  }

  lemma WordsStep(r: Ruler, f: Flow, ws: seq<Text>, i: nat, j: nat)
    requires i < |ws| && j == i + 1
    ensures AddWords(r, f, ws[i..]) == AddWords(r, AddWord(r, f, ws[i]), ws[j..])
  {
    assert ws[i..][0] == ws[i] && ws[i..][1..] == ws[j..];
  }

  /** The next word joins the line or ends it. */
  lemma FilledStep(r: Ruler, ws: seq<Text>, a: nat, i: nat, j: nat)
    requires Inked(ws) && AllFit(r, ws) && a < i < |ws| && j == i + 1
    ensures Filled(r, ws, a, i)
      == if LineFits(r, ws, a, j) then Filled(r, ws, a, j) else [Line(ws, a, i)] + Filled(r, ws, i, j)
  {
    NextWord(r, ws, [], a, i, j);
    WordsStep(r, Flow([], Line(ws, a, i)), ws, i, j);
    if !LineFits(r, ws, a, j) {
      assert [] + [Line(ws, a, i)] == [Line(ws, a, i)];
      FilledBehind(r, ws, Line(ws, a, i), i, j);
    }
  }

  lemma GreedyUnfolds(r: Ruler, ws: seq<Text>, i: nat, j: nat)
    requires i < |ws| && j == i + 1
    ensures GreedyLines(r, ws, i) == GreedyFrom(r, ws, i, j)
  {
    var end := Reach(r, ws, i, i + 1);
    assert GreedyEnds(r, ws, i)[0] == end && GreedyEnds(r, ws, i)[1..] == GreedyEnds(r, ws, end);
  }

  lemma GreedyStep(r: Ruler, ws: seq<Text>, a: nat, i: nat, j: nat)
    requires a < i < |ws| && j == i + 1
    ensures GreedyFrom(r, ws, a, i)
      == if LineFits(r, ws, a, j) then GreedyFrom(r, ws, a, j) else [Line(ws, a, i)] + GreedyFrom(r, ws, i, j)
  {
    ReachStep(r, ws, a, i, j);
    GreedyUnfolds(r, ws, i, j);
  }

  lemma BothAtEnd(r: Ruler, ws: seq<Text>, a: nat)
    requires a < |ws|
    ensures Filled(r, ws, a, |ws|) == [Line(ws, a, |ws|)] == GreedyFrom(r, ws, a, |ws|)
  {
    assert ws[|ws|..] == [];
  }

  lemma {:induction false} FilledIsGreedy(r: Ruler, ws: seq<Text>, a: nat, i: nat)
    requires Inked(ws) && AllFit(r, ws) && a < i <= |ws|
    ensures Filled(r, ws, a, i) == GreedyFrom(r, ws, a, i)
    decreases |ws| - i
  {
    if i == |ws| {
      BothAtEnd(r, ws, a);
    } else {
      var j := i + 1;
      FilledIsGreedy(r, ws, if LineFits(r, ws, a, j) then a else i, j);
      FilledStep(r, ws, a, i, j);
      GreedyStep(r, ws, a, i, j);
    }
  }

  lemma WrapIsGreedy(r: Ruler, p: Text)
    requires Words(p) != [] && AllFit(r, Words(p))
    ensures WrapParagraph(r, p) == LinesOf(Words(p), 0, GreedyEnds(r, Words(p), 0))
  {
    var ws := Words(p);
    WordsAreInked(p);
    assert AddWord(r, Flow([], []), ws[0]) == Flow([], Line(ws, 0, 1));
    FilledIsGreedy(r, ws, 0, 1);
    var end := Reach(r, ws, 0, 1);
    assert GreedyEnds(r, ws, 0)[0] == end && GreedyEnds(r, ws, 0)[1..] == GreedyEnds(r, ws, end);
  }

  lemma {:induction false} LinesCount(r: Ruler, ws: seq<Text>, from: nat, ends: seq<nat>)
    requires Breaks(r, ws, from, ends)
    ensures |LinesOf(ws, from, ends)| == |ends|
    decreases |ends|
  {
    if ends != [] {
      LinesCount(r, ws, ends[0], ends[1..]);
    }
  }

  /** wrapText breaks a paragraph into fitting lines, and no break into fitting lines has fewer. */
  lemma WrapIsMinimal(r: Ruler, p: Text, ends: seq<nat>)
    requires Words(p) != [] && AllFit(r, Words(p)) && Grows(r, Words(p))
    requires Breaks(r, Words(p), 0, ends)
    ensures exists best :: Breaks(r, Words(p), 0, best) && WrapParagraph(r, p) == LinesOf(Words(p), 0, best)
    ensures |WrapParagraph(r, p)| <= |LinesOf(Words(p), 0, ends)| == |ends|
  {
    var best := GreedyEnds(r, Words(p), 0);
    WrapIsGreedy(r, p);
    GreedyBreaks(r, Words(p), 0);
    LinesCount(r, Words(p), 0, best);
    LinesCount(r, Words(p), 0, ends);
    GreedyIsMinimal(r, Words(p), 0, ends);
  }
}
