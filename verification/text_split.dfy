/** What wrapping works on: paragraphs, words and widths, told without the functions that find them. */
module TextSplit {
  import opened Prelude
  import opened TextWrap

  // ----- words

  /** A stretch of ink that white space or an end of the text bounds on both sides. */
  predicate MaximalRun(t: Text, a: nat, b: nat) {
    && a < b <= |t|
    && (forall i :: a <= i < b ==> !IsSpace(t[i]))
    && (a == 0 || IsSpace(t[a - 1]))
    && (b == |t| || IsSpace(t[b]))
  }

  /** Behind white space, or before it, the runs of a text are those of its rest. */
  lemma RunsShift(t: Text, k: nat, a: nat, b: nat)
    requires k <= |t| && (k == 0 || k == |t| || IsSpace(t[k - 1]) || IsSpace(t[k]))
    ensures MaximalRun(t[k..], a, b) <==> MaximalRun(t, a + k, b + k)
  {
    var rest := t[k..];
    assert forall i :: 0 <= i < |rest| ==> rest[i] == t[i + k];
    if MaximalRun(t, a + k, b + k) {
      forall i | a <= i < b
        ensures !IsSpace(rest[i])
      {
        assert !IsSpace(t[i + k]);
      }
    }
  }

  function Shifted(starts: seq<nat>, k: nat): (shifted: seq<nat>)
    ensures |shifted| == |starts| && forall i :: 0 <= i < |starts| ==> shifted[i] == starts[i] + k
  {
    seq(|starts|, i requires 0 <= i < |starts| => starts[i] + k)
  }

  predicate RunAt(t: Text, word: Text, start: nat) {
    MaximalRun(t, start, start + |word|) && t[start..start + |word|] == word
  }

  /** Word `i` is the run that starts at `starts[i]`, and the starts rise. */
  predicate RunsAt(t: Text, words: seq<Text>, starts: seq<nat>) {
    && |starts| == |words|
    && (forall i, j :: 0 <= i < j < |starts| ==> starts[i] < starts[j])
    && forall i :: 0 <= i < |words| ==> RunAt(t, words[i], starts[i])
  }

  lemma ShiftRuns(t: Text, k: nat, words: seq<Text>, starts: seq<nat>)
    requires k <= |t| && (k == 0 || k == |t| || IsSpace(t[k - 1]) || IsSpace(t[k])) && RunsAt(t[k..], words, starts)
    ensures RunsAt(t, words, Shifted(starts, k))
  {
    forall i | 0 <= i < |words|
      ensures RunAt(t, words[i], starts[i] + k)
    {
      assert RunAt(t[k..], words[i], starts[i]);
      ShiftRun(t, k, words[i], starts[i]);
    }
  }

  lemma ShiftRun(t: Text, k: nat, word: Text, start: nat)
    requires k <= |t| && (k == 0 || k == |t| || IsSpace(t[k - 1]) || IsSpace(t[k])) && RunAt(t[k..], word, start)
    ensures RunAt(t, word, start + k)
  {
    RunsShift(t, k, start, start + |word|);
    assert t[k..][start..start + |word|] == t[start + k..start + k + |word|];
  }

  /** Some word is the run from `a` to `b`. */
  predicate HasRun(words: seq<Text>, starts: seq<nat>, a: nat, b: nat)
    requires |starts| == |words|
  {
    exists i :: 0 <= i < |words| && starts[i] == a && b == a + |words[i]|
  }

  /** And every run from position `from` on is some word. */
  ghost predicate AllRuns(t: Text, words: seq<Text>, starts: seq<nat>, from: nat)
    requires |starts| == |words|
  {
    forall a: nat, b: nat {:trigger MaximalRun(t, a, b)} :: from <= a && MaximalRun(t, a, b) ==> HasRun(words, starts, a, b)
  }

  lemma ShiftAll(t: Text, k: nat, words: seq<Text>, starts: seq<nat>)
    requires k <= |t| && (k == 0 || k == |t| || IsSpace(t[k - 1]) || IsSpace(t[k]))
    requires |starts| == |words| && AllRuns(t[k..], words, starts, 0)
    ensures AllRuns(t, words, Shifted(starts, k), k)
  {
    var shifted := Shifted(starts, k);
    forall a: nat, b: nat {:trigger MaximalRun(t, a, b)} | k <= a && MaximalRun(t, a, b)
      ensures HasRun(words, shifted, a, b)
    {
      RunsShift(t, k, a - k, b - k);
      assert HasRun(words, starts, a - k, b - k);
      var i :| 0 <= i < |words| && starts[i] == a - k && b - k == a - k + |words[i]|;
      assert shifted[i] == a;
    }
  }

  /** The run at the front comes before all others. */
  lemma RunsApart(t: Text, k: nat, a: nat, b: nat)
    requires MaximalRun(t, 0, k) && MaximalRun(t, a, b)
    ensures (a == 0 && b == k) || a > k
  {
  }

  lemma ConsRuns(t: Text, k: nat, words: seq<Text>, starts: seq<nat>)
    requires MaximalRun(t, 0, k) && RunsAt(t, words, starts)
    requires forall i :: 0 <= i < |starts| ==> starts[i] >= k
    ensures RunsAt(t, [t[..k]] + words, [0] + starts)
  {
    var all, from := [t[..k]] + words, [0] + starts;
    assert t[0..k] == t[..k];
    forall i | 0 <= i < |all|
      ensures RunAt(t, all[i], from[i])
    {
      if i > 0 {
        assert RunAt(t, words[i - 1], starts[i - 1]);
      }
    }
  }

  lemma HasRunBehind(words: seq<Text>, starts: seq<nat>, word: Text, a: nat, b: nat)
    requires |starts| == |words|
    ensures HasRun(words, starts, a, b) ==> HasRun([word] + words, [0] + starts, a, b)
    ensures HasRun([word] + words, [0] + starts, 0, |word|)
  {
    var all, from := [word] + words, [0] + starts;
    assert from[0] == 0 && all[0] == word;
    if HasRun(words, starts, a, b) {
      var i :| 0 <= i < |words| && starts[i] == a && b == a + |words[i]|;
      assert from[i + 1] == a && all[i + 1] == words[i];
    }
  }

  lemma ConsAll(t: Text, k: nat, words: seq<Text>, starts: seq<nat>)
    requires MaximalRun(t, 0, k) && |starts| == |words| && AllRuns(t, words, starts, k)
    ensures AllRuns(t, [t[..k]] + words, [0] + starts, 0)
  {
    forall a: nat, b: nat {:trigger MaximalRun(t, a, b)} | MaximalRun(t, a, b)
      ensures HasRun([t[..k]] + words, [0] + starts, a, b)
    {
      RunsApart(t, k, a, b);
      HasRunBehind(words, starts, t[..k], a, b);
    }
  }

  /** The words of a text are its maximal runs of ink, all of them, in order. */
  lemma {:induction false} WordsAreRuns(t: Text) returns (starts: seq<nat>)
    ensures RunsAt(t, Words(t), starts) && AllRuns(t, Words(t), starts, 0)
    decreases |t|
  {
    starts := [];
    if t == [] {
    } else if IsSpace(t[0]) {
      starts := WordsAreRuns(t[1..]);
      ShiftRuns(t, 1, Words(t[1..]), starts);
      ShiftAll(t, 1, Words(t[1..]), starts);
      starts := Shifted(starts, 1);
    } else {
      var k: nat := RunLength(t);
      starts := WordsAreRuns(t[k..]);
      ShiftRuns(t, k, Words(t[k..]), starts);
      ShiftAll(t, k, Words(t[k..]), starts);
      starts := Shifted(starts, k);
      ConsRuns(t, k, Words(t[k..]), starts);
      ConsAll(t, k, Words(t[k..]), starts);
      starts := [0] + starts;
    }
  }

  // ----- paragraphs

  /** The text with every line break a lone line feed. */
  function UnixBreaks(t: Text): Text {
    if t == [] then []
    else if t[0] == 0x0D && |t| > 1 && t[1] == 0x0A then UnixBreaks(t[1..])
    else [t[0]] + UnixBreaks(t[1..])
  }

  function Rejoined(ps: seq<Text>): Text
    requires ps != []
  {
    if |ps| == 1 then ps[0] else ps[0] + ([0x0A] + Rejoined(ps[1..]))
  }

  /** The paragraphs hold no line feed, and joined by line feeds they are the text again. */
  lemma {:induction false} ParagraphsRejoin(t: Text)
    ensures Rejoined(Paragraphs(t)) == UnixBreaks(t)
    ensures forall p :: p in Paragraphs(t) ==> 0x0A !in p
    decreases |t|
  {
    if t != [] {
      if t[0] == LINE_FEED {
        EmptyFirst(Paragraphs(t[1..]));
        ParagraphsRejoin(t[1..]);
      } else if t[0] == CARRIAGE_RETURN && |t| > 1 && t[1] == LINE_FEED {
        EmptyFirst(Paragraphs(t[2..]));
        ParagraphsRejoin(t[2..]);
        assert t[1..][1..] == t[2..];
      } else {
        var rest := Paragraphs(t[1..]);
        ParagraphsRejoin(t[1..]);
        LongerFirst(t[0], rest);
        assert rest[0] in rest;
      }
    }
  }

  lemma EmptyFirst(ps: seq<Text>)
    requires ps != []
    ensures Rejoined([[]] + ps) == [0x0A] + Rejoined(ps)
  {
    assert ([[]] + ps)[1..] == ps;
    assert [] + ([0x0A] + Rejoined(ps)) == [0x0A] + Rejoined(ps);
  }

  lemma LongerFirst(c: Unit, ps: seq<Text>)
    requires ps != []
    ensures Rejoined([[c] + ps[0]] + ps[1..]) == [c] + Rejoined(ps)
  {
    var longer := [[c] + ps[0]] + ps[1..];
    assert longer[1..] == ps[1..];
    if |ps| > 1 {
      assert ([c] + ps[0]) + ([0x0A] + Rejoined(ps[1..])) == [c] + (ps[0] + ([0x0A] + Rejoined(ps[1..])));
    }
  }

  // ----- widths

  /** The width of a text is its measured width and the tracking once for every gap between its graphemes. */
  lemma TrackingWidens(face: Face, fontSize: real, tracking: real, maxWidth: real, t: Text, gaps: nat)
    requires Segments(face.segment) && t != [] && |face.segment(t)| == gaps + 1
    ensures var r, plain := Ruler(face, fontSize, tracking, maxWidth), Ruler(face, fontSize, 0.0, maxWidth);
      && plain.Width(t) == face.measure(t, fontSize).width
      && r.Width(t) - plain.Width(t) == tracking * (gaps as real)
      && r.Width([]) == 0.0
      && (r.Fits(t) <==> r.Width(t) <= maxWidth)
  {
  }
}
