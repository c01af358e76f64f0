/**
  Wrapping told without its loops: a paragraph is a row of atoms, which are its words and, of a word
  too wide for any line, the graphemes; every line takes atoms as long as they fit, and that is all.
 */
module TextFirstFit {
  import opened Prelude
  import opened TextWrap
  import opened TextWrapResults

  /** A piece that is never broken, what joins it to the piece before on its line, and whether it starts a line. */
  datatype Atom = Atom(text: Text, glue: Text, starts: bool)

  function Glyphs(glyphs: seq<Text>): (atoms: seq<Atom>)
    ensures |atoms| == |glyphs|
    ensures forall i :: 0 <= i < |glyphs| ==> atoms[i] == Atom(glyphs[i], [], i == 0)
  {
    seq(|glyphs|, i requires 0 <= i < |glyphs| => Atom(glyphs[i], [], i == 0))
  }

  /** A word that fits a line stays whole; another starts a line and falls into its graphemes. */
  function AtomsOf(r: Ruler, word: Text): seq<Atom> {
    if r.Width(word) <= r.maxWidth then [Atom(word, [SPACE], false)] else Glyphs(r.face.segment(word))
  }

  function Atoms(r: Ruler, words: seq<Text>): seq<Atom> {
    if words == [] then [] else AtomsOf(r, words[0]) + Atoms(r, words[1..])
  }

  /** The atoms from `a` up to `b` on one line. */
  function Joined(atoms: seq<Atom>, a: nat, b: nat): (line: Text)
    requires a < b <= |atoms|
    decreases b
  {
    if b == a + 1 then atoms[a].text else Joined(atoms, a, b - 1) + atoms[b - 1].glue + atoms[b - 1].text
  }

  /** The line that starts at `a` and reaches up to `k` takes atom `k` as well. */
  predicate Takes(r: Ruler, atoms: seq<Atom>, a: nat, k: nat)
    requires a < k < |atoms|
  {
    !atoms[k].starts && r.Width(Joined(atoms, a, k + 1)) <= r.maxWidth
  }

  /** `ends` are where the lines from `from` on end, each of them as late as can be. */
  predicate FirstFit(r: Ruler, atoms: seq<Atom>, from: nat, ends: seq<nat>)
    decreases |ends|
  {
    if ends == [] then from == |atoms|
    else
      && from < ends[0] <= |atoms|
      && (forall k :: from < k < ends[0] ==> Takes(r, atoms, from, k))
      && (ends[0] < |atoms| ==> !Takes(r, atoms, from, ends[0]))
      && FirstFit(r, atoms, ends[0], ends[1..])
  }

  function JoinedLines(atoms: seq<Atom>, from: nat, ends: seq<nat>): seq<Text>
    decreases |ends|
  {
    if ends == [] || !(from < ends[0] <= |atoms|) then []
    else [Joined(atoms, from, ends[0])] + JoinedLines(atoms, ends[0], ends[1..])
  }

  /** There is at most one way to do that. */
  lemma {:induction false} FirstFitIsUnique(r: Ruler, atoms: seq<Atom>, from: nat, ends: seq<nat>, others: seq<nat>)
    requires FirstFit(r, atoms, from, ends) && FirstFit(r, atoms, from, others)
    ensures ends == others
    decreases |ends|
  {
    if ends != [] && others != [] {
      FirstFitIsUnique(r, atoms, ends[0], ends[1..], others[1..]);
      assert ends == [ends[0]] + ends[1..] && others == [others[0]] + others[1..];
    }
  }

  // ----- no other way to break has fewer lines

  /** A line: one atom, or several that fit, of which only the first starts a line. */
  predicate OneLine(r: Ruler, atoms: seq<Atom>, a: nat, b: nat) {
    && a < b <= |atoms|
    && (b == a + 1 || r.Width(Joined(atoms, a, b)) <= r.maxWidth)
    && forall k :: a < k < b ==> !atoms[k].starts
  }

  predicate Broken(r: Ruler, atoms: seq<Atom>, from: nat, ends: seq<nat>)
    decreases |ends|
  {
    if ends == [] then from == |atoms| else OneLine(r, atoms, from, ends[0]) && Broken(r, atoms, ends[0], ends[1..])
  }

  /** A line is at least as wide as any stretch of it. */
  ghost predicate Widens(r: Ruler, atoms: seq<Atom>) {
    forall a: nat, b: nat, c: nat, d: nat {:trigger Joined(atoms, a, d), Joined(atoms, b, c)} ::
      a <= b < c <= d <= |atoms| ==> r.Width(Joined(atoms, b, c)) <= r.Width(Joined(atoms, a, d))
  }

  lemma FilledIsOneLine(r: Ruler, atoms: seq<Atom>, a: nat, b: nat)
    requires a < b <= |atoms| && forall k :: a < k < b ==> Takes(r, atoms, a, k)
    ensures OneLine(r, atoms, a, b)
  {
    if a + 1 < b {
      var last := b - 1;
      assert Takes(r, atoms, a, last) && last + 1 == b;
    }
    forall k | a < k < b
      ensures !atoms[k].starts
    {
      assert Takes(r, atoms, a, k);
    }
  }

  lemma {:induction false} FirstFitBreaks(r: Ruler, atoms: seq<Atom>, from: nat, ends: seq<nat>)
    requires FirstFit(r, atoms, from, ends)
    ensures Broken(r, atoms, from, ends)
    decreases |ends|
  {
    if ends != [] {
      FilledIsOneLine(r, atoms, from, ends[0]);
      FirstFitBreaks(r, atoms, ends[0], ends[1..]);
    }
  }

  /** Lines filled from `from` on are no more than any that begin earlier or there. */
  lemma {:induction false} FirstFitIsMinimal(r: Ruler, atoms: seq<Atom>, from: nat, ends: seq<nat>, earlier: nat, others: seq<nat>)
    requires Widens(r, atoms) && earlier <= from && FirstFit(r, atoms, from, ends) && Broken(r, atoms, earlier, others)
    ensures |ends| <= |others|
    decreases |others|
  {
    if ends != [] {
      var e := others[0];
      if e <= from {
        FirstFitIsMinimal(r, atoms, from, ends, e, others[1..]);
      } else {
        FirstFitIsMinimal(r, atoms, ends[0], ends[1..], e, others[1..]);
      }
    }
  }

  // ----- the loops fill lines in that way

  function AddAtom(r: Ruler, f: Flow, atom: Atom): Flow {
    if f.line == [] then Flow(f.output, atom.text)
    else if !atom.starts && r.Fits(f.line + atom.glue + atom.text) then Flow(f.output, f.line + atom.glue + atom.text)
    else Flow(f.output + [f.line], atom.text)
  }

  function AddAtoms(r: Ruler, f: Flow, atoms: seq<Atom>): Flow
    decreases |atoms|
  {
    if atoms == [] then f else AddAtoms(r, AddAtom(r, f, atoms[0]), atoms[1..])
  }

  lemma {:induction false} AddAtomsAppend(r: Ruler, f: Flow, xs: seq<Atom>, ys: seq<Atom>)
    ensures AddAtoms(r, f, xs + ys) == AddAtoms(r, AddAtoms(r, f, xs), ys)
    decreases |xs|
  {
    if xs == [] {
      assert xs + ys == ys;
    } else {
      assert (xs + ys)[1..] == xs[1..] + ys;
      AddAtomsAppend(r, AddAtom(r, f, xs[0]), xs[1..], ys);
    }
  }

  predicate LineTight(f: Flow) {
    f.line == [] || Tight(f.line)
  }

  /** Graphemes after the first follow on a line that holds something. */
  lemma {:induction false} GlyphsAreAtoms(r: Ruler, f: Flow, glyphs: seq<Text>, atoms: seq<Atom>)
    requires f.line != [] && |glyphs| == |atoms|
    requires forall i :: 0 <= i < |glyphs| ==> glyphs[i] != [] && atoms[i] == Atom(glyphs[i], [], false)
    ensures AddGlyphs(r, f, glyphs) == AddAtoms(r, f, atoms)
    decreases |glyphs|
  {
    if glyphs != [] {
      assert f.line + [] == f.line;
      assert AddGlyph(r, f, glyphs[0]) == AddAtom(r, f, atoms[0]);
      GlyphsAreAtoms(r, AddGlyph(r, f, glyphs[0]), glyphs[1..], atoms[1..]);
    }
  }

  /** A word too wide for a line starts one, unless it is on an empty line already. */
  lemma LongWordIsAtoms(r: Ruler, f: Flow, word: Text)
    requires Segments(r.face.segment) && word != [] && !r.Fits(word)
    ensures r.face.segment(word) != []
    ensures AddWord(r, f, word) == AddAtoms(r, f, Glyphs(r.face.segment(word)))
  {
    var glyphs := r.face.segment(word);
    assert glyphs != [];
    assert glyphs[0] in glyphs;
    var atoms := Glyphs(glyphs);
    assert [] + glyphs[0] == glyphs[0];
    assert AddGlyph(r, PushLine(f), glyphs[0]) == AddAtom(r, f, atoms[0]);
    forall i | 0 <= i < |glyphs[1..]|
      ensures glyphs[1..][i] != []
    {
      assert glyphs[i + 1] in glyphs;
    }
    GlyphsAreAtoms(r, AddAtom(r, f, atoms[0]), glyphs[1..], atoms[1..]);
  }

  lemma ShortWordIsAtom(r: Ruler, f: Flow, word: Text)
    requires r.Fits(word) && Tight(word) && LineTight(f)
    ensures AddWord(r, f, word) == AddAtoms(r, f, [Atom(word, [SPACE], false)])
  {
    var one := [Atom(word, [SPACE], false)];
    assert one[1..] == [];
    if f.line != [] {
      var candidate := f.line + [SPACE] + word;
      assert candidate[|candidate| - 1] == word[|word| - 1];
      TrimTight(candidate);
    }
  }

  lemma AddWordKeepsTight(r: Ruler, f: Flow, word: Text)
    requires Segments(r.face.segment) && LineTight(f) && word != [] && forall c :: c in word ==> !IsSpace(c)
    ensures LineTight(AddWord(r, f, word))
  {
    if !r.Fits(word) {
      LongWordKeepsTight(r, PushLine(f), word, r.face.segment(word));
    } else {
      assert word[0] in word && word[|word| - 1] in word;
      var candidate := f.line + [SPACE] + word;
      assert candidate[|candidate| - 1] == word[|word| - 1];
    }
  }

  lemma {:induction false} LongWordKeepsTight(r: Ruler, f: Flow, word: Text, glyphs: seq<Text>)
    requires Segments(r.face.segment) && LineTight(f) && forall c :: c in word ==> !IsSpace(c)
    requires forall g :: g in glyphs ==> g in r.face.segment(word)
    ensures LineTight(AddGlyphs(r, f, glyphs))
    decreases |glyphs|
  {
    if glyphs != [] {
      var glyph := glyphs[0];
      PieceOf(r.face.segment(word), glyph);
      assert glyph[0] in glyph && glyph[|glyph| - 1] in glyph;
      var candidate := f.line + glyph;
      assert candidate[|candidate| - 1] == glyph[|glyph| - 1];
      assert f.line == [] ==> candidate == glyph;
      LongWordKeepsTight(r, AddGlyph(r, f, glyph), word, glyphs[1..]);
    }
  }

  lemma {:induction false} WordsAreAtoms(r: Ruler, f: Flow, words: seq<Text>)
    requires Segments(r.face.segment) && LineTight(f)
    requires Inked(words)
    ensures AddWords(r, f, words) == AddAtoms(r, f, Atoms(r, words))
    decreases |words|
  {
    if words != [] {
      var word := words[0];
      assert word[0] in word && word[|word| - 1] in word;
      if r.Fits(word) {
        ShortWordIsAtom(r, f, word);
      } else {
        LongWordIsAtoms(r, f, word);
      }
      AddWordKeepsTight(r, f, word);
      WordsAreAtoms(r, AddWord(r, f, word), words[1..]);
      AddAtomsAppend(r, f, AtomsOf(r, word), Atoms(r, words[1..]));
    }
  }

  /** Where the lines end when the one from `a` reaches up to `i`. */
  function Stops(r: Ruler, atoms: seq<Atom>, a: nat, i: nat): seq<nat>
    requires a < i <= |atoms|
    decreases |atoms| - i
  {
    if i == |atoms| then [i] else if Takes(r, atoms, a, i) then Stops(r, atoms, a, i + 1) else [i] + Stops(r, atoms, i, i + 1)
  }

  lemma {:induction false} StopsFit(r: Ruler, atoms: seq<Atom>, a: nat, i: nat)
    requires a < i <= |atoms| && forall k :: a < k < i ==> Takes(r, atoms, a, k)
    ensures FirstFit(r, atoms, a, Stops(r, atoms, a, i))
    decreases |atoms| - i
  {
    if i == |atoms| {
      assert [i][1..] == [];
    } else if Takes(r, atoms, a, i) {
      StopsFit(r, atoms, a, i + 1);
    } else {
      StopsFit(r, atoms, i, i + 1);
      var ends := Stops(r, atoms, a, i);
      assert ends[0] == i && ends[1..] == Stops(r, atoms, i, i + 1);
    }
  }

  predicate Solid(atoms: seq<Atom>) {
    forall i :: 0 <= i < |atoms| ==> atoms[i].text != []
  }

  lemma {:induction false} JoinedIsSolid(atoms: seq<Atom>, a: nat, b: nat)
    requires Solid(atoms) && a < b <= |atoms|
    ensures Joined(atoms, a, b) != []
    decreases b
  {
  }

  function LinesOf(f: Flow): seq<Text> {
    f.output + [f.line]
  }

  lemma NextAtom(r: Ruler, atoms: seq<Atom>, out: seq<Text>, a: nat, i: nat, j: nat)
    requires Solid(atoms) && a < i < |atoms| && j == i + 1
    ensures AddAtoms(r, Flow(out, Joined(atoms, a, i)), atoms[i..])
      == if Takes(r, atoms, a, i) then AddAtoms(r, Flow(out, Joined(atoms, a, j)), atoms[j..])
         else AddAtoms(r, Flow(out + [Joined(atoms, a, i)], Joined(atoms, i, j)), atoms[j..])
  {
    JoinedIsSolid(atoms, a, i);
    assert atoms[i..][0] == atoms[i] && atoms[i..][1..] == atoms[j..];
  }

  /** The lines from `a` on, of which the first reaches up to `i` so far. */
  function LinesFrom(r: Ruler, atoms: seq<Atom>, a: nat, i: nat): seq<Text>
    requires a < i <= |atoms|
  {
    JoinedLines(atoms, a, Stops(r, atoms, a, i))
  }

  lemma NextLine(r: Ruler, atoms: seq<Atom>, a: nat, i: nat, j: nat)
    requires a < i < |atoms| && j == i + 1
    ensures LinesFrom(r, atoms, a, i)
      == if Takes(r, atoms, a, i) then LinesFrom(r, atoms, a, j) else [Joined(atoms, a, i)] + LinesFrom(r, atoms, i, j)
  {
    var ends := Stops(r, atoms, a, i);
    if !Takes(r, atoms, a, i) {
      assert ends[0] == i && ends[1..] == Stops(r, atoms, i, j);
    }
  }

  lemma LastLine(r: Ruler, atoms: seq<Atom>, a: nat)
    requires a < |atoms|
    ensures LinesFrom(r, atoms, a, |atoms|) == [Joined(atoms, a, |atoms|)]
  {
    var ends := [|atoms|];
    assert ends[1..] == [];
    assert JoinedLines(atoms, a, ends) == [Joined(atoms, a, |atoms|)] + [];
  }

  lemma PushedBefore(out: seq<Text>, line: Text, rest: seq<Text>)
    ensures (out + [line]) + rest == out + ([line] + rest)
  {
  }

  lemma {:induction false} FilledAtStops(r: Ruler, atoms: seq<Atom>, out: seq<Text>, a: nat, i: nat)
    requires Solid(atoms) && a < i <= |atoms|
    ensures LinesOf(AddAtoms(r, Flow(out, Joined(atoms, a, i)), atoms[i..])) == out + LinesFrom(r, atoms, a, i)
    decreases |atoms| - i
  {
    if i == |atoms| {
      assert atoms[i..] == [];
      LastLine(r, atoms, a);
    } else {
      var j := i + 1;
      NextAtom(r, atoms, out, a, i, j);
      NextLine(r, atoms, a, i, j);
      if Takes(r, atoms, a, i) {
        FilledAtStops(r, atoms, out, a, j);
      } else {
        FilledAtStops(r, atoms, out + [Joined(atoms, a, i)], i, j);
        PushedBefore(out, Joined(atoms, a, i), LinesFrom(r, atoms, i, j));
      }
    }
  }

  /** Atoms laid out from an empty line on. */
  lemma FilledFromStart(r: Ruler, atoms: seq<Atom>, f: Flow)
    requires Solid(atoms) && atoms != [] && (f.line == [] || atoms[0].starts)
    ensures var ends := Stops(r, atoms, 0, 1);
      && FirstFit(r, atoms, 0, ends)
      && LinesOf(AddAtoms(r, f, atoms)) == PushLine(f).output + JoinedLines(atoms, 0, ends)
  {
    StopsFit(r, atoms, 0, 1);
    assert AddAtom(r, f, atoms[0]) == Flow(PushLine(f).output, Joined(atoms, 0, 1));
    assert AddAtoms(r, f, atoms) == AddAtoms(r, Flow(PushLine(f).output, Joined(atoms, 0, 1)), atoms[1..]);
    FilledAtStops(r, atoms, PushLine(f).output, 0, 1);
  }

  lemma {:induction false} AtomsAreSolid(r: Ruler, words: seq<Text>)
    requires Segments(r.face.segment) && forall i :: 0 <= i < |words| ==> words[i] != []
    ensures Solid(Atoms(r, words)) && (words != [] ==> Atoms(r, words) != [])
  {
    if words != [] {
      AtomsAreSolid(r, words[1..]);
      var glyphs := r.face.segment(words[0]);
      assert glyphs != [];
      forall i | 0 <= i < |glyphs|
        ensures glyphs[i] != []
      {
        assert glyphs[i] in glyphs;
      }
    }
  }

  // ----- results

  /**
    A paragraph without words is one empty line. Another wraps into exactly those lines in which every
    line takes the next atom, a word or a grapheme of a word that is too wide, as long as it fits and
    does not start a line.
   */
  lemma WrapIsFirstFit(r: Ruler, p: Text, lines: seq<Text>)
    requires Segments(r.face.segment)
    ensures WrapParagraph(r, p) == lines <==>
      if Words(p) == [] then lines == [[]]
      else exists ends :: FirstFit(r, Atoms(r, Words(p)), 0, ends) && lines == JoinedLines(Atoms(r, Words(p)), 0, ends)
  {
    if Words(p) != [] {
      FilledIsFirstFit(r, p, lines);
    }
  }

  lemma FilledIsFirstFit(r: Ruler, p: Text, lines: seq<Text>)
    requires Segments(r.face.segment) && Words(p) != []
    ensures WrapParagraph(r, p) == lines <==>
      exists ends :: FirstFit(r, Atoms(r, Words(p)), 0, ends) && lines == JoinedLines(Atoms(r, Words(p)), 0, ends)
  {
    var atoms := Atoms(r, Words(p));
    WordsAreInked(p);
    AtomsAreSolid(r, Words(p));
    WordsAreAtoms(r, Flow([], []), Words(p));
    FilledFromStart(r, atoms, Flow([], []));
    var best := Stops(r, atoms, 0, 1);
    assert [] + JoinedLines(atoms, 0, best) == JoinedLines(atoms, 0, best);
    if ends :| FirstFit(r, atoms, 0, ends) && lines == JoinedLines(atoms, 0, ends) {
      FirstFitIsUnique(r, atoms, 0, ends, best);
    }
  }

  lemma {:induction false} LineCount(r: Ruler, atoms: seq<Atom>, from: nat, ends: seq<nat>)
    requires Broken(r, atoms, from, ends)
    ensures |JoinedLines(atoms, from, ends)| == |ends|
    decreases |ends|
  {
    if ends != [] {
      LineCount(r, atoms, ends[0], ends[1..]);
    }
  }

  /** And no way to break it into lines, long words at their graphemes and the others whole, has fewer. */
  lemma WrapUsesFewestLines(r: Ruler, p: Text, others: seq<nat>)
    requires Segments(r.face.segment) && Words(p) != []
    requires Widens(r, Atoms(r, Words(p))) && Broken(r, Atoms(r, Words(p)), 0, others)
    ensures |WrapParagraph(r, p)| <= |others|
  {
    var atoms := Atoms(r, Words(p));
    WrapIsFirstFit(r, p, WrapParagraph(r, p));
    var ends :| FirstFit(r, atoms, 0, ends) && WrapParagraph(r, p) == JoinedLines(atoms, 0, ends);
    FirstFitBreaks(r, atoms, 0, ends);
    LineCount(r, atoms, 0, ends);
    FirstFitIsMinimal(r, atoms, 0, ends, 0, others);
  }

  // ----- one long word

  /** Consecutive pieces of the graphemes, each of them one grapheme or within the width. */
  predicate Cut(r: Ruler, glyphs: seq<Text>, from: nat, ends: seq<nat>)
    decreases |ends|
  {
    if ends == [] then from == |glyphs|
    else
      && from < ends[0] <= |glyphs|
      && (ends[0] == from + 1 || r.Width(Flatten(glyphs[from..ends[0]])) <= r.maxWidth)
      && Cut(r, glyphs, ends[0], ends[1..])
  }

  /** No piece but the last could take the first grapheme of the next. */
  predicate Full(r: Ruler, glyphs: seq<Text>, from: nat, ends: seq<nat>)
    decreases |ends|
  {
    |ends| > 1 ==>
      && from < ends[0] < |glyphs|
      && r.Width(Flatten(glyphs[from..ends[0] + 1])) > r.maxWidth
      && Full(r, glyphs, ends[0], ends[1..])
  }

  function Pieces(glyphs: seq<Text>, from: nat, ends: seq<nat>): seq<Text>
    decreases |ends|
  {
    if ends == [] || !(from < ends[0] <= |glyphs|) then []
    else [Flatten(glyphs[from..ends[0]])] + Pieces(glyphs, ends[0], ends[1..])
  }

  /** The graphemes of a longer stretch are wider. */
  ghost predicate GlyphsWiden(r: Ruler, glyphs: seq<Text>) {
    forall a: nat, b: nat, c: nat, d: nat {:trigger glyphs[a..d], glyphs[b..c]} ::
      a <= b < c <= d <= |glyphs| ==> r.Width(Flatten(glyphs[b..c])) <= r.Width(Flatten(glyphs[a..d]))
  }

  lemma {:induction false} JoinedGlyphs(glyphs: seq<Text>, a: nat, b: nat)
    requires a < b <= |glyphs|
    ensures Joined(Glyphs(glyphs), a, b) == Flatten(glyphs[a..b])
    decreases b
  {
    if b == a + 1 {
      assert glyphs[a..b] == [glyphs[a]];
      FlattenOne(glyphs[a]);
    } else {
      JoinedGlyphs(glyphs, a, b - 1);
      assert glyphs[a..b] == glyphs[a..b - 1] + [glyphs[b - 1]];
      FlattenAppend(glyphs[a..b - 1], [glyphs[b - 1]]);
      FlattenOne(glyphs[b - 1]);
      assert Flatten(glyphs[a..b - 1]) + [] == Flatten(glyphs[a..b - 1]);
    }
  }

  /** Whether the next grapheme is taken depends on the piece it would make. */
  lemma TakesExactly(r: Ruler, glyphs: seq<Text>, a: nat, k: nat, j: nat)
    requires a < k < |glyphs| && j == k + 1
    ensures Takes(r, Glyphs(glyphs), a, k) <==> r.Width(Flatten(glyphs[a..j])) <= r.maxWidth
  {
    JoinedGlyphs(glyphs, a, j);
  }

  /** A line that was filled is one grapheme or a piece within the width. */
  lemma LineIsPiece(r: Ruler, glyphs: seq<Text>, a: nat, e: nat)
    requires a < e <= |glyphs| && forall k :: a < k < e ==> Takes(r, Glyphs(glyphs), a, k)
    ensures e == a + 1 || r.Width(Flatten(glyphs[a..e])) <= r.maxWidth
  {
    if a + 1 < e {
      assert Takes(r, Glyphs(glyphs), a, e - 1);
      TakesExactly(r, glyphs, a, e - 1, e);
    }
  }

  lemma {:induction false} FirstFitCuts(r: Ruler, glyphs: seq<Text>, from: nat, ends: seq<nat>)
    requires FirstFit(r, Glyphs(glyphs), from, ends)
    ensures Cut(r, glyphs, from, ends)
    ensures Pieces(glyphs, from, ends) == JoinedLines(Glyphs(glyphs), from, ends)
    decreases |ends|
  {
    if ends != [] {
      var e := ends[0];
      JoinedGlyphs(glyphs, from, e);
      LineIsPiece(r, glyphs, from, e);
      FirstFitCuts(r, glyphs, e, ends[1..]);
    }
  }

  lemma {:induction false} FirstFitFills(r: Ruler, glyphs: seq<Text>, from: nat, ends: seq<nat>)
    requires FirstFit(r, Glyphs(glyphs), from, ends)
    ensures Full(r, glyphs, from, ends)
    decreases |ends|
  {
    if |ends| > 1 {
      TakesExactly(r, glyphs, from, ends[0], ends[0] + 1);
      FirstFitFills(r, glyphs, ends[0], ends[1..]);
    }
  }

  lemma {:induction false} CutsBreak(r: Ruler, glyphs: seq<Text>, from: nat, ends: seq<nat>)
    requires Cut(r, glyphs, from, ends)
    ensures Broken(r, Glyphs(glyphs), from, ends)
    decreases |ends|
  {
    if ends != [] {
      JoinedGlyphs(glyphs, from, ends[0]);
      CutsBreak(r, glyphs, ends[0], ends[1..]);
    }
  }

  /**
    A word too wide for a line goes on lines of its own, after what is on the present one: they cut
    its graphemes into consecutive pieces within the width, or of one grapheme, and none but the
    last could take the first grapheme of the next.
   */
  lemma LongWordIsCut(r: Ruler, f: Flow, word: Text) returns (ends: seq<nat>)
    requires Segments(r.face.segment) && word != [] && r.Width(word) > r.maxWidth
    ensures var glyphs, g := r.face.segment(word), AddWord(r, f, word);
      && Cut(r, glyphs, 0, ends) && Full(r, glyphs, 0, ends)
      && g.output + [g.line] == (if f.line == [] then f.output else f.output + [f.line]) + Pieces(glyphs, 0, ends)
  {
    var glyphs := r.face.segment(word);
    LongWordIsAtoms(r, f, word);
    forall i | 0 <= i < |glyphs|
      ensures glyphs[i] != []
    {
      assert glyphs[i] in glyphs;
    }
    FilledFromStart(r, Glyphs(glyphs), f);
    ends := Stops(r, Glyphs(glyphs), 0, 1);
    FirstFitCuts(r, glyphs, 0, ends);
    FirstFitFills(r, glyphs, 0, ends);
  }

  /** When width grows with the graphemes, no cut into such pieces has fewer. */
  lemma LongWordIsCutLeast(r: Ruler, f: Flow, word: Text, others: seq<nat>)
    requires Segments(r.face.segment) && word != [] && r.Width(word) > r.maxWidth
    requires GlyphsWiden(r, r.face.segment(word)) && Cut(r, r.face.segment(word), 0, others)
    ensures var g := AddWord(r, f, word);
      |g.output + [g.line]| <= (if f.line == [] then |f.output| else |f.output| + 1) + |others|
  {
    var glyphs := r.face.segment(word);
    var atoms := Glyphs(glyphs);
    LongWordIsAtoms(r, f, word);
    forall i | 0 <= i < |glyphs|
      ensures glyphs[i] != []
    {
      assert glyphs[i] in glyphs;
    }
    FilledFromStart(r, atoms, f);
    var ends := Stops(r, atoms, 0, 1);
    FirstFitBreaks(r, atoms, 0, ends);
    LineCount(r, atoms, 0, ends);
    CutsBreak(r, glyphs, 0, others);
    GlyphAtomsWiden(r, glyphs);
    FirstFitIsMinimal(r, atoms, 0, ends, 0, others);
  }

  lemma GlyphAtomsWiden(r: Ruler, glyphs: seq<Text>)
    requires GlyphsWiden(r, glyphs)
    ensures Widens(r, Glyphs(glyphs))
  {
    forall a: nat, b: nat, c: nat, d: nat {:trigger Joined(Glyphs(glyphs), a, d), Joined(Glyphs(glyphs), b, c)} |
      a <= b < c <= d <= |glyphs|
      ensures r.Width(Joined(Glyphs(glyphs), b, c)) <= r.Width(Joined(Glyphs(glyphs), a, d))
    {
      JoinedGlyphs(glyphs, a, d);
      JoinedGlyphs(glyphs, b, c);
    }
  }
}
