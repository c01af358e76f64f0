/** What wrapping keeps and what it promises, for any typeface. */
module TextWrapResults {
  import opened Prelude
  import opened TextWrap

  // ----- nothing but white space is lost, added or moved

  /** The non-space units of a text, in order. */
  function Ink(t: Text): Text {
    if t == [] then [] else (if IsSpace(t[0]) then [] else [t[0]]) + Ink(t[1..])
  }

  lemma {:induction false} InkAppend(a: Text, b: Text)
    ensures Ink(a + b) == Ink(a) + Ink(b)
  {
    if a == [] {
      assert a + b == b;
    } else {
      assert (a + b)[1..] == a[1..] + b;
      InkAppend(a[1..], b);
    }
  }

  lemma {:induction false} InkOfWords(t: Text)
    ensures Ink(Flatten(Words(t))) == Ink(t)
    decreases |t|
  {
    if t == [] {
    } else if IsSpace(t[0]) {
      InkOfWords(t[1..]);
    } else {
      var n := RunLength(t);
      InkOfWords(t[n..]);
      InkAppend(t[..n], Flatten(Words(t[n..])));
      InkAppend(t[..n], t[n..]);
      assert t[..n] + t[n..] == t;
      assert Words(t)[1..] == Words(t[n..]);
    }
  }

  /** Everything a flow holds, in reading order. */
  function Content(f: Flow): Text {
    Ink(Flatten(f.output)) + Ink(f.line)
  }

  lemma ContentOfPush(output: seq<Text>, line: Text)
    ensures Ink(Flatten(output + [line])) == Ink(Flatten(output)) + Ink(line)
  {
    FlattenAppend(output, [line]);
    FlattenOne(line);
    InkAppend(Flatten(output), line);
  }

  lemma Regroup(a: Text, b: Text, c: Text)
    ensures (a + b) + c == a + (b + c)
  {
  }

  lemma GlyphAddsContent(r: Ruler, f: Flow, glyph: Text)
    ensures Content(AddGlyph(r, f, glyph)) == Content(f) + Ink(glyph)
  {
    ContentOfPush(f.output, f.line);
    InkAppend(f.line, glyph);
    Regroup(Ink(Flatten(f.output)), Ink(f.line), Ink(glyph));
  }

  lemma {:induction false} GlyphsAddContent(r: Ruler, f: Flow, glyphs: seq<Text>)
    ensures Content(AddGlyphs(r, f, glyphs)) == Content(f) + Ink(Flatten(glyphs))
    decreases |glyphs|
  {
    if glyphs == [] {
      assert Content(f) + [] == Content(f);
    } else {
      GlyphAddsContent(r, f, glyphs[0]);
      GlyphsAddContent(r, AddGlyph(r, f, glyphs[0]), glyphs[1..]);
      InkAppend(glyphs[0], Flatten(glyphs[1..]));
      Regroup(Content(f), Ink(glyphs[0]), Ink(Flatten(glyphs[1..])));
    }
  }

  lemma PushKeepsContent(f: Flow)
    ensures Content(PushLine(f)) == Content(f)
    ensures Content(Flow(f.output + [f.line], [])) == Content(f)
  {
    ContentOfPush(f.output, f.line);
  }

  lemma InkOfJoin(line: Text, word: Text)
    ensures Ink(line + [SPACE] + word) == Ink(line) + Ink(word)
  {
    InkAppend(line + [SPACE], word);
    InkAppend(line, [SPACE]);
    assert Ink(line) + [] == Ink(line);
  }

  /** What a word that fits on a line does to the flow. */
  lemma FittingWord(r: Ruler, f: Flow, word: Text)
    requires r.Fits(word)
    ensures AddWord(r, f, word) == Flow(f.output, f.line + [SPACE] + word)
      || (f.line == [] && AddWord(r, f, word) == Flow(f.output, word))
      || AddWord(r, f, word) == Flow(f.output + [f.line], word)
  {
  }

  /** Behind what is on the line, */
  lemma JoiningAddsContent(output: seq<Text>, line: Text, word: Text)
    ensures Content(Flow(output, line + [SPACE] + word)) == Content(Flow(output, line)) + Ink(word)
  {
    InkOfJoin(line, word);
    Regroup(Ink(Flatten(output)), Ink(line), Ink(word));
  }

  /** on an empty line, */
  lemma StartingAddsContent(output: seq<Text>, word: Text)
    ensures Content(Flow(output, word)) == Content(Flow(output, [])) + Ink(word)
  {
    assert Ink(Flatten(output)) + [] == Ink(Flatten(output));
  }

  /** and on the next line, a word adds its ink and nothing else. */
  lemma BreakingAddsContent(output: seq<Text>, line: Text, word: Text)
    ensures Content(Flow(output + [line], word)) == Content(Flow(output, line)) + Ink(word)
  {
    ContentOfPush(output, line);
    Regroup(Ink(Flatten(output)), Ink(line), Ink(word));
  }

  lemma WordAddsContent(r: Ruler, f: Flow, word: Text)
    requires Flatten(r.face.segment(word)) == word
    ensures Content(AddWord(r, f, word)) == Content(f) + Ink(word)
  {
    if !r.Fits(word) {
      PushKeepsContent(f);
      GlyphsAddContent(r, PushLine(f), r.face.segment(word));
      assert AddWord(r, f, word) == AddGlyphs(r, PushLine(f), r.face.segment(word));
    } else {
      FittingWord(r, f, word);
      JoiningAddsContent(f.output, f.line, word);
      StartingAddsContent(f.output, word);
      BreakingAddsContent(f.output, f.line, word);
    }
  }

  lemma {:induction false} WordsAddContent(r: Ruler, f: Flow, words: seq<Text>)
    requires Segments(r.face.segment)
    ensures Content(AddWords(r, f, words)) == Content(f) + Ink(Flatten(words))
    decreases |words|
  {
    if words == [] {
      assert Content(f) + [] == Content(f);
    } else {
      WordAddsContent(r, f, words[0]);
      WordsAddContent(r, AddWord(r, f, words[0]), words[1..]);
      InkAppend(words[0], Flatten(words[1..]));
      Regroup(Content(f), Ink(words[0]), Ink(Flatten(words[1..])));
    }
  }

  lemma ParagraphKeepsInk(r: Ruler, paragraph: Text)
    requires Segments(r.face.segment)
    ensures WrapParagraph(r, paragraph) != []
    ensures Ink(Flatten(WrapParagraph(r, paragraph))) == Ink(paragraph)
  {
    InkOfWords(paragraph);
    if Words(paragraph) == [] {
      FlattenOne<Unit>([]);
    } else {
      var f := AddWords(r, Flow([], []), Words(paragraph));
      WordsAddContent(r, Flow([], []), Words(paragraph));
      ContentOfPush(f.output, f.line);
    }
  }

  lemma EmptyHead(ps: seq<Text>)
    ensures Flatten([[]] + ps) == Flatten(ps)
  {
    assert ([[]] + ps)[1..] == ps;
  }

  lemma GrownHead(c: Unit, ps: seq<Text>)
    requires ps != []
    ensures Flatten([[c] + ps[0]] + ps[1..]) == [c] + Flatten(ps)
  {
    assert ([[c] + ps[0]] + ps[1..])[1..] == ps[1..];
    Regroup([c], ps[0], Flatten(ps[1..]));
  }

  lemma {:induction false} InkOfParagraphs(t: Text)
    ensures Ink(Flatten(Paragraphs(t))) == Ink(t)
    decreases |t|
  {
    if t == [] {
    } else if t[0] == LINE_FEED {
      EmptyHead(Paragraphs(t[1..]));
      InkOfParagraphs(t[1..]);
    } else if t[0] == CARRIAGE_RETURN && |t| > 1 && t[1] == LINE_FEED {
      EmptyHead(Paragraphs(t[2..]));
      InkOfParagraphs(t[2..]);
      assert t[1..][1..] == t[2..];
    } else {
      GrownHead(t[0], Paragraphs(t[1..]));
      InkOfParagraphs(t[1..]);
      InkAppend([t[0]], Flatten(Paragraphs(t[1..])));
      InkAppend([t[0]], t[1..]);
      assert [t[0]] + t[1..] == t;
    }
  }

  lemma {:induction false} WrapAllKeepsInk(r: Ruler, paragraphs: seq<Text>)
    requires Segments(r.face.segment)
    ensures Ink(Flatten(WrapAll(r, paragraphs))) == Ink(Flatten(paragraphs))
  {
    if paragraphs != [] {
      var first, rest := WrapParagraph(r, paragraphs[0]), WrapAll(r, paragraphs[1..]);
      ParagraphKeepsInk(r, paragraphs[0]);
      WrapAllKeepsInk(r, paragraphs[1..]);
      FlattenAppend(first, rest);
      InkAppend(Flatten(first), Flatten(rest));
      InkAppend(paragraphs[0], Flatten(paragraphs[1..]));
    }
  }

  /** The lines read in order hold exactly the non-space text. */
  lemma WrapKeepsInk(r: Ruler, text: Text)
    requires Segments(r.face.segment)
    ensures Ink(Flatten(Wrap(r, text))) == Ink(text)
    ensures Wrap(r, text) != []
  {
    WrapAllKeepsInk(r, Paragraphs(text));
    InkOfParagraphs(text);
    ParagraphKeepsInk(r, Paragraphs(text)[0]);
  }

  // ----- paragraphs stay apart

  /** The number of lines before paragraph `k`. */
  function LinesBefore(r: Ruler, paragraphs: seq<Text>, k: nat): nat
    requires k <= |paragraphs|
  {
    |WrapAll(r, paragraphs[..k])|
  }

  lemma {:induction false} WrapAllAppend(r: Ruler, ps: seq<Text>, qs: seq<Text>)
    ensures WrapAll(r, ps + qs) == WrapAll(r, ps) + WrapAll(r, qs)
  {
    if ps == [] {
      assert ps + qs == qs;
    } else {
      assert (ps + qs)[1..] == ps[1..] + qs;
      WrapAllAppend(r, ps[1..], qs);
    }
  }

  lemma WrapAllAt(r: Ruler, ps: seq<Text>, k: nat)
    requires k < |ps|
    ensures LinesBefore(r, ps, k + 1) == LinesBefore(r, ps, k) + |WrapParagraph(r, ps[k])|
    ensures WrapAll(r, ps) == WrapAll(r, ps[..k]) + WrapParagraph(r, ps[k]) + WrapAll(r, ps[k + 1..])
  {
    var one: seq<Text> := [ps[k]];
    assert one[1..] == [];
    assert WrapAll(r, one) == WrapParagraph(r, ps[k]);
    assert ps[..k + 1] == ps[..k] + one;
    assert ps == ps[..k + 1] + ps[k + 1..];
    WrapAllAppend(r, ps[..k], one);
    WrapAllAppend(r, ps[..k + 1], ps[k + 1..]);
  }

  /** The output is cut at paragraph ends: block k is paragraph k wrapped, is never empty and holds exactly its text. */
  lemma ParagraphsStayApart(r: Ruler, text: Text, k: nat)
    requires Segments(r.face.segment) && k < |Paragraphs(text)|
    ensures
      var ps := Paragraphs(text);
      var from, to := LinesBefore(r, ps, k), LinesBefore(r, ps, k + 1);
      && (k == 0 ==> from == 0) && from < to <= |Wrap(r, text)| && (k == |ps| - 1 ==> to == |Wrap(r, text)|)
      && Wrap(r, text)[from..to] == WrapParagraph(r, ps[k])
      && Ink(Flatten(Wrap(r, text)[from..to])) == Ink(ps[k])
  {
    var ps := Paragraphs(text);
    var from, to := LinesBefore(r, ps, k), LinesBefore(r, ps, k + 1);
    WrapAllAt(r, ps, k);
    assert Wrap(r, text)[from..to] == WrapParagraph(r, ps[k]);
    assert ps[..|ps|] == ps;
    ParagraphKeepsInk(r, ps[k]);
  }

  // ----- lines are as wide as allowed, or cannot be cut

  /** Within the width, or one grapheme of one word. */
  ghost predicate LineOk(r: Ruler, words: seq<Text>, line: Text) {
    r.Fits(line) || exists w :: w in words && line in r.face.segment(w)
  }

  /** Starts and ends with ink. */
  predicate Tight(line: Text) {
    line != [] && !IsSpace(line[0]) && !IsSpace(line[|line| - 1])
  }

  ghost predicate FlowOk(r: Ruler, words: seq<Text>, f: Flow) {
    && (forall line :: line in f.output ==> Tight(line) && LineOk(r, words, line))
    && (f.line != [] ==> Tight(f.line) && LineOk(r, words, f.line))
  }

  lemma {:induction false} PieceOf(pieces: seq<Text>, g: Text)
    requires g in pieces
    ensures forall c :: c in g ==> c in Flatten(pieces)
  {
    if g != pieces[0] {
      PieceOf(pieces[1..], g);
    }
  }

  lemma {:induction false} GlyphsKeepFlow(r: Ruler, words: seq<Text>, w: Text, f: Flow, glyphs: seq<Text>)
    requires w in words && FlowOk(r, words, f)
    requires forall i :: 0 <= i < |glyphs| ==> glyphs[i] in r.face.segment(w) && Tight(glyphs[i])
    ensures FlowOk(r, words, AddGlyphs(r, f, glyphs))
    ensures f.line != [] || glyphs != [] ==> AddGlyphs(r, f, glyphs).line != []
    decreases |glyphs|
  {
    if glyphs != [] {
      var candidate := f.line + glyphs[0];
      assert candidate[|candidate| - 1] == glyphs[0][|glyphs[0]| - 1];
      assert f.line == [] ==> candidate == glyphs[0];
      assert FlowOk(r, words, AddGlyph(r, f, glyphs[0]));
      GlyphsKeepFlow(r, words, w, AddGlyph(r, f, glyphs[0]), glyphs[1..]);
    }
  }

  lemma TrimTight(t: Text)
    requires Tight(t)
    ensures TrimEnd(TrimStart(t)) == t
  {
  }

  lemma WordKeepsFlow(r: Ruler, words: seq<Text>, f: Flow, word: Text)
    requires Segments(r.face.segment) && FlowOk(r, words, f)
    requires word in words && word != [] && forall c :: c in word ==> !IsSpace(c)
    ensures FlowOk(r, words, AddWord(r, f, word))
    ensures AddWord(r, f, word).line != []
  {
    if !r.Fits(word) {
      forall g | g in r.face.segment(word)
        ensures Tight(g)
      {
        PieceOf(r.face.segment(word), g);
      }
      assert r.face.segment(word) != [];
      GlyphsKeepFlow(r, words, word, PushLine(f), r.face.segment(word));
    } else if f.line != [] {
      var candidate := f.line + [SPACE] + word;
      assert candidate[|candidate| - 1] == word[|word| - 1];
      TrimTight(candidate);
    }
  }

  lemma {:induction false} WordsKeepFlow(r: Ruler, all: seq<Text>, f: Flow, words: seq<Text>)
    requires Segments(r.face.segment) && FlowOk(r, all, f)
    requires forall i :: 0 <= i < |words| ==> words[i] in all && words[i] != [] && forall c :: c in words[i] ==> !IsSpace(c)
    ensures FlowOk(r, all, AddWords(r, f, words))
    ensures f.line != [] || words != [] ==> AddWords(r, f, words).line != []
    decreases |words|
  {
    if words != [] {
      WordKeepsFlow(r, all, f, words[0]);
      WordsKeepFlow(r, all, AddWord(r, f, words[0]), words[1..]);
    }
  }

  predicate Inked(ws: seq<Text>) {
    forall i :: 0 <= i < |ws| ==> ws[i] != [] && forall c :: c in ws[i] ==> !IsSpace(c)
  }

  lemma WordsAreInked(p: Text)
    ensures Inked(Words(p))
  {
    forall i | 0 <= i < |Words(p)|
      ensures Words(p)[i] != [] && forall c :: c in Words(p)[i] ==> !IsSpace(c)
    {
      assert Words(p)[i] in Words(p);
    }
  }

  /** The words of all paragraphs. */
  function AllWords(paragraphs: seq<Text>): seq<Text> {
    if paragraphs == [] then [] else Words(paragraphs[0]) + AllWords(paragraphs[1..])
  }

  lemma {:induction false} WrapAllLinesOk(r: Ruler, paragraphs: seq<Text>, line: Text)
    requires Segments(r.face.segment) && line in WrapAll(r, paragraphs)
    ensures line == [] || (Tight(line) && LineOk(r, AllWords(paragraphs), line))
  {
    if line in WrapParagraph(r, paragraphs[0]) {
      var words := Words(paragraphs[0]);
      assert forall i :: 0 <= i < |words| ==> words[i] in words;
      WordsKeepFlow(r, words, Flow([], []), words);
    } else {
      WrapAllLinesOk(r, paragraphs[1..], line);
    }
  }

  /**
    Every line is empty, or within the width, or a single grapheme of one word; and a line
    that is not empty starts and ends with ink.
   */
  lemma LinesWithinWidth(r: Ruler, text: Text, line: Text)
    requires Segments(r.face.segment) && line in Wrap(r, text)
    ensures line == [] || (Tight(line) && LineOk(r, AllWords(Paragraphs(text)), line))
  {
    WrapAllLinesOk(r, Paragraphs(text), line);
  }
}
