/**
  Greedy line wrapping. Text is a sequence of UTF-16 code units, as in the original; how wide
  a text is and where its graphemes end is left to the typeface.
 */
module TextWrap {
  import opened Prelude

  type Unit = c: int | 0 <= c < 0x1_0000
  type Text = seq<Unit>

  const SPACE: Unit := 0x20
  const LINE_FEED: Unit := 0x0A
  const CARRIAGE_RETURN: Unit := 0x0D
  const ELLIPSIS: Unit := 0x2026

  datatype Metrics = Metrics(width: real, ascent: real, descent: real)

  /** How texts are measured at a font size, and how a text falls into graphemes. */
  datatype Face = Face(measure: (Text, real) -> Metrics, segment: Text -> seq<Text>)

  /** Segmentation cuts a text into non-empty pieces and loses nothing. */
  ghost predicate Segments(segment: Text -> seq<Text>) {
    forall t: Text :: Flatten(segment(t)) == t && forall g :: g in segment(t) ==> g != []
  }

  // ----- white space, words, paragraphs

  /** White space as a regular expression and trim() understand it. */
  predicate IsSpace(c: Unit) {
    || 0x09 <= c <= 0x0D || c == 0x20 || c == 0xA0 || c == 0x1680 || 0x2000 <= c <= 0x200A
    || c == 0x2028 || c == 0x2029 || c == 0x202F || c == 0x205F || c == 0x3000 || c == 0xFEFF
  }

  function TrimStart(t: Text): Text {
    if t != [] && IsSpace(t[0]) then TrimStart(t[1..]) else t
  }

  function TrimEnd(t: Text): Text {
    if t != [] && IsSpace(t[|t| - 1]) then TrimEnd(t[..|t| - 1]) else t
  }

  /** The length of the first run of non-space units. */
  function RunLength(t: Text): (n: nat)
    ensures n <= |t|
    ensures forall i :: 0 <= i < n ==> !IsSpace(t[i])
    ensures n < |t| ==> IsSpace(t[n])
  {
    if t == [] || IsSpace(t[0]) then 0 else 1 + RunLength(t[1..])
  }

  /** The maximal runs of non-space units: trimming, splitting at white space and dropping empties. */
  function Words(t: Text): (words: seq<Text>)
    ensures forall w :: w in words ==> w != [] && forall c :: c in w ==> !IsSpace(c)
    decreases |t|
  {
    if t == [] then []
    else if IsSpace(t[0]) then Words(t[1..])
    else [t[..RunLength(t)]] + Words(t[RunLength(t)..])
  }

  /** Splitting at a line feed, with or without a carriage return before it. */
  function Paragraphs(t: Text): (ps: seq<Text>)
    ensures ps != []
  {
    if t == [] then [[]]
    else if t[0] == LINE_FEED then [[]] + Paragraphs(t[1..])
    else if t[0] == CARRIAGE_RETURN && |t| > 1 && t[1] == LINE_FEED then [[]] + Paragraphs(t[2..])
    else
      var rest := Paragraphs(t[1..]);
      [[t[0]] + rest[0]] + rest[1..]
  }

  // ----- wrapping

  /** One wrapping task: a typeface at a size, the tracking between graphemes, the line width. */
  datatype Ruler = Ruler(face: Face, fontSize: real, tracking: real, maxWidth: real) {
    /** measureTrackedTextWidth */
    function Width(t: Text): real {
      if t == [] then 0.0
      else face.measure(t, fontSize).width + tracking * (Max(0, |face.segment(t)| - 1) as real)
    }

    predicate Fits(t: Text) {
      Width(t) <= maxWidth
    }
  }

  /** The lines pushed so far and the line being filled. */
  datatype Flow = Flow(output: seq<Text>, line: Text)

  function PushLine(f: Flow): Flow {
    Flow(if f.line != [] then f.output + [f.line] else f.output, [])
  }

  function AddGlyph(r: Ruler, f: Flow, glyph: Text): Flow {
    var candidate := f.line + glyph;
    if f.line != [] && !r.Fits(candidate) then Flow(f.output + [f.line], glyph) else Flow(f.output, candidate)
  }

  function AddGlyphs(r: Ruler, f: Flow, glyphs: seq<Text>): Flow
    decreases |glyphs|
  {
    if glyphs == [] then f else AddGlyphs(r, AddGlyph(r, f, glyphs[0]), glyphs[1..])
  }

  function AddWord(r: Ruler, f: Flow, word: Text): Flow {
    if !r.Fits(word) then AddGlyphs(r, PushLine(f), r.face.segment(word))
    else
      var candidate := f.line + [SPACE] + word;
      if f.line == [] || r.Fits(TrimEnd(TrimStart(candidate))) then Flow(f.output, if f.line != [] then candidate else word)
      else Flow(f.output + [f.line], word)
  }

  function AddWords(r: Ruler, f: Flow, words: seq<Text>): Flow
    decreases |words|
  {
    if words == [] then f else AddWords(r, AddWord(r, f, words[0]), words[1..])
  }

  function WrapParagraph(r: Ruler, paragraph: Text): seq<Text> {
    if Words(paragraph) == [] then [[]]
    else
      var f := AddWords(r, Flow([], []), Words(paragraph));
      f.output + [f.line]
  }

  function WrapAll(r: Ruler, paragraphs: seq<Text>): seq<Text> {
    if paragraphs == [] then [] else WrapParagraph(r, paragraphs[0]) + WrapAll(r, paragraphs[1..])
  }

  function Wrap(r: Ruler, text: Text): seq<Text> {
    WrapAll(r, Paragraphs(text))
  }

  // ----- lines already pushed stay as they are

  lemma {:induction false} GlyphsKeepOutput(r: Ruler, before: seq<Text>, f: Flow, glyphs: seq<Text>)
    decreases |glyphs|
    ensures AddGlyphs(r, Flow(before + f.output, f.line), glyphs)
      == var g := AddGlyphs(r, f, glyphs); Flow(before + g.output, g.line)
  {
    if glyphs != [] {
      var g := AddGlyph(r, f, glyphs[0]);
      assert before + f.output + [f.line] == before + (f.output + [f.line]);
      GlyphsKeepOutput(r, before, g, glyphs[1..]);
    }
  }

  lemma {:induction false} WordsKeepOutput(r: Ruler, before: seq<Text>, f: Flow, words: seq<Text>)
    decreases |words|
    ensures AddWords(r, Flow(before + f.output, f.line), words)
      == var g := AddWords(r, f, words); Flow(before + g.output, g.line)
  {
    if words != [] {
      assert before + f.output + [f.line] == before + (f.output + [f.line]);
      if !r.Fits(words[0]) {
        GlyphsKeepOutput(r, before, PushLine(f), r.face.segment(words[0]));
      }
      WordsKeepOutput(r, before, AddWord(r, f, words[0]), words[1..]);
    }
  }

  /** One turn of the loop over words. */
  method PlaceWord(r: Ruler, pushed: seq<Text>, current: Text, word: Text) returns (output: seq<Text>, line: Text)
    ensures Flow(output, line) == AddWord(r, Flow(pushed, current), word)
  {
    output, line := pushed, current;
    if r.Width(word) > r.maxWidth {
      if line != [] {
        output := output + [line];
      }
      line := [];
      var glyphs := r.face.segment(word);
      for k := 0 to |glyphs|
        invariant AddGlyphs(r, Flow(output, line), glyphs[k..]) == AddWord(r, Flow(pushed, current), word)
      {
        var candidate := line + glyphs[k];
        if line != [] && r.Width(candidate) > r.maxWidth {
          output := output + [line];
          line := glyphs[k];
        } else {
          line := candidate;
        }
      }
    } else {
      var candidate := line + [SPACE] + word;
      if line == [] || r.Width(TrimEnd(TrimStart(candidate))) <= r.maxWidth {
        line := if line != [] then candidate else word;
      } else {
        output := output + [line];
        line := word;
      }
    }
  }

  lemma ParagraphAppended(r: Ruler, before: seq<Text>, paragraph: Text)
    requires Words(paragraph) != []
    ensures var f := AddWords(r, Flow(before, []), Words(paragraph));
      f.output + [f.line] == before + WrapParagraph(r, paragraph)
  {
    WordsKeepOutput(r, before, Flow([], []), Words(paragraph));
    assert before + [] == before;
  }

  /** One turn of the loop over paragraphs. */
  method PlaceParagraph(r: Ruler, pushed: seq<Text>, paragraph: Text) returns (output: seq<Text>)
    ensures output == pushed + WrapParagraph(r, paragraph)
  {
    output := pushed;
    var words := Words(paragraph);
    if words == [] {
      output := output + [[]];
      return;
    }
    var line: Text := [];
    for i := 0 to |words|
      invariant AddWords(r, Flow(output, line), words[i..]) == AddWords(r, Flow(pushed, []), words)
    {
      output, line := PlaceWord(r, output, line, words[i]);
    }
    output := output + [line];
    ParagraphAppended(r, pushed, paragraph);
  }

  method WrapText(r: Ruler, text: Text) returns (output: seq<Text>)
    ensures output == Wrap(r, text)
  {
    output := [];
    var paragraphs := Paragraphs(text);
    for p := 0 to |paragraphs|
      invariant output + WrapAll(r, paragraphs[p..]) == Wrap(r, text)
    {
      assert paragraphs[p..][1..] == paragraphs[p + 1..];
      ghost var placed, rest := WrapParagraph(r, paragraphs[p]), WrapAll(r, paragraphs[p + 1..]);
      assert output + (placed + rest) == output + placed + rest;
      output := PlaceParagraph(r, output, paragraphs[p]);
    }
  }
}
