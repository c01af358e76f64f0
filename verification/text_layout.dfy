/** prepareTextLayout: the descending font-size scan and the three overflow policies. */
module TextLayout {
  import opened Prelude
  import opened TextWrap

  datatype Overflow = Refuse | Truncate | ScaleDown

  datatype Prepared =
    | Skip
    | Unfit
    | Paint(fontSize: real, lines: seq<Text>, ascent: real, descent: real, trackingPixels: real)

  const EM: Text := [0x4D]

  datatype Options = Options(
    text: Text,
    width: real,
    height: real,
    baseFontSize: real,
    readabilityFloor: real,
    maxLines: nat,
    lineHeight: real,
    trackingPixels: real,
    overflow: Overflow,
    face: Face)
  {
    function BoxFloor(): real {
      height / RealMax(1.0, maxLines as real * lineHeight)
    }

    function MinimumSize(): real {
      match overflow
      case ScaleDown => readabilityFloor
      case Truncate => RealMax(readabilityFloor, RealMin(baseFontSize, BoxFloor()))
      case Refuse => baseFontSize
    }

    function StartSize(): real {
      RealMax(1.0, baseFontSize)
    }

    function At(size: real): Ruler {
      Ruler(face, size, trackingPixels, width)
    }

    function LinesAt(size: real): seq<Text> {
      Wrap(At(size), text)
    }

    function LineMetrics(line: Text, size: real): Metrics {
      face.measure(if line == [] then EM else line, size)
    }

    function MaxAscent(lines: seq<Text>, size: real): (a: real)
      ensures a >= 0.0
    {
      if lines == [] then 0.0 else RealMax(LineMetrics(lines[0], size).ascent, MaxAscent(lines[1..], size))
    }

    function MaxDescent(lines: seq<Text>, size: real): (d: real)
      ensures d >= 0.0
    {
      if lines == [] then 0.0 else RealMax(LineMetrics(lines[0], size).descent, MaxDescent(lines[1..], size))
    }

    function Widest(lines: seq<Text>, size: real): (w: real)
      ensures w >= 0.0
      ensures forall i :: 0 <= i < |lines| ==> At(size).Width(lines[i]) <= w
      ensures w == 0.0 || exists i :: 0 <= i < |lines| && w == At(size).Width(lines[i])
    {
      if lines == [] then 0.0
      else
        var rest := Widest(lines[1..], size);
        var first := At(size).Width(lines[0]);
        assert forall i :: 1 <= i < |lines| ==> lines[i] == lines[1..][i - 1];
        RealMax(first, rest)
    }

    /** The height of the line gaps. */
    function Leading(lineCount: nat, size: real): real {
      Max(0, lineCount - 1) as real * size * lineHeight
    }

    function PaintedHeight(lines: seq<Text>, size: real): real {
      MaxAscent(lines, size) + MaxDescent(lines, size) + Leading(|lines|, size)
    }

    predicate LinesFit(lines: seq<Text>, size: real) {
      |lines| <= maxLines && Widest(lines, size) <= width && PaintedHeight(lines, size) <= height
    }

    predicate FitsAt(size: real) {
      LinesFit(LinesAt(size), size)
    }

    /** The first size of the scan, from `size` down in steps of one half, at which the text fits. */
    function Scan(size: real): Option<real>
      decreases 2.0 * (size - MinimumSize()) + 1.0
    {
      if size < MinimumSize() - 0.001 then None
      else if FitsAt(size) then Some(size)
      else Scan(size - 0.5)
    }

    function PaintAt(size: real, lines: seq<Text>): Prepared {
      Paint(size, lines, MaxAscent(lines, size), MaxDescent(lines, size), trackingPixels)
    }

    /** The longest prefix of a line that an ellipsis can follow within the width, or nothing. */
    function Shorten(line: Text, size: real): Text {
      if line != [] && At(size).Width(line + [ELLIPSIS]) > width then Shorten(line[..|line| - 1], size) else line
    }

    function TruncatedLines(size: real): seq<Text> {
      var all := LinesAt(size);
      var kept := if |all| <= maxLines then all else all[..maxLines];
      if kept == [] then kept
      else kept[..|kept| - 1] + [TrimEnd(Shorten(kept[|kept| - 1], size)) + [ELLIPSIS]]
    }

    function Prepare(): Prepared {
      match Scan(StartSize())
      case Some(size) => PaintAt(size, LinesAt(size))
      case None =>
        match overflow
        case Refuse => Skip
        case ScaleDown => Unfit
        case Truncate => var size := RealMax(1.0, MinimumSize()); PaintAt(size, TruncatedLines(size))
    }
  }

  /** The descending scan. */
  method ScanSizes(o: Options, minimumSize: real) returns (fits: bool, fontSize: real, lines: seq<Text>)
    requires minimumSize == o.MinimumSize()
    ensures fits ==> o.Scan(o.StartSize()) == Some(fontSize) && lines == o.LinesAt(fontSize)
    ensures !fits ==> o.Scan(o.StartSize()) == None
  {
    fontSize := RealMax(1.0, o.baseFontSize);
    lines := [];
    fits := false;
    while fontSize >= minimumSize - 0.001
      invariant o.Scan(o.StartSize()) == o.Scan(fontSize)
      decreases 2.0 * (fontSize - minimumSize) + 1.0
    {
      lines := WrapText(o.At(fontSize), o.text);
      fits := o.LinesFit(lines, fontSize);
      if fits {
        return;
      }
      fontSize := fontSize - 0.5;
    }
    fits := false;
  }

  method ShortenLine(o: Options, line: Text, size: real) returns (last: Text)
    ensures last == o.Shorten(line, size)
  {
    last := line;
    while last != [] && o.At(size).Width(last + [ELLIPSIS]) > o.width
      invariant o.Shorten(last, size) == o.Shorten(line, size)
      decreases |last|
    {
      last := last[..|last| - 1];
    }
  }

  method CutToLines(o: Options, size: real) returns (lines: seq<Text>)
    ensures lines == o.TruncatedLines(size)
  {
    lines := WrapText(o.At(size), o.text);
    if |lines| > o.maxLines {
      lines := lines[..o.maxLines];
    }
    if lines != [] {
      var last := ShortenLine(o, lines[|lines| - 1], size);
      lines := lines[..|lines| - 1] + [TrimEnd(last) + [ELLIPSIS]];
    }
  }

  method PrepareTextLayout(o: Options) returns (prepared: Prepared)
    ensures prepared == o.Prepare()
  {
    var boxFloor := o.BoxFloor();
    var minimumSize :=
      if o.overflow.ScaleDown? then o.readabilityFloor
      else if o.overflow.Truncate? then RealMax(o.readabilityFloor, RealMin(o.baseFontSize, boxFloor))
      else o.baseFontSize;
    var fits, fontSize, lines := ScanSizes(o, minimumSize);
    if !fits && o.overflow == Refuse {
      return Skip;
    }
    if !fits && o.overflow == ScaleDown {
      return Unfit;
    }
    if !fits {
      fontSize := RealMax(1.0, minimumSize);
      lines := CutToLines(o, fontSize);
    }
    prepared := o.PaintAt(fontSize, lines);
  }
}
