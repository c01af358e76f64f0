/**
  Fitting newly converted template text: every marked text box gets the first of a falling
  row of sizes at which it fits its box, or is cut short at the floor.
 */
module FitText {
  import opened Prelude
  import opened TextWrap

  /** metadata.templateTextBox */
  datatype Marker = Marker(width: real, height: real, maxLines: nat, truncates: bool)

  /** A text box; `rest` stands for every property the fitting does not read or write. */
  datatype TextBox = TextBox(
    text: Text,
    fontSize: real,
    charSpacing: real,
    splitByGrapheme: bool,
    marker: Option<Marker>,
    rest: nat)

  /** A scene object: a text box, which has no children, or anything else. */
  datatype Object = Box(box: TextBox) | Other(rest: nat, children: seq<Object>)

  datatype Typeset = Typeset(width: real, height: real, lines: nat)

  /** How the canvas lays out a text: text, width, font size, character spacing, other properties. */
  type Typesetter = (Text, real, real, real, nat) -> Typeset

  /** `readable` says that a text holds a letter or a digit. */
  datatype Engine = Engine(typeset: Typesetter, readable: Text -> bool)

  /** One fitting task: the box as it was, its marker, and the floor of the placement. */
  datatype Task = Task(engine: Engine, box: TextBox, marker: Marker, placementFloor: real) {
    function Floor(): real {
      RealMin(box.fontSize, placementFloor)
    }

    /** Tracking times one thousand, in pixels. */
    function Tracking(): real {
      box.charSpacing * box.fontSize / 1000.0
    }

    function SpacingAt(size: real): real
      requires size != 0.0
    {
      Tracking() * 1000.0 / size
    }

    predicate FitsAt(text: Text, size: real)
      requires size != 0.0
    {
      var t := engine.typeset(text, marker.width, size, SpacingAt(size), box.rest);
      t.width <= marker.width + 0.1 && t.lines <= marker.maxLines && t.height <= marker.height + size * 0.2
    }

    function Next(size: real): real {
      RealMax(Floor(), size - 1.0)
    }

    function StepsLeft(size: real): nat
      requires size >= Floor()
    {
      if size == Floor() then 0 else (size - Floor()).Floor + 1
    }

    /** The first size from `size` down at which the text fits. */
    function FirstFit(size: real): (fit: Option<real>)
      requires 0.0 < Floor() <= size
      ensures fit.Some? ==> Floor() <= fit.value <= size
      decreases StepsLeft(size)
    {
      if FitsAt(box.text, size) then Some(size)
      else if size == Floor() then None
      else FirstFit(Next(size))
    }

    /** The first shortening of `text` that fits at the floor with an ellipsis. */
    function FirstCut(text: Text): Option<Text>
      requires 0.0 < Floor()
      decreases |text|
    {
      if text == [] then None
      else
        var shorter := Shortened(text);
        if FitsAt(shorter + [ELLIPSIS], Floor()) then Some(shorter + [ELLIPSIS]) else FirstCut(shorter)
    }

    function Fitted(text: Text, size: real): TextBox
      requires size != 0.0
    {
      box.(text := text, fontSize := size, charSpacing := SpacingAt(size), splitByGrapheme := false, marker := None)
    }

    /** The fitted box, or None when the original throws. */
    function Fit(): Option<TextBox>
      requires 0.0 < Floor()
    {
      match FirstFit(box.fontSize)
      case Some(size) => Some(Fitted(box.text, size))
      case None =>
        if !marker.truncates then None
        else match FirstCut(box.text)
          case Some(text) => Some(Fitted(text, Floor()))
          case None => None
    }
  }

  /** Drops the last word and the white space before it, or the last unit if there is no such word. */
  function Shortened(text: Text): (shorter: Text)
    requires text != []
    ensures |shorter| < |text| && shorter <= text
  {
    var k := LastWordStart(text);
    if 0 < k < |text| then
      TrimEndShortens(text[..k]);
      TrimEnd(text[..k])
    else text[..|text| - 1]
  }

  /** Where the run of non-space units at the end begins. */
  function LastWordStart(text: Text): (k: nat)
    ensures k <= |text|
    ensures forall i :: k <= i < |text| ==> !IsSpace(text[i])
    ensures k > 0 ==> IsSpace(text[k - 1])
  {
    if text == [] || IsSpace(text[|text| - 1]) then |text| else LastWordStart(text[..|text| - 1])
  }

  lemma {:induction false} TrimEndShortens(t: Text)
    ensures TrimEnd(t) <= t
    decreases |t|
  {
    if t != [] && IsSpace(t[|t| - 1]) {
      TrimEndShortens(t[..|t| - 1]);
    }
  }

  // ----- one box

  method ScanSizes(t: Task) returns (fitted: Option<real>)
    requires 0.0 < t.Floor()
    ensures fitted == t.FirstFit(t.box.fontSize)
  {
    fitted := None;
    var size := t.box.fontSize;
    while size >= t.Floor()
      invariant t.Floor() <= size
      invariant t.FirstFit(size) == t.FirstFit(t.box.fontSize)
      decreases t.StepsLeft(size)
    {
      if t.FitsAt(t.box.text, size) {
        return Some(size);
      }
      if size == t.Floor() {
        break;
      }
      size := RealMax(t.Floor(), size - 1.0);
    }
  }

  method CutText(t: Task) returns (cut: Option<Text>)
    requires 0.0 < t.Floor()
    ensures cut == t.FirstCut(t.box.text)
  {
    var text := t.box.text;
    while |text| > 0
      invariant t.FirstCut(text) == t.FirstCut(t.box.text)
      decreases |text|
    {
      text := Shortened(text);
      if t.FitsAt(text + [ELLIPSIS], t.Floor()) {
        return Some(text + [ELLIPSIS]);
      }
    }
    cut := None;
  }

  method FitBox(t: Task) returns (fitted: Option<TextBox>)
    requires 0.0 < t.Floor()
    ensures fitted == t.Fit()
  {
    var size := ScanSizes(t);
    if size.Some? {
      return Some(t.Fitted(t.box.text, size.value));
    }
    if !t.marker.truncates {
      return None;
    }
    var text := CutText(t);
    if text.None? {
      return None;
    }
    fitted := Some(t.Fitted(text.value, t.Floor()));
  }

  // ----- the whole scene

  predicate Sized(o: Object) {
    match o
    case Box(b) => b.marker.Some? ==> 0.0 < b.fontSize
    case Other(_, children) => forall c :: c in children ==> Sized(c)
  }

  function FitObject(e: Engine, floor: real, o: Object): Option<Object>
    requires 0.0 < floor && Sized(o)
    decreases o, 0
  {
    match o
    case Box(b) =>
      if b.marker.None? then Some(o)
      else if !e.readable(b.text) then Some(Box(b.(marker := None)))
      else
        var fitted := Task(e, b, b.marker.value, floor).Fit();
        if fitted.None? then None else Some(Box(fitted.value))
    case Other(rest, children) =>
      var fitted := FitObjects(e, floor, children);
      if fitted.None? then None else Some(Other(rest, fitted.value))
  }

  function FitObjects(e: Engine, floor: real, objects: seq<Object>): (fitted: Option<seq<Object>>)
    requires 0.0 < floor && forall c :: c in objects ==> Sized(c)
    ensures fitted.Some? ==> |fitted.value| == |objects|
    decreases objects
  {
    if objects == [] then Some([])
    else
      var first := FitObject(e, floor, objects[0]);
      if first.None? then None
      else
        var rest := FitObjects(e, floor, objects[1..]);
        if rest.None? then None else Some([first.value] + rest.value)
  }

  function After(done: seq<Object>, rest: Option<seq<Object>>): Option<seq<Object>> {
    if rest.None? then None else Some(done + rest.value)
  }

  method VisitObject(e: Engine, floor: real, o: Object) returns (fitted: Option<Object>)
    requires 0.0 < floor && Sized(o)
    ensures fitted == FitObject(e, floor, o)
    decreases o, 0
  {
    match o
    case Box(b) =>
      if b.marker.None? {
        return Some(o);
      }
      if !e.readable(b.text) {
        return Some(Box(b.(marker := None)));
      }
      var box := FitBox(Task(e, b, b.marker.value, floor));
      fitted := if box.None? then None else Some(Box(box.value));
    case Other(rest, children) =>
      var visited := VisitObjects(e, floor, children);
      fitted := if visited.None? then None else Some(Other(rest, visited.value));
  }

  /** The loop over the objects of a scene or group, stopping at the first that does not fit. */
  method VisitObjects(e: Engine, floor: real, objects: seq<Object>) returns (fitted: Option<seq<Object>>)
    requires 0.0 < floor && forall c :: c in objects ==> Sized(c)
    ensures fitted == FitObjects(e, floor, objects)
    decreases objects
  {
    var done: seq<Object> := [];
    assert objects[0..] == objects;
    assert FitObjects(e, floor, objects).Some? ==> [] + FitObjects(e, floor, objects).value == FitObjects(e, floor, objects).value;
    for i := 0 to |objects|
      invariant FitObjects(e, floor, objects) == After(done, FitObjects(e, floor, objects[i..]))
    {
      var next := VisitObject(e, floor, objects[i]);
      assert objects[i..][1..] == objects[i + 1..];
      if next.None? {
        return None;
      }
      ghost var rest := FitObjects(e, floor, objects[i + 1..]);
      assert rest.Some? ==> done + ([next.value] + rest.value) == (done + [next.value]) + rest.value;
      done := done + [next.value];
    }
    assert objects[|objects|..] == [] && done + [] == done;
    fitted := Some(done);
  }

  // ----- one shortening

  /** A word ends the text, with white space before it, and starts at `k`. */
  predicate TailWord(text: Text, k: nat) {
    0 < k < |text| && IsSpace(text[k - 1]) && forall i :: k <= i < |text| ==> !IsSpace(text[i])
  }

  /** White space from `j` up to the word, and none before. */
  predicate SpaceBefore(text: Text, j: nat, k: nat)
    requires k <= |text|
  {
    j < k && (forall i :: j <= i < k ==> IsSpace(text[i])) && (j == 0 || !IsSpace(text[j - 1]))
  }

  lemma {:induction false} TrimStops(t: Text)
    ensures |TrimEnd(t)| <= |t| && TrimEnd(t) == t[..|TrimEnd(t)|]
    ensures forall i :: |TrimEnd(t)| <= i < |t| ==> IsSpace(t[i])
    ensures TrimEnd(t) != [] ==> !IsSpace(t[|TrimEnd(t)| - 1])
    decreases |t|
  {
    if t != [] && IsSpace(t[|t| - 1]) {
      TrimStops(t[..|t| - 1]);
      assert t[..|t| - 1][..|TrimEnd(t)|] == t[..|TrimEnd(t)|];
    }
  }

  /**
    One shortening drops the last word with all the white space before it, if the text ends in a word that has
    some before it, and otherwise one unit.
   */
  lemma ShortenedExactly(text: Text)
    requires text != []
    ensures (forall k: nat :: !TailWord(text, k)) ==> Shortened(text) == text[..|text| - 1]
    ensures forall k: nat :: TailWord(text, k) ==> exists j: nat :: SpaceBefore(text, j, k) && Shortened(text) == text[..j]
  {
    var start := LastWordStart(text);
    forall k: nat | TailWord(text, k)
      ensures k == start
    {
    }
    if 0 < start < |text| {
      assert TailWord(text, start);
      TrimStops(text[..start]);
      var j := |TrimEnd(text[..start])|;
      assert text[..start][..j] == text[..j];
      assert SpaceBefore(text, j, start);
    }
  }

  // ----- what a fitted box is

  /** Size `k` of the row base, base - 1, ..., floor, where the floor is the placement's or the base if that is smaller. */
  function RowSize(t: Task, k: nat): real {
    RealMax(RealMin(t.box.fontSize, t.placementFloor), t.box.fontSize - k as real)
  }

  /** A box with this text, size and spacing, laid out at the marker's width, keeps to the marker's box. */
  predicate Sits(t: Task, text: Text, size: real, spacing: real) {
    var laid := t.engine.typeset(text, t.marker.width, size, spacing, t.box.rest);
    laid.width <= t.marker.width + 0.1 && laid.lines <= t.marker.maxLines && laid.height <= t.marker.height + size / 5.0
  }

  /** The spacing, in thousandths of the size, that leaves the tracking in pixels what it was. */
  predicate SameTracking(t: Task, size: real, spacing: real) {
    spacing * size == t.box.charSpacing * t.box.fontSize
  }

  lemma OneSpacing(size: real, a: real, b: real)
    requires size != 0.0 && a * size == b * size
    ensures a == b
  {
    assert (a - b) * size == 0.0;
  }

  lemma FitsAtExactly(t: Task, text: Text, size: real, spacing: real)
    requires 0.0 < size && SameTracking(t, size, spacing)
    ensures t.FitsAt(text, size) <==> Sits(t, text, size, spacing)
  {
    SpacingKeepsPixels(t, size);
    OneSpacing(size, spacing, t.SpacingAt(size));
  }

  lemma {:induction false} FirstFitFrom(t: Task, k: nat)
    requires 0.0 < t.Floor()
    ensures match t.FirstFit(RowSize(t, k))
      case Some(size) =>
        t.FitsAt(t.box.text, size)
        && exists j: nat :: k <= j && size == RowSize(t, j) && forall i: nat :: k <= i < j ==> !t.FitsAt(t.box.text, RowSize(t, i))
      case None => forall j: nat :: k <= j ==> !t.FitsAt(t.box.text, RowSize(t, j))
    decreases t.StepsLeft(RowSize(t, k))
  {
    var size := RowSize(t, k);
    if t.FitsAt(t.box.text, size) {
      assert t.FirstFit(size) == Some(RowSize(t, k));
    } else if size == t.Floor() {
      forall j: nat | k <= j
        ensures RowSize(t, j) == size
      {
      }
    } else {
      assert t.Next(size) == RowSize(t, k + 1);
      FirstFitFrom(t, k + 1);
      assert t.FirstFit(size) == t.FirstFit(RowSize(t, k + 1));
    }
  }

  /** `text` after `k` shortenings, of which each takes away at least one unit while there is one. */
  function Cut(text: Text, k: nat): (cut: Text)
    ensures cut <= text
    decreases k
  {
    if k == 0 || text == [] then text else Cut(Shortened(text), k - 1)
  }

  /** The `k`th shortening was made: there was something left to shorten. */
  predicate Made(text: Text, k: nat) {
    k > 0 && Cut(text, k - 1) != []
  }

  predicate CutFits(t: Task, text: Text, k: nat)
    requires 0.0 < t.Floor()
  {
    Made(text, k) && t.FitsAt(Cut(text, k) + [ELLIPSIS], t.Floor())
  }

  /** A cut fits when it sits in the box at the floor. */
  lemma CutFitsExactly(t: Task, text: Text, k: nat, spacing: real)
    requires 0.0 < t.Floor() && SameTracking(t, RealMin(t.box.fontSize, t.placementFloor), spacing)
    ensures CutFits(t, text, k) <==>
      Made(text, k) && Sits(t, Cut(text, k) + [0x2026], RealMin(t.box.fontSize, t.placementFloor), spacing)
  {
    FitsAtExactly(t, Cut(text, k) + [ELLIPSIS], t.Floor(), spacing);
  }

  lemma CutOfShortened(t: Task, text: Text, k: nat)
    requires 0.0 < t.Floor() && text != []
    ensures CutFits(t, text, k + 1) <==> if k == 0 then t.FitsAt(Shortened(text) + [ELLIPSIS], t.Floor()) else CutFits(t, Shortened(text), k)
  {
    assert Cut(text, k + 1) == Cut(Shortened(text), k);
    if k > 0 {
      assert Cut(text, k) == Cut(Shortened(text), k - 1);
    }
  }

  /** The cut found is the first shortening that fits with its ellipsis; none is found exactly when none fits. */
  lemma {:induction false} FirstCutIsFirst(t: Task, text: Text)
    requires 0.0 < t.Floor()
    ensures match t.FirstCut(text)
      case Some(cut) => exists k: nat :: CutFits(t, text, k) && cut == Cut(text, k) + [ELLIPSIS] && forall j: nat :: j < k ==> !CutFits(t, text, j)
      case None => forall k: nat :: !CutFits(t, text, k)
    decreases |text|
  {
    if text == [] {
      assert forall k: nat :: Cut(text, k) == [];
    } else {
      var shorter := Shortened(text);
      CutOfShortened(t, text, 0);
      assert Cut(shorter, 0) == shorter && Cut(text, 1) == shorter;
      assert !CutFits(t, text, 0);
      if !CutFits(t, text, 1) {
        FirstCutIsFirst(t, shorter);
        forall k: nat | k > 0
          ensures CutFits(t, text, k + 1) <==> CutFits(t, shorter, k)
        {
          CutOfShortened(t, text, k);
        }
        if t.FirstCut(shorter).Some? {
          var k: nat :| CutFits(t, shorter, k) && t.FirstCut(shorter).value == Cut(shorter, k) + [ELLIPSIS]
            && forall j: nat :: j < k ==> !CutFits(t, shorter, j);
          assert k > 0;
          assert CutFits(t, text, k + 1) && Cut(text, k + 1) == Cut(shorter, k);
          forall j: nat | j < k + 1
            ensures !CutFits(t, text, j)
          {
            if j > 1 {
              assert CutFits(t, text, (j - 1) + 1) <==> CutFits(t, shorter, j - 1);
            }
          }
        } else {
          forall j: nat
            ensures !CutFits(t, text, j)
          {
            if j > 1 {
              assert CutFits(t, text, (j - 1) + 1) <==> CutFits(t, shorter, j - 1);
            }
          }
        }
      }
    }
  }

  /** The text does not sit in its box at any size of the row before the `n`th. */
  ghost predicate NoSizeBefore(t: Task, n: nat) {
    forall i: nat, spacing :: i < n && SameTracking(t, RowSize(t, i), spacing) ==> !Sits(t, t.box.text, RowSize(t, i), spacing)
  }

  ghost predicate NoSizeAtAll(t: Task) {
    forall i: nat, spacing :: SameTracking(t, RowSize(t, i), spacing) ==> !Sits(t, t.box.text, RowSize(t, i), spacing)
  }

  lemma NoSizeExactly(t: Task, n: nat)
    requires 0.0 < t.Floor()
    ensures NoSizeBefore(t, n) <==> forall i: nat :: i < n ==> !t.FitsAt(t.box.text, RowSize(t, i))
    ensures NoSizeAtAll(t) <==> forall i: nat :: !t.FitsAt(t.box.text, RowSize(t, i))
  {
    forall i: nat, spacing | SameTracking(t, RowSize(t, i), spacing)
      ensures t.FitsAt(t.box.text, RowSize(t, i)) <==> Sits(t, t.box.text, RowSize(t, i), spacing)
    {
      FitsAtExactly(t, t.box.text, RowSize(t, i), spacing);
    }
    forall i: nat
      ensures SameTracking(t, RowSize(t, i), t.SpacingAt(RowSize(t, i)))
    {
      SpacingKeepsPixels(t, RowSize(t, i));
    }
  }

  /**
    A readable marked box that does not make the fitting throw ends unmarked, keeps its tracking in pixels and
    everything else, and sits in its box: whole, at the first size of the row at which it does; or, when it does
    at none and its policy allows, cut short at the floor, after the fewest shortenings that make it sit there.
   */
  lemma FittedBox(t: Task)
    requires 0.0 < t.Floor() && t.Fit().Some?
    ensures
      var b := t.Fit().value;
      && b.marker.None? && !b.splitByGrapheme && b.rest == t.box.rest
      && 0.0 < b.fontSize
      && SameTracking(t, b.fontSize, b.charSpacing) && Sits(t, b.text, b.fontSize, b.charSpacing)
      && if NoSizeAtAll(t) then
           && t.marker.truncates && b.fontSize == RealMin(t.box.fontSize, t.placementFloor)
           && exists k: nat :: b.text == Cut(t.box.text, k) + [ELLIPSIS] && Made(t.box.text, k)
                && forall i: nat :: i < k ==> !CutFits(t, t.box.text, i)
         else
           b.text == t.box.text && exists j: nat :: b.fontSize == RowSize(t, j) && NoSizeBefore(t, j)
  {
    if t.FirstFit(t.box.fontSize).Some? {
      FitsWhole(t);
    } else {
      FitsCut(t);
    }
    FittedSits(t);
  }

  lemma FitsWhole(t: Task)
    requires 0.0 < t.Floor() && t.FirstFit(t.box.fontSize).Some?
    ensures var b := t.Fit().value;
      !NoSizeAtAll(t) && b.text == t.box.text && exists j: nat :: b.fontSize == RowSize(t, j) && NoSizeBefore(t, j)
  {
    var size := t.FirstFit(t.box.fontSize).value;
    assert RowSize(t, 0) == t.box.fontSize;
    FirstFitFrom(t, 0);
    var j: nat :| size == RowSize(t, j) && forall i: nat :: 0 <= i < j ==> !t.FitsAt(t.box.text, RowSize(t, i));
    NoSizeExactly(t, j);
    assert t.FitsAt(t.box.text, RowSize(t, j));
  }

  lemma FitsCut(t: Task)
    requires 0.0 < t.Floor() && t.FirstFit(t.box.fontSize).None? && t.Fit().Some?
    ensures var b := t.Fit().value;
      && NoSizeAtAll(t) && t.marker.truncates && b.fontSize == RealMin(t.box.fontSize, t.placementFloor)
      && exists k: nat :: b.text == Cut(t.box.text, k) + [ELLIPSIS] && Made(t.box.text, k)
           && forall i: nat :: i < k ==> !CutFits(t, t.box.text, i)
  {
    assert RowSize(t, 0) == t.box.fontSize;
    FirstFitFrom(t, 0);
    NoSizeExactly(t, 0);
    FirstCutIsFirst(t, t.box.text);
  }

  lemma FittedFits(t: Task)
    requires 0.0 < t.Floor() && t.Fit().Some?
    ensures var b := t.Fit().value;
      0.0 < b.fontSize && b.charSpacing == t.SpacingAt(b.fontSize) && t.FitsAt(b.text, b.fontSize)
  {
    assert RowSize(t, 0) == t.box.fontSize;
    FirstFitFrom(t, 0);
    FirstCutIsFirst(t, t.box.text);
  }

  lemma FittedSits(t: Task)
    requires 0.0 < t.Floor() && t.Fit().Some?
    ensures var b := t.Fit().value;
      && b.marker.None? && !b.splitByGrapheme && b.rest == t.box.rest && 0.0 < b.fontSize
      && SameTracking(t, b.fontSize, b.charSpacing) && Sits(t, b.text, b.fontSize, b.charSpacing)
  {
    var b := t.Fit().value;
    FittedFits(t);
    SpacingKeepsPixels(t, b.fontSize);
    FitsAtExactly(t, b.text, b.fontSize, b.charSpacing);
  }

  /** Tracking in pixels is what it was. */
  lemma FittedTracking(t: Task)
    requires 0.0 < t.Floor() && t.Fit().Some?
    ensures 0.0 < t.Fit().value.fontSize
    ensures t.Fit().value.charSpacing * t.Fit().value.fontSize == t.box.charSpacing * t.box.fontSize
  {
    SpacingKeepsPixels(t, t.Fit().value.fontSize);
  }

  lemma SpacingKeepsPixels(t: Task, size: real)
    requires 0.0 < size
    ensures t.SpacingAt(size) * size == t.box.charSpacing * t.box.fontSize
  {
    var product := t.box.charSpacing * t.box.fontSize;
    assert t.Tracking() * 1000.0 == product;
    assert (product / size) * size == product;
  }

  /** The fitting throws on a readable box exactly when no size of the row and no permitted cut fits. */
  lemma FitThrows(t: Task)
    requires 0.0 < t.Floor()
    ensures t.Fit().None? <==>
      NoSizeAtAll(t) && (t.marker.truncates ==> forall k: nat :: !CutFits(t, t.box.text, k))
  {
    NoSizeExactly(t, 0);
    FirstCutIsFirst(t, t.box.text);
    assert RowSize(t, 0) == t.box.fontSize;
    FirstFitFrom(t, 0);
  }

  // ----- the whole scene

  /** What the pass makes of a text box. */
  ghost predicate BoxBecomes(e: Engine, floor: real, b: TextBox, after: TextBox)
    requires 0.0 < floor && (b.marker.Some? ==> 0.0 < b.fontSize)
  {
    if b.marker.None? then after == b
    else if !e.readable(b.text) then after == b.(marker := None)
    else Task(e, b, b.marker.value, floor).Fit() == Some(after)
  }

  /** Every box in the place where it was. */
  ghost predicate Becomes(e: Engine, floor: real, o: Object, after: Object)
    requires 0.0 < floor && Sized(o)
    decreases o
  {
    match o
    case Box(b) => after.Box? && BoxBecomes(e, floor, b, after.box)
    case Other(rest, children) =>
      && after.Other? && after.rest == rest && |after.children| == |children|
      && forall i :: 0 <= i < |children| ==> Becomes(e, floor, children[i], after.children[i])
  }

  ghost predicate AllBecome(e: Engine, floor: real, objects: seq<Object>, after: seq<Object>)
    requires 0.0 < floor && forall c :: c in objects ==> Sized(c)
  {
    |after| == |objects| && forall i :: 0 <= i < |objects| ==> Becomes(e, floor, objects[i], after[i])
  }

  lemma {:induction false} ObjectFitsExactly(e: Engine, floor: real, o: Object, after: Object)
    requires 0.0 < floor && Sized(o)
    ensures FitObject(e, floor, o) == Some(after) <==> Becomes(e, floor, o, after)
    decreases o, 0
  {
    if o.Other? {
      if after.Other? {
        SceneFitsExactly(e, floor, o.children, after.children);
      }
      if FitObjects(e, floor, o.children).Some? {
        SceneFitsExactly(e, floor, o.children, FitObjects(e, floor, o.children).value);
      }
    }
  }

  /** A pass succeeds with exactly the scene in which every box, in its place, is what the pass makes of it. */
  lemma {:induction false} SceneFitsExactly(e: Engine, floor: real, objects: seq<Object>, after: seq<Object>)
    requires 0.0 < floor && forall c :: c in objects ==> Sized(c)
    ensures FitObjects(e, floor, objects) == Some(after) <==> AllBecome(e, floor, objects, after)
    decreases objects
  {
    if objects != [] && after != [] {
      ObjectFitsExactly(e, floor, objects[0], after[0]);
      SceneFitsExactly(e, floor, objects[1..], after[1..]);
      assert after == [after[0]] + after[1..];
      HeadAndTail(e, floor, objects, after);
    }
  }

  lemma HeadAndTail(e: Engine, floor: real, objects: seq<Object>, after: seq<Object>)
    requires 0.0 < floor && (forall c :: c in objects ==> Sized(c)) && objects != [] && after != []
    ensures AllBecome(e, floor, objects, after) <==>
      Becomes(e, floor, objects[0], after[0]) && AllBecome(e, floor, objects[1..], after[1..])
  {
    assert forall i :: 1 <= i < |objects| ==> objects[i] == objects[1..][i - 1];
    assert forall i :: 1 <= i < |after| ==> after[i] == after[1..][i - 1];
  }

  // ----- a second pass

  predicate Unmarked(o: Object) {
    match o
    case Box(b) => b.marker.None?
    case Other(_, children) => forall c :: c in children ==> Unmarked(c)
  }

  lemma {:induction false} FitUnmarks(e: Engine, floor: real, o: Object)
    requires 0.0 < floor && Sized(o) && FitObject(e, floor, o).Some?
    ensures Unmarked(FitObject(e, floor, o).value)
    decreases o, 0
  {
    if o.Other? {
      FitAllUnmarks(e, floor, o.children);
    }
  }

  lemma {:induction false} FitAllUnmarks(e: Engine, floor: real, objects: seq<Object>)
    requires 0.0 < floor && (forall c :: c in objects ==> Sized(c)) && FitObjects(e, floor, objects).Some?
    ensures forall c :: c in FitObjects(e, floor, objects).value ==> Unmarked(c)
    decreases objects
  {
    if objects != [] {
      FitUnmarks(e, floor, objects[0]);
      FitAllUnmarks(e, floor, objects[1..]);
    }
  }

  lemma {:induction false} UnmarkedStays(e: Engine, floor: real, o: Object)
    requires 0.0 < floor && Unmarked(o)
    ensures Sized(o) && FitObject(e, floor, o) == Some(o)
    decreases o, 0
  {
    if o.Other? {
      UnmarkedAllStay(e, floor, o.children);
    }
  }

  lemma {:induction false} UnmarkedAllStay(e: Engine, floor: real, objects: seq<Object>)
    requires 0.0 < floor && forall c :: c in objects ==> Unmarked(c)
    ensures forall c :: c in objects ==> Sized(c)
    ensures FitObjects(e, floor, objects) == Some(objects)
    decreases objects
  {
    if objects != [] {
      UnmarkedStays(e, floor, objects[0]);
      UnmarkedAllStay(e, floor, objects[1..]);
      assert objects == [objects[0]] + objects[1..];
    }
  }

  /** A pass that succeeds leaves no marker, and a second pass changes nothing. */
  lemma SecondPassIsIdle(e: Engine, floor: real, objects: seq<Object>)
    requires 0.0 < floor && (forall c :: c in objects ==> Sized(c)) && FitObjects(e, floor, objects).Some?
    ensures
      var once := FitObjects(e, floor, objects).value;
      && (forall c :: c in once ==> Unmarked(c))
      && (forall c :: c in once ==> Sized(c))
      && FitObjects(e, floor, once) == Some(once)
  {
    FitAllUnmarks(e, floor, objects);
    UnmarkedAllStay(e, floor, FitObjects(e, floor, objects).value);
  }
}
