/** What the renderer makes of any input, accepted by the contract or not: each refusal, and in which order. */
module RendererRefusals {
  import opened Prelude
  import opened Placements
  import opened TemplateContract
  import opened TemplateContractResults
  import opened TemplateRenderer
  import opened RendererResults
  import TextLayout
  import TextLayoutResults

  // ----- fonts

  /** The font's bytes: given under its file, given under the file with a prefix, or from the folder. */
  predicate IsSource(h: FontHost, values: map<string, Bytes>, file: string, bytes: Option<Bytes>) {
    && (file in values ==> bytes == Some(values[file]))
    && (file !in values && "font:" + file in values ==> bytes == Some(values["font:" + file]))
    && (file !in values && "font:" + file !in values ==>
          if Basename(file) in h.folder then bytes == Some(h.folder[Basename(file)]) else bytes.None?)
  }

  lemma SourceExactly(h: FontHost, values: map<string, Bytes>, file: string)
    ensures IsSource(h, values, file, FontBytes(h, values, file))
  {
  }

  /** Aliases noted as registered whose font the process no longer has. */
  function Gone(r: Registry): set<string> {
    r.aliases - r.loaded.Keys
  }

  /** The alias was registered and its font is gone; or the font is the first with its alias, and has no bytes or bytes that do not load. */
  predicate Fails(h: FontHost, values: map<string, Bytes>, taken: set<string>, gone: set<string>, fonts: seq<string>, i: nat)
    requires i < |fonts|
  {
    || Alias(fonts[i]) in gone
    || (&& Alias(fonts[i]) !in taken && (forall j :: 0 <= j < i ==> Alias(fonts[j]) != Alias(fonts[i]))
        && var bytes := FontBytes(h, values, fonts[i]); bytes.None? || !h.loads(bytes.value))
  }

  function FailureOf(h: FontHost, values: map<string, Bytes>, gone: set<string>, file: string): FontError {
    if Alias(file) in gone then NoLongerRegistered(Basename(file))
    else if FontBytes(h, values, file).None? then Missing(Basename(file)) else Unloadable(Basename(file))
  }

  /** Font `i` is the first that fails. */
  predicate FirstFailure(h: FontHost, values: map<string, Bytes>, taken: set<string>, gone: set<string>, fonts: seq<string>, i: nat) {
    i < |fonts| && Fails(h, values, taken, gone, fonts, i) && forall j :: 0 <= j < i ==> !Fails(h, values, taken, gone, fonts, j)
  }

  lemma FailsLater(h: FontHost, values: map<string, Bytes>, taken: set<string>, gone: set<string>, fonts: seq<string>, i: nat, j: nat)
    requires j == i + 1 < |fonts|
    ensures Fails(h, values, taken, gone, fonts, j) <==> Fails(h, values, taken + {Alias(fonts[0])}, gone, fonts[1..], i)
  {
    var rest := fonts[1..];
    assert rest[i] == fonts[j];
    assert forall m :: 0 <= m < i ==> rest[m] == fonts[m + 1];
    assert forall m :: 1 <= m < j ==> fonts[m] == rest[m - 1];
  }

  lemma FirstFailureLater(h: FontHost, values: map<string, Bytes>, taken: set<string>, gone: set<string>, fonts: seq<string>, i: nat, j: nat)
    requires j == i + 1 && fonts != [] && !Fails(h, values, taken, gone, fonts, 0)
    requires FirstFailure(h, values, taken + {Alias(fonts[0])}, gone, fonts[1..], i)
    ensures FirstFailure(h, values, taken, gone, fonts, j) && fonts[j] == fonts[1..][i]
  {
    FailsLater(h, values, taken, gone, fonts, i, j);
    forall m | 0 <= m < j
      ensures !Fails(h, values, taken, gone, fonts, m)
    {
      if m > 0 {
        FailsLater(h, values, taken, gone, fonts, m - 1, m);
      }
    }
  }

  lemma NoFailureLater(h: FontHost, values: map<string, Bytes>, taken: set<string>, gone: set<string>, fonts: seq<string>)
    requires fonts != [] && !Fails(h, values, taken, gone, fonts, 0)
    requires forall i :: 0 <= i < |fonts[1..]| ==> !Fails(h, values, taken + {Alias(fonts[0])}, gone, fonts[1..], i)
    ensures forall i :: 0 <= i < |fonts| ==> !Fails(h, values, taken, gone, fonts, i)
  {
    forall j | 1 <= j < |fonts|
      ensures !Fails(h, values, taken, gone, fonts, j)
    {
      FailsLater(h, values, taken, gone, fonts, j - 1, j);
    }
  }

  /** One font: it fails, or its alias is taken from then on. */
  lemma OneFont(h: FontHost, values: map<string, Bytes>, r: Registry, fonts: seq<string>)
    requires fonts != []
    ensures var first := RegisterFont(h, values, r, fonts[0]);
      && (first.error.Some? <==> Fails(h, values, r.aliases, Gone(r), fonts, 0))
      && (first.error.Some? ==> first.error == Some(FailureOf(h, values, Gone(r), fonts[0])))
      && (first.error.None? ==> Gone(first.registry) == Gone(r) && first.registry.aliases == r.aliases + {Alias(fonts[0])})
  {
  }

  /** Registration fails with the error of the first font that fails, and succeeds exactly when none does. */
  lemma {:induction false} RegistrationFailsExactly(h: FontHost, values: map<string, Bytes>, r: Registry, fonts: seq<string>)
    ensures var error := RegisterFonts(h, values, r, fonts).error;
      if error.None? then forall i :: 0 <= i < |fonts| ==> !Fails(h, values, r.aliases, Gone(r), fonts, i)
      else exists i: nat :: FirstFailure(h, values, r.aliases, Gone(r), fonts, i) && error == Some(FailureOf(h, values, Gone(r), fonts[i]))
    decreases |fonts|
  {
    if fonts != [] {
      var first, rest := RegisterFont(h, values, r, fonts[0]), fonts[1..];
      OneFont(h, values, r, fonts);
      if first.error.Some? {
        assert FirstFailure(h, values, r.aliases, Gone(r), fonts, 0);
      } else {
        RegistrationFailsExactly(h, values, first.registry, rest);
        var error := RegisterFonts(h, values, first.registry, rest).error;
        if error.None? {
          NoFailureLater(h, values, r.aliases, Gone(r), fonts);
        } else {
          var i: nat :| FirstFailure(h, values, first.registry.aliases, Gone(r), rest, i) && error == Some(FailureOf(h, values, Gone(r), rest[i]));
          FirstFailureLater(h, values, r.aliases, Gone(r), fonts, i, i + 1);
        }
      }
    }
  }

  // ----- the text of a layer

  function Floor(p: Placement): real {
    match p
    case Feed => 24.0
    case Story => 32.0
  }

  lemma PixelsAgree(r: Rect, p: Placement)
    ensures RenderGeometry(r, p) == InPixels(r, p)
  {
    GeometryAgrees(r, p);
    ResolvedExactly(r, p);
  }

  /** The first characters of a text, in the layer's case. */
  ghost predicate IsShown(ty: Typography, layer: Layer, source: Text, text: Text)
    requires layer.TextBox?
  {
    exists shown ::
      && shown <= source && |shown| == Min(|source|, layer.maxCharacters)
      && text == match layer.letterCase case AsWritten => shown case UpperCase => ty.upper(shown) case LowerCase => ty.lower(shown)
  }

  lemma ShownExactly(ty: Typography, layer: Layer, source: Text)
    requires layer.TextBox?
    ensures IsShown(ty, layer, source, ShownText(ty, layer, source))
  {
    var shown := if |source| <= layer.maxCharacters then source else source[..layer.maxCharacters];
    assert shown <= source && |shown| == Min(|source|, layer.maxCharacters);
  }

  /** The size asked for: the ratio of the box's height if there is a positive one, and otherwise the authored size. */
  predicate AsksFor(layer: Layer, p: Placement, size: real)
    requires layer.TextBox?
  {
    match layer.sizeRatio
    case None => size == layer.fontSize
    case Some(ratio) => size == if ratio > 0.0 then InPixels(layer.geometry, p).height * ratio else layer.fontSize
  }

  /** A layer's text is laid out as authored: its first characters, in its case, in its box in pixels. */
  lemma LaidOutAsAuthored(ty: Typography, layer: Layer, source: Text, overflow: TextLayout.Overflow, p: Placement)
    requires layer.TextBox?
    ensures var o, g := LayoutOptions(ty, layer, source, overflow, p), InPixels(layer.geometry, p);
      && IsShown(ty, layer, source, o.text) && AsksFor(layer, p, o.baseFontSize)
      && o.width == g.width && o.height == g.height
      && o.readabilityFloor == Floor(p) && o.maxLines == layer.maxLines && o.lineHeight == layer.lineHeight
      && o.trackingPixels == layer.tracking && o.overflow == overflow && o.face == ty.face(Alias(layer.font), layer.style)
  {
    PixelsAgree(layer.geometry, p);
    ShownExactly(ty, layer, source);
  }

  /** What a policy is called; the old spelling means scaling down. */
  function PolicyOf(b: Behaviour): Option<TextLayout.Overflow> {
    match b
    case Policy(overflow) => Some(overflow)
    case Shrink => Some(TextLayout.ScaleDown)
    case Unknown => None
  }

  predicate HasText(values: map<string, Text>, layer: Layer)
    requires layer.TextBox?
  {
    layer.inputKey in values && values[layer.inputKey] != []
  }

  /** `refuse` drops a text that is too long. */
  predicate TooLong(values: map<string, Text>, layer: Layer)
    requires layer.TextBox? && HasText(values, layer)
  {
    PolicyOf(layer.behaviour) == Some(TextLayout.Refuse) && |values[layer.inputKey]| > layer.maxCharacters
  }

  /** What keeps a text from being laid out at all. */
  lemma TextRefusedExactly(ty: Typography, r: Registry, values: map<string, Text>, layer: Layer, p: Placement)
    requires layer.TextBox?
    requires !HasText(values, layer) || PolicyOf(layer.behaviour).None? || TooLong(values, layer)
      || !(Alias(layer.font) in r.aliases && Alias(layer.font) in r.loaded)
    ensures PrepareText(ty, r, values, layer, p) ==
      if !HasText(values, layer) then SkipText
      else if PolicyOf(layer.behaviour).None? then Throws(UnsupportedOverflow(NormalizeLayerId(layer.layerId)))
      else if TooLong(values, layer) then SkipText
      else Throws(FontNotRegistered(Basename(layer.font)))
  {
  }

  /**
    What becomes of a text that is laid out: it is below the floor for its size, or no scanned size
    fits, which `scale_down` reports and `refuse` skips, or it is painted as prepared.
   */
  lemma TextPreparedExactly(ty: Typography, r: Registry, values: map<string, Text>, layer: Layer, p: Placement)
    requires layer.TextBox? && HasText(values, layer) && PolicyOf(layer.behaviour).Some? && !TooLong(values, layer)
    requires Alias(layer.font) in r.aliases && Alias(layer.font) in r.loaded
    ensures var policy := PolicyOf(layer.behaviour).value;
      var o, id := LayoutOptions(ty, layer, values[layer.inputKey], policy, p), NormalizeLayerId(layer.layerId);
      var none := TextLayoutResults.NoneFits(o);
      PrepareText(ty, r, values, layer, p) ==
        if o.baseFontSize < Floor(p) then Violates(BelowReadabilityFloor(p, id, Floor(p)))
        else if none && policy == TextLayout.ScaleDown then Violates(CannotFitReadabilityFloor(p, id, Floor(p)))
        else if none && policy == TextLayout.Refuse then SkipText
        else Paints(InPixels(layer.geometry, p), o.Prepare())
  {
    var o := LayoutOptions(ty, layer, values[layer.inputKey], PolicyOf(layer.behaviour).value, p);
    LaidOutAsAuthored(ty, layer, values[layer.inputKey], PolicyOf(layer.behaviour).value, p);
    PixelsAgree(layer.geometry, p);
    TextLayoutResults.PreparedExactly(o);
  }

  // ----- the preflight

  /** The preflight reports a line height exactly when the contract would, and then what preparing the text reports. */
  lemma PreflightExactly(ty: Typography, r: Registry, values: map<string, Text>, layer: Layer, p: Placement)
    ensures var found := LayerPreflight(ty, r, values, layer, p);
      && (!layer.TextBox? ==> found == Checked([]))
      && (layer.TextBox? ==>
            var prepared, id := PrepareText(ty, r, values, layer, p), NormalizeLayerId(layer.layerId);
            var tight := if LinesTooTight(layer.layerId) in LayerIssues(layer, p)
              then [MultilineLineHeight(p, id, layer.maxLines, layer.lineHeight)] else [];
            if prepared.Throws? then found == Thrown(prepared.error)
            else found == Checked(tight + if prepared.Violates? then [prepared.violation] else []))
  {
    LayerIssuesExactly(layer, p, if layer.TextBox? then LinesTooTight(layer.layerId) else NoBackground);
    if layer.TextBox? {
      var tight := if LinesTooTight(layer.layerId) in LayerIssues(layer, p)
        then [MultilineLineHeight(p, NormalizeLayerId(layer.layerId), layer.maxLines, layer.lineHeight)] else [];
      assert LayerPreflight(ty, r, values, layer, p) == Gather(tight, PrepareText(ty, r, values, layer, p));
      assert tight + [] == tight;
    }
  }

  /** Checks that ran one after the other: the first error ends them, and otherwise all findings are kept in order. */
  predicate InOrder(checks: seq<Preflight>, whole: Preflight) {
    match whole
    case Thrown(e) => exists i :: 0 <= i < |checks| && checks[i] == Thrown(e) && forall j :: 0 <= j < i ==> checks[j].Checked?
    case Checked(found) => (forall i :: 0 <= i < |checks| ==> checks[i].Checked?) && found == Flatten(Findings(checks))
  }

  function Findings(checks: seq<Preflight>): (found: seq<seq<Violation>>)
    ensures |found| == |checks|
    ensures forall i :: 0 <= i < |checks| ==> found[i] == if checks[i].Checked? then checks[i].violations else []
  {
    seq(|checks|, i requires 0 <= i < |checks| => if checks[i].Checked? then checks[i].violations else [])
  }

  lemma OneMore(first: Preflight, rest: seq<Preflight>, whole: Preflight)
    requires InOrder(rest, whole)
    ensures InOrder([first] + rest, Then(first, whole))
  {
    var all := [first] + rest;
    if first.Thrown? {
      assert all[0] == Thrown(first.error);
    } else if whole.Thrown? {
      var i :| 0 <= i < |rest| && rest[i] == Thrown(whole.error) && forall j :: 0 <= j < i ==> rest[j].Checked?;
      assert all[i + 1] == Thrown(whole.error);
    } else {
      assert Findings(all)[0] == first.violations && Findings(all)[1..] == Findings(rest);
    }
  }

  function LayerChecks(ty: Typography, r: Registry, values: map<string, Text>, layers: seq<Layer>, p: Placement): (checks: seq<Preflight>)
    ensures |checks| == |layers|
    ensures forall i :: 0 <= i < |layers| ==> checks[i] == LayerPreflight(ty, r, values, layers[i], p)
  {
    seq(|layers|, i requires 0 <= i < |layers| => LayerPreflight(ty, r, values, layers[i], p))
  }

  lemma {:induction false} LayersInOrder(ty: Typography, r: Registry, values: map<string, Text>, layers: seq<Layer>, p: Placement)
    ensures InOrder(LayerChecks(ty, r, values, layers, p), LayersPreflight(ty, r, values, layers, p))
  {
    var checks := LayerChecks(ty, r, values, layers, p);
    if layers != [] {
      LayersInOrder(ty, r, values, layers[1..], p);
      OneMore(LayerPreflight(ty, r, values, layers[0], p), LayerChecks(ty, r, values, layers[1..], p), LayersPreflight(ty, r, values, layers[1..], p));
      assert checks == [LayerPreflight(ty, r, values, layers[0], p)] + LayerChecks(ty, r, values, layers[1..], p);
    }
  }

  function PlacementChecks(ty: Typography, r: Registry, values: map<string, Text>, t: Template, ps: seq<Placement>): (checks: seq<Preflight>)
    ensures |checks| == |ps|
    ensures forall i :: 0 <= i < |ps| ==>
      checks[i] == LayersPreflight(ty, r, values, if ps[i] == Feed then t.feed.layers else t.story.layers, ps[i])
  {
    seq(|ps|, i requires 0 <= i < |ps| => LayersPreflight(ty, r, values, if ps[i] == Feed then t.feed.layers else t.story.layers, ps[i]))
  }

  /** The preflight goes through the placements and their layers in order. */
  lemma {:induction false} PlacementsInOrder(ty: Typography, r: Registry, values: map<string, Text>, t: Template, ps: seq<Placement>)
    ensures InOrder(PlacementChecks(ty, r, values, t, ps), TextPreflight(ty, r, values, t, ps))
  {
    var checks := PlacementChecks(ty, r, values, t, ps);
    if ps != [] {
      PlacementsInOrder(ty, r, values, t, ps[1..]);
      OneMore(checks[0], PlacementChecks(ty, r, values, t, ps[1..]), TextPreflight(ty, r, values, t, ps[1..]));
      assert checks == [checks[0]] + PlacementChecks(ty, r, values, t, ps[1..]);
    }
  }

  // ----- painting and the order of refusals

  /** Why painting a layer is refused: for the same shapes as in the contract, for assets not supplied, and for its text. */
  predicate RefusedFor(ty: Typography, r: Registry, input: RenderInput, layer: Layer, p: Placement, refusal: Refusal) {
    match refusal
    case RingRefused(id) => Means(RingNotSquare, layer, p) && id == layer.layerId
    case RuleRefused(id) => Means(RuleTooShort(id), layer, p)
    case AssetMissing(key) => key != "" && key !in input.images && (layer.Plate? || layer.Overlay?) && layer.assetKey == Some(key)
    case TextThrew(e) => layer.TextBox? && PrepareText(ty, r, input.textValues, layer, p) == Throws(e)
    case PreflightRefused(violations) =>
      layer.TextBox? && |violations| == 1 && PrepareText(ty, r, input.textValues, layer, p) == Violates(violations[0])
    case _ => false
  }

  lemma VectorRefusedExactly(layer: Layer, p: Placement, refusal: Refusal)
    requires layer.Vector?
    ensures VectorRefusal(layer, p) == Some(refusal) <==>
      || (refusal == RingRefused(layer.layerId) && Means(RingNotSquare, layer, p))
      || (refusal == RuleRefused(layer.layerId) && Means(RuleTooShort(layer.layerId), layer, p))
  {
    PixelsAgree(layer.geometry, p);
  }

  lemma AssetRefusedExactly(ty: Typography, r: Registry, input: RenderInput, layer: Layer, p: Placement, refusal: Refusal)
    requires layer.Plate? || layer.Overlay?
    ensures LayerRefusal(ty, r, input, layer, p) == Some(refusal) <==> RefusedFor(ty, r, input, layer, p, refusal)
  {
  }

  lemma TextPaintRefusedExactly(ty: Typography, r: Registry, input: RenderInput, layer: Layer, p: Placement, refusal: Refusal)
    requires layer.TextBox?
    ensures LayerRefusal(ty, r, input, layer, p) == Some(refusal) <==> RefusedFor(ty, r, input, layer, p, refusal)
  {
    var prepared := PrepareText(ty, r, input.textValues, layer, p);
    assert prepared.Violates? ==> LayerRefusal(ty, r, input, layer, p) == Some(PreflightRefused([prepared.violation]));
    if refusal.PreflightRefused? && |refusal.violations| == 1 {
      assert refusal.violations == [refusal.violations[0]];
    }
  }

  lemma PaintRefusedExactly(ty: Typography, r: Registry, input: RenderInput, layer: Layer, p: Placement, refusal: Refusal)
    ensures LayerRefusal(ty, r, input, layer, p) == Some(refusal) <==> RefusedFor(ty, r, input, layer, p, refusal)
  {
    if layer.Vector? {
      VectorRefusedExactly(layer, p, refusal);
      assert LayerRefusal(ty, r, input, layer, p) == VectorRefusal(layer, p);
    } else if layer.TextBox? {
      TextPaintRefusedExactly(ty, r, input, layer, p, refusal);
    } else if layer.Plate? || layer.Overlay? {
      AssetRefusedExactly(ty, r, input, layer, p, refusal);
    }
  }

  predicate BackgroundHolds(layers: seq<Layer>, p: Placement) {
    layers != [] && layers[0].Plate? && layers[0].guarded && CoversAll(layers[0].geometry, p)
  }

  /** Placement `i` is the first whose background does not hold. */
  predicate FirstBare(t: Template, ps: seq<Placement>, i: nat) {
    && i < |ps| && !BackgroundHolds(t.LayoutFor(ps[i]).layers, ps[i])
    && forall j :: 0 <= j < i ==> BackgroundHolds(t.LayoutFor(ps[j]).layers, ps[j])
  }

  lemma FirstBareLater(t: Template, ps: seq<Placement>, i: nat, j: nat)
    requires ps != [] && BackgroundHolds(t.LayoutFor(ps[0]).layers, ps[0]) && j == i + 1
    ensures FirstBare(t, ps, j) <==> FirstBare(t, ps[1..], i)
  {
    var rest := ps[1..];
    assert forall m :: 0 <= m < |rest| ==> rest[m] == ps[m + 1];
    if FirstBare(t, ps, j) {
      forall m | 0 <= m < i
        ensures BackgroundHolds(t.LayoutFor(rest[m]).layers, rest[m])
      {
        assert rest[m] == ps[m + 1];
      }
    }
    if FirstBare(t, rest, i) {
      forall m | 0 <= m < j
        ensures BackgroundHolds(t.LayoutFor(ps[m]).layers, ps[m])
      {
        assert m > 0 ==> ps[m] == rest[m - 1];
      }
    }
  }

  lemma {:induction false} BackgroundRefusedExactly(t: Template, ps: seq<Placement>)
    ensures var refusal := BackgroundRefusal(t, ps);
      if refusal.None? then forall i :: 0 <= i < |ps| ==> BackgroundHolds(t.LayoutFor(ps[i]).layers, ps[i])
      else exists i: nat :: FirstBare(t, ps, i) && refusal == Some(BackgroundRefused(ps[i]))
  {
    if ps != [] {
      var layers := t.LayoutFor(ps[0]).layers;
      if layers != [] {
        PixelsAgree(layers[0].geometry, ps[0]);
      }
      assert BackgroundPasses(layers, ps[0]) <==> BackgroundHolds(layers, ps[0]);
      if !BackgroundHolds(layers, ps[0]) {
        assert FirstBare(t, ps, 0);
      } else {
        BackgroundRefusedExactly(t, ps[1..]);
        assert forall i :: 1 <= i < |ps| ==> ps[i] == ps[1..][i - 1];
        if BackgroundRefusal(t, ps[1..]).Some? {
          var i: nat :| FirstBare(t, ps[1..], i) && BackgroundRefusal(t, ps[1..]) == Some(BackgroundRefused(ps[1..][i]));
          FirstBareLater(t, ps, i, i + 1);
        }
      }
    }
  }

  /**
    Once the fonts are registered a refusal is, in this order, for a background, for a text that throws in
    the preflight, for the first 512 violations the preflight finds, or for a layer that cannot be painted.
   */
  lemma RefusalsInOrder(ty: Typography, r: Registry, input: RenderInput, ps: seq<Placement>)
    ensures var refusal, background := RenderRefusal(ty, r, input, ps), BackgroundRefusal(input.template, ps);
      var preflight := TextPreflight(ty, r, input.textValues, input.template, ps);
      && (background.Some? ==> refusal == background)
      && (background.None? && preflight.Thrown? ==> refusal == Some(TextThrew(preflight.error)))
      && (background.None? && preflight.Checked? && preflight.violations != [] ==>
            && refusal.Some? && refusal.value.PreflightRefused?
            && refusal.value.violations <= preflight.violations && |refusal.value.violations| == Min(|preflight.violations|, 512))
      && (background.None? && preflight == Checked([]) ==> refusal == PaintRefusal(ty, r, input, ps))
  {
  }

  /** Refusals of things one after the other: the first of them stands, if there is one. */
  predicate FirstStands(each: seq<Option<Refusal>>, whole: Option<Refusal>) {
    if whole.None? then forall i :: 0 <= i < |each| ==> each[i].None?
    else exists i :: 0 <= i < |each| && each[i] == whole && forall j :: 0 <= j < i ==> each[j].None?
  }

  lemma FirstOf(first: Option<Refusal>, rest: seq<Option<Refusal>>, whole: Option<Refusal>)
    requires FirstStands(rest, whole)
    ensures FirstStands([first] + rest, if first.Some? then first else whole)
  {
    var all := [first] + rest;
    if first.Some? {
      assert all[0] == first;
    } else if whole.Some? {
      var i :| 0 <= i < |rest| && rest[i] == whole && forall j :: 0 <= j < i ==> rest[j].None?;
      assert all[i + 1] == whole;
    }
  }

  function LayerRefusals(ty: Typography, r: Registry, input: RenderInput, layers: seq<Layer>, p: Placement): (each: seq<Option<Refusal>>)
    ensures |each| == |layers|
    ensures forall i :: 0 <= i < |layers| ==> each[i] == LayerRefusal(ty, r, input, layers[i], p)
  {
    seq(|layers|, i requires 0 <= i < |layers| => LayerRefusal(ty, r, input, layers[i], p))
  }

  lemma {:induction false} LayersRefusedInOrder(ty: Typography, r: Registry, input: RenderInput, layers: seq<Layer>, p: Placement)
    ensures FirstStands(LayerRefusals(ty, r, input, layers, p), LayersRefusal(ty, r, input, layers, p))
  {
    if layers != [] {
      LayersRefusedInOrder(ty, r, input, layers[1..], p);
      FirstOf(LayerRefusal(ty, r, input, layers[0], p), LayerRefusals(ty, r, input, layers[1..], p), LayersRefusal(ty, r, input, layers[1..], p));
      assert LayerRefusals(ty, r, input, layers, p) == [LayerRefusal(ty, r, input, layers[0], p)] + LayerRefusals(ty, r, input, layers[1..], p);
    }
  }

  function PlacementRefusals(ty: Typography, r: Registry, input: RenderInput, ps: seq<Placement>): (each: seq<Option<Refusal>>)
    ensures |each| == |ps|
    ensures forall i :: 0 <= i < |ps| ==>
      each[i] == LayersRefusal(ty, r, input, if ps[i] == Feed then input.template.feed.layers else input.template.story.layers, ps[i])
  {
    seq(|ps|, i requires 0 <= i < |ps| =>
      LayersRefusal(ty, r, input, if ps[i] == Feed then input.template.feed.layers else input.template.story.layers, ps[i]))
  }

  /** Painting is refused for the first layer, of the first placement, that cannot be painted. */
  lemma {:induction false} PlacementsRefusedInOrder(ty: Typography, r: Registry, input: RenderInput, ps: seq<Placement>)
    ensures FirstStands(PlacementRefusals(ty, r, input, ps), PaintRefusal(ty, r, input, ps))
  {
    if ps != [] {
      var each := PlacementRefusals(ty, r, input, ps);
      PlacementsRefusedInOrder(ty, r, input, ps[1..]);
      FirstOf(each[0], PlacementRefusals(ty, r, input, ps[1..]), PaintRefusal(ty, r, input, ps[1..]));
      assert each == [each[0]] + PlacementRefusals(ty, r, input, ps[1..]);
    }
  }

  // ----- identifiers in reports

  /** A letter, a digit or one of four marks. */
  predicate Safe(c: char) {
    'A' <= c <= 'Z' || 'a' <= c <= 'z' || '0' <= c <= '9' || c == '.' || c == '_' || c == ':' || c == '-'
  }

  /** An identifier is reported with its first 160 characters, every unsafe one as an underscore; an empty one by a name of its own. */
  lemma LayerIdExactly(layerId: string)
    ensures var id := NormalizeLayerId(layerId);
      && (layerId == "" ==> id == "unnamed-layer")
      && (layerId != "" ==>
            |id| == Min(|layerId|, 160) && forall i :: 0 <= i < |id| ==> id[i] == if Safe(layerId[i]) then layerId[i] else '_')
  {
    assert forall i :: 0 <= i < |layerId| ==> (SafeChar(layerId[i]) <==> Safe(layerId[i]));
  }
}
