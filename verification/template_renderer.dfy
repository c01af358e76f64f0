/** The renderer's fonts, checks and refusals; what it paints on the canvas is not modelled. */
module TemplateRenderer {
  import opened Prelude
  import opened Placements
  import opened TemplateContract
  import TextWrap
  import TextLayout

  // ----- font aliases

  function TrimSlashes(path: string): string {
    if path != "" && path[|path| - 1] == '/' then TrimSlashes(path[..|path| - 1]) else path
  }

  /** What follows the last separator, or everything when there is none. */
  function AfterLast(s: string, sep: char): (rest: string)
    ensures |rest| <= |s|
    decreases |s|
  {
    if s == "" || s[|s| - 1] == sep then ""
    else AfterLast(s[..|s| - 1], sep) + [s[|s| - 1]]
  }

  function Basename(path: string): string {
    AfterLast(TrimSlashes(path), '/')
  }

  /** Without the last dot and what follows it, when something does. */
  function DropExtension(name: string): string {
    var extension := AfterLast(name, '.');
    if 0 < |extension| < |name| then name[..|name| - |extension| - 1] else name
  }

  function Alias(file: string): string {
    DropExtension(Basename(file))
  }

  // ----- registering fonts

  type Bytes = seq<bv8>

  /** The font folder, and which bytes load as a font. */
  datatype FontHost = FontHost(folder: map<string, Bytes>, loads: Bytes -> bool)

  datatype FontError = NoLongerRegistered(fileName: string) | Missing(fileName: string) | Unloadable(fileName: string)

  /** The aliases noted as registered, and the fonts the process has under each alias. */
  datatype Registry = Registry(aliases: set<string>, loaded: map<string, Bytes>)

  ghost predicate Consistent(r: Registry) {
    r.aliases <= r.loaded.Keys
  }

  function FontBytes(h: FontHost, values: map<string, Bytes>, file: string): Option<Bytes> {
    if file in values then Some(values[file])
    else if "font:" + file in values then Some(values["font:" + file])
    else if Basename(file) in h.folder then Some(h.folder[Basename(file)])
    else None
  }

  datatype Registering = Registering(registry: Registry, error: Option<FontError>)

  /** Registering one font under an alias, given the bytes found for it. */
  function Admit(h: FontHost, r: Registry, alias: string, fileName: string, bytes: Option<Bytes>): Registering {
    if alias in r.aliases then
      Registering(r, if alias in r.loaded then None else Some(NoLongerRegistered(fileName)))
    else if bytes.None? then Registering(r, Some(Missing(fileName)))
    else if !h.loads(bytes.value) then Registering(r, Some(Unloadable(fileName)))
    else Registering(Registry(r.aliases + {alias}, r.loaded[alias := bytes.value]), None)
  }

  function RegisterFont(h: FontHost, values: map<string, Bytes>, r: Registry, file: string): Registering {
    Admit(h, r, Alias(file), Basename(file), FontBytes(h, values, file))
  }

  function RegisterFonts(h: FontHost, values: map<string, Bytes>, r: Registry, fonts: seq<string>): Registering
    decreases |fonts|
  {
    if fonts == [] then Registering(r, None)
    else
      var first := RegisterFont(h, values, r, fonts[0]);
      if first.error.Some? then first else RegisterFonts(h, values, first.registry, fonts[1..])
  }

  /** The family a text layer is drawn with, or nothing when the original throws. */
  function ResolveFamily(r: Registry, file: string): Option<string> {
    if Alias(file) in r.aliases && Alias(file) in r.loaded then Some(Alias(file)) else None
  }

  // ----- preparing text

  /** Faces by family and style, and the change of case. */
  datatype Typography = Typography(face: (string, Style) -> TextWrap.Face, upper: Text -> Text, lower: Text -> Text)

  datatype Violation =
    | BelowReadabilityFloor(placement: Placement, layerId: string, floor: real)
    | CannotFitReadabilityFloor(placement: Placement, layerId: string, floor: real)
    | MultilineLineHeight(placement: Placement, layerId: string, maxLines: nat, lineHeight: real)

  datatype TextError = UnsupportedOverflow(layerId: string) | FontNotRegistered(fileName: string)

  datatype Preparation =
    | SkipText
    | Violates(violation: Violation)
    | Throws(error: TextError)
    | Paints(geometry: Rect, prepared: TextLayout.Prepared)

  predicate SafeChar(c: char) {
    'A' <= c <= 'Z' || 'a' <= c <= 'z' || '0' <= c <= '9' || c in "._:-"
  }

  function ReplaceUnsafe(s: string): (t: string)
    ensures |t| == |s|
    ensures forall i :: 0 <= i < |s| ==> t[i] == if SafeChar(s[i]) then s[i] else '_'
  {
    if s == "" then "" else [if SafeChar(s[0]) then s[0] else '_'] + ReplaceUnsafe(s[1..])
  }

  function NormalizeLayerId(layerId: string): string {
    var safe := ReplaceUnsafe(layerId);
    var short := if |safe| <= 160 then safe else safe[..160];
    if short == "" then "unnamed-layer" else short
  }

  function RenderGeometry(r: Rect, p: Placement): Rect {
    var width, height := CanvasWidth(p) as real, CanvasHeight(p) as real;
    var values := [r.x, r.y, r.width, r.height];
    if forall i :: 0 <= i < 4 ==> RealAbs(values[i]) <= 1.001
    then Rect(r.x * width, r.y * height, r.width * width, r.height * height)
    else r
  }

  function EffectiveTextFontSize(fontSize: real, sizeRatio: Option<real>, g: Rect): real {
    if sizeRatio.Some? && sizeRatio.value > 0.0 then g.height * sizeRatio.value else fontSize
  }

  function NormalizeOverflow(b: Behaviour): Option<TextLayout.Overflow> {
    match b
    case Policy(overflow) => Some(overflow)
    case Shrink => Some(TextLayout.ScaleDown)
    case Unknown => None
  }

  function ApplyCase(ty: Typography, text: Text, letterCase: LetterCase): Text {
    match letterCase
    case UpperCase => ty.upper(text)
    case LowerCase => ty.lower(text)
    case AsWritten => text
  }

  /** The text of a layer as it is laid out. */
  function ShownText(ty: Typography, layer: Layer, source: Text): Text
    requires layer.TextBox?
  {
    ApplyCase(ty, if |source| <= layer.maxCharacters then source else source[..layer.maxCharacters], layer.letterCase)
  }

  function LayoutOptions(ty: Typography, layer: Layer, source: Text, overflow: TextLayout.Overflow, p: Placement): TextLayout.Options
    requires layer.TextBox?
  {
    var g := RenderGeometry(layer.geometry, p);
    TextLayout.Options(
      ShownText(ty, layer, source), g.width, g.height,
      EffectiveTextFontSize(layer.fontSize, layer.sizeRatio, g), MinimumTextSize(p),
      layer.maxLines, layer.lineHeight, layer.tracking, overflow, ty.face(Alias(layer.font), layer.style))
  }

  /** The floor and the fitting, once text, policy and family are settled. */
  function FitText(ty: Typography, layer: Layer, source: Text, overflow: TextLayout.Overflow, p: Placement): Preparation
    requires layer.TextBox?
  {
    var o := LayoutOptions(ty, layer, source, overflow, p);
    var id := NormalizeLayerId(layer.layerId);
    if o.baseFontSize < o.readabilityFloor then Violates(BelowReadabilityFloor(p, id, o.readabilityFloor))
    else
      match o.Prepare()
      case Skip => SkipText
      case Unfit => Violates(CannotFitReadabilityFloor(p, id, o.readabilityFloor))
      case Paint(size, lines, ascent, descent, tracking) =>
        Paints(RenderGeometry(layer.geometry, p), TextLayout.Paint(size, lines, ascent, descent, tracking))
  }

  function PrepareText(ty: Typography, r: Registry, values: map<string, Text>, layer: Layer, p: Placement): Preparation
    requires layer.TextBox?
  {
    if layer.inputKey !in values || values[layer.inputKey] == [] then SkipText
    else
      var source := values[layer.inputKey];
      match NormalizeOverflow(layer.behaviour)
      case None => Throws(UnsupportedOverflow(NormalizeLayerId(layer.layerId)))
      case Some(overflow) =>
        if overflow == TextLayout.Refuse && |source| > layer.maxCharacters then SkipText
        else if ResolveFamily(r, layer.font).None? then Throws(FontNotRegistered(Basename(layer.font)))
        else FitText(ty, layer, source, overflow, p)
  }

  // ----- the preflight

  datatype Preflight = Checked(violations: seq<Violation>) | Thrown(error: TextError)

  function LayerPreflight(ty: Typography, r: Registry, values: map<string, Text>, layer: Layer, p: Placement): Preflight {
    if !layer.TextBox? then Checked([])
    else
      var tight :=
        if layer.maxLines > 1 && layer.lineHeight < MINIMUM_MULTILINE_LINE_HEIGHT
        then [MultilineLineHeight(p, NormalizeLayerId(layer.layerId), layer.maxLines, layer.lineHeight)] else [];
      Gather(tight, PrepareText(ty, r, values, layer, p))
  }

  function Gather(tight: seq<Violation>, prepared: Preparation): Preflight {
    match prepared
    case Throws(e) => Thrown(e)
    case Violates(v) => Checked(tight + [v])
    case SkipText => Checked(tight)
    case Paints(_, _) => Checked(tight)
  }

  function Then(first: Preflight, second: Preflight): Preflight {
    if first.Thrown? then first
    else if second.Thrown? then second
    else Checked(first.violations + second.violations)
  }

  function LayersPreflight(ty: Typography, r: Registry, values: map<string, Text>, layers: seq<Layer>, p: Placement): Preflight {
    if layers == [] then Checked([])
    else Then(LayerPreflight(ty, r, values, layers[0], p), LayersPreflight(ty, r, values, layers[1..], p))
  }

  function TextPreflight(ty: Typography, r: Registry, values: map<string, Text>, t: Template, ps: seq<Placement>): Preflight {
    if ps == [] then Checked([])
    else
      Then(LayersPreflight(ty, r, values, t.LayoutFor(ps[0]).layers, ps[0]), TextPreflight(ty, r, values, t, ps[1..]))
  }

  lemma ThenAssociates(a: Preflight, b: Preflight, c: Preflight)
    ensures Then(Then(a, b), c) == Then(a, Then(b, c))
  {
    if a.Checked? && b.Checked? && c.Checked? {
      assert a.violations + b.violations + c.violations == a.violations + (b.violations + c.violations);
    }
  }

  lemma ThenNothing(a: Preflight)
    ensures Then(Checked([]), a) == a && Then(a, Checked([])) == a
  {
    if a.Checked? {
      assert [] + a.violations == a.violations && a.violations + [] == a.violations;
    }
  }

  /** How the loops keep their findings. */
  function Found(violations: seq<Violation>, thrown: Option<TextError>): Preflight {
    if thrown.Some? then Thrown(thrown.value) else Checked(violations)
  }

  lemma GatherAfter(earlier: seq<Violation>, tight: seq<Violation>, prepared: Preparation)
    ensures Then(Checked(earlier), Gather(tight, prepared))
      == if prepared.Throws? then Thrown(prepared.error)
         else if prepared.Violates? then Checked(earlier + tight + [prepared.violation])
         else Checked(earlier + tight)
  {
    if prepared.Violates? {
      assert earlier + (tight + [prepared.violation]) == earlier + tight + [prepared.violation];
    }
  }

  /** One turn of the inner loop: the violations with those of this layer pushed. */
  method CheckLayer(ty: Typography, r: Registry, values: map<string, Text>, layer: Layer, p: Placement, earlier: seq<Violation>)
    returns (violations: seq<Violation>, thrown: Option<TextError>)
    ensures Found(violations, thrown) == Then(Checked(earlier), LayerPreflight(ty, r, values, layer, p))
  {
    violations, thrown := earlier, None;
    if !layer.TextBox? {
      ThenNothing(Checked(earlier));
      return;
    }
    ghost var tight := [];
    if layer.maxLines > 1 && layer.lineHeight < MINIMUM_MULTILINE_LINE_HEIGHT {
      tight := [MultilineLineHeight(p, NormalizeLayerId(layer.layerId), layer.maxLines, layer.lineHeight)];
      violations := violations + [MultilineLineHeight(p, NormalizeLayerId(layer.layerId), layer.maxLines, layer.lineHeight)];
    }
    assert violations == earlier + tight;
    var prepared := PrepareText(ty, r, values, layer, p);
    assert LayerPreflight(ty, r, values, layer, p) == Gather(tight, prepared);
    GatherAfter(earlier, tight, prepared);
    if prepared.Throws? {
      thrown := Some(prepared.error);
    } else if prepared.Violates? {
      violations := violations + [prepared.violation];
    }
  }

  /** The inner loop, over the layers of one layout. */
  method CheckLayers(ty: Typography, r: Registry, values: map<string, Text>, layers: seq<Layer>, p: Placement, earlier: seq<Violation>)
    returns (violations: seq<Violation>, thrown: Option<TextError>)
    ensures Found(violations, thrown) == Then(Checked(earlier), LayersPreflight(ty, r, values, layers, p))
  {
    violations, thrown := earlier, None;
    for i := 0 to |layers|
      invariant thrown.None?
      invariant Then(Checked(violations), LayersPreflight(ty, r, values, layers[i..], p))
        == Then(Checked(earlier), LayersPreflight(ty, r, values, layers, p))
    {
      assert layers[i..][1..] == layers[i + 1..];
      ThenAssociates(Checked(violations), LayerPreflight(ty, r, values, layers[i], p), LayersPreflight(ty, r, values, layers[i + 1..], p));
      violations, thrown := CheckLayer(ty, r, values, layers[i], p, violations);
      if thrown.Some? {
        return;
      }
    }
    ThenNothing(Checked(violations));
  }

  method AssertTextPreflight(ty: Typography, r: Registry, values: map<string, Text>, t: Template, ps: seq<Placement>)
    returns (violations: seq<Violation>, thrown: Option<TextError>)
    ensures Found(violations, thrown) == TextPreflight(ty, r, values, t, ps)
  {
    violations, thrown := [], None;
    ThenNothing(TextPreflight(ty, r, values, t, ps));
    for i := 0 to |ps|
      invariant thrown.None?
      invariant Then(Checked(violations), TextPreflight(ty, r, values, t, ps[i..])) == TextPreflight(ty, r, values, t, ps)
    {
      var layers := t.LayoutFor(ps[i]).layers;
      assert ps[i..][1..] == ps[i + 1..];
      ThenAssociates(Checked(violations), LayersPreflight(ty, r, values, layers, ps[i]), TextPreflight(ty, r, values, t, ps[i + 1..]));
      violations, thrown := CheckLayers(ty, r, values, layers, ps[i], violations);
      if thrown.Some? {
        return;
      }
    }
    ThenNothing(Checked(violations));
  }

  // ----- rendering

  datatype RenderInput = RenderInput(
    template: Template,
    images: set<string>,
    textValues: map<string, Text>,
    fontValues: map<string, Bytes>)

  datatype Refusal =
    | FontRefused(font: FontError)
    | BackgroundRefused(placement: Placement)
    | PreflightRefused(violations: seq<Violation>)
    | TextThrew(text: TextError)
    | AssetMissing(assetKey: string)
    | RingRefused(layerId: string)
    | RuleRefused(layerId: string)

  const MOST_VIOLATIONS := 512

  /** What the error carries: the first 512 violations. */
  function Reported(violations: seq<Violation>): Refusal {
    PreflightRefused(if |violations| <= MOST_VIOLATIONS then violations else violations[..MOST_VIOLATIONS])
  }

  predicate BackgroundPasses(layers: seq<Layer>, p: Placement) {
    layers != [] && layers[0].Plate? && layers[0].guarded
    && var g := RenderGeometry(layers[0].geometry, p);
      && RealAbs(g.x) <= 0.5 && RealAbs(g.y) <= 0.5
      && RealAbs(g.width - CanvasWidth(p) as real) <= 0.5 && RealAbs(g.height - CanvasHeight(p) as real) <= 0.5
  }

  function BackgroundRefusal(t: Template, ps: seq<Placement>): Option<Refusal> {
    if ps == [] then None
    else if !BackgroundPasses(t.LayoutFor(ps[0]).layers, ps[0]) then Some(BackgroundRefused(ps[0]))
    else BackgroundRefusal(t, ps[1..])
  }

  function VectorRefusal(layer: Layer, p: Placement): Option<Refusal>
    requires layer.Vector?
  {
    var g := RenderGeometry(layer.geometry, p);
    if layer.shape == Ring && RealAbs(g.width - g.height) > RealMax(1.0, RealMin(g.width, g.height) * 0.01)
    then Some(RingRefused(layer.layerId))
    else if layer.shape == Rule && RealMax(g.width, g.height) < MINIMUM_VECTOR_LINE_LENGTH
    then Some(RuleRefused(layer.layerId))
    else None
  }

  function LayerRefusal(ty: Typography, r: Registry, input: RenderInput, layer: Layer, p: Placement): Option<Refusal> {
    match layer
    case Vector(_, _, _) => VectorRefusal(layer, p)
    case TextBox(_, _, _, _, _, _, _, _, _, _, _, _, _, _) =>
      (match PrepareText(ty, r, input.textValues, layer, p)
       case Violates(v) => Some(PreflightRefused([v]))
       case Throws(e) => Some(TextThrew(e))
       case SkipText => None
       case Paints(_, _) => None)
    case Plate(_, _, _, _) =>
      if AssetOf(layer).Some? && AssetOf(layer).value !in input.images then Some(AssetMissing(AssetOf(layer).value)) else None
    case Overlay(_, _, _) =>
      if AssetOf(layer).Some? && AssetOf(layer).value !in input.images then Some(AssetMissing(AssetOf(layer).value)) else None
    case ImageSlot(_, _, _) => None
    case Logo(_, _, _) => None
    case Icon(_, _) => None
  }

  function LayersRefusal(ty: Typography, r: Registry, input: RenderInput, layers: seq<Layer>, p: Placement): Option<Refusal> {
    if layers == [] then None
    else
      var first := LayerRefusal(ty, r, input, layers[0], p);
      if first.Some? then first else LayersRefusal(ty, r, input, layers[1..], p)
  }

  function PaintRefusal(ty: Typography, r: Registry, input: RenderInput, ps: seq<Placement>): Option<Refusal> {
    if ps == [] then None
    else
      var first := LayersRefusal(ty, r, input, input.template.LayoutFor(ps[0]).layers, ps[0]);
      if first.Some? then first else PaintRefusal(ty, r, input, ps[1..])
  }

  /** What rendering the given placements refuses, once the fonts are registered. */
  function RenderRefusal(ty: Typography, r: Registry, input: RenderInput, ps: seq<Placement>): Option<Refusal> {
    var background := BackgroundRefusal(input.template, ps);
    if background.Some? then background
    else
      match TextPreflight(ty, r, input.textValues, input.template, ps)
      case Thrown(e) => Some(TextThrew(e))
      case Checked(violations) =>
        if violations != [] then Some(Reported(violations)) else PaintRefusal(ty, r, input, ps)
  }

  // ----- the module state as an object

  class Renderer {
    const typography: Typography
    const host: FontHost
    var registeredFontAliases: set<string>
    var loadedFonts: map<string, Bytes>

    function Fonts(): Registry
      reads this
    {
      Registry(registeredFontAliases, loadedFonts)
    }

    constructor (typography: Typography, host: FontHost)
      ensures this.typography == typography && this.host == host
      ensures Fonts() == Registry({}, map[])
    {
      this.typography, this.host := typography, host;
      registeredFontAliases, loadedFonts := {}, map[];
    }

    /** One turn of the loop over fonts. */
    method RegisterOne(alias: string, fileName: string, bytes: Option<Bytes>) returns (error: Option<FontError>)
      modifies this
      ensures Registering(Fonts(), error) == Admit(host, old(Fonts()), alias, fileName, bytes)
    {
      if alias in registeredFontAliases {
        return if alias in loadedFonts then None else Some(NoLongerRegistered(fileName));
      }
      if bytes.None? {
        return Some(Missing(fileName));
      }
      if !host.loads(bytes.value) {
        return Some(Unloadable(fileName));
      }
      loadedFonts := loadedFonts[alias := bytes.value];
      registeredFontAliases := registeredFontAliases + {alias};
      error := None;
    }

    method RegisterTemplateFonts(t: Template, fontValues: map<string, Bytes>) returns (error: Option<FontError>)
      modifies this
      ensures Registering(Fonts(), error) == RegisterFonts(host, fontValues, old(Fonts()), t.fonts)
    {
      error := None;
      for i := 0 to |t.fonts|
        invariant error.None?
        invariant RegisterFonts(host, fontValues, Fonts(), t.fonts[i..]) == RegisterFonts(host, fontValues, old(Fonts()), t.fonts)
      {
        assert t.fonts[i..][1..] == t.fonts[i + 1..];
        var file := t.fonts[i];
        error := RegisterOne(Alias(file), Basename(file), FontBytes(host, fontValues, file));
        if error.Some? {
          return;
        }
      }
    }

    /** renderPlacement for one placement, renderBoth for the two. */
    method Render(input: RenderInput, ps: seq<Placement>) returns (refusal: Option<Refusal>)
      modifies this
      ensures
        var registering := RegisterFonts(host, input.fontValues, old(Fonts()), input.template.fonts);
        && Fonts() == registering.registry
        && refusal ==
             if registering.error.Some? then Some(FontRefused(registering.error.value))
             else RenderRefusal(typography, Fonts(), input, ps)
    {
      var error := RegisterTemplateFonts(input.template, input.fontValues);
      if error.Some? {
        return Some(FontRefused(error.value));
      }
      refusal := BackgroundRefusal(input.template, ps);
      if refusal.Some? {
        return;
      }
      var violations, thrown := AssertTextPreflight(typography, Fonts(), input.textValues, input.template, ps);
      if thrown.Some? {
        return Some(TextThrew(thrown.value));
      }
      if violations != [] {
        return Some(Reported(violations));
      }
      refusal := PaintRefusal(typography, Fonts(), input, ps);
    }
  }
}
