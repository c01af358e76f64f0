/** The template contract: which layouts and templates the schema accepts. */
module TemplateContract {
  import opened Prelude
  import opened Placements
  import TextWrap
  import TextLayout

  type Text = TextWrap.Text

  datatype Rect = Rect(x: real, y: real, width: real, height: real)

  datatype Shape = Rectangle | Rounded | Circle | Rule | Pill | Notched | Wave | Ring

  datatype Alignment = Left | Center | Right

  /** The authored spelling of an overflow policy; the last two are outside the contract. */
  datatype Behaviour = Policy(overflow: TextLayout.Overflow) | Shrink | Unknown

  datatype LetterCase = AsWritten | UpperCase | LowerCase

  /** What picks a face within a font family. */
  datatype Style = Style(weight: Option<int>, italic: bool)

  datatype Layer =
    | Plate(layerId: string, geometry: Rect, guarded: bool, assetKey: Option<string>)
    | Overlay(layerId: string, geometry: Rect, assetKey: Option<string>)
    | ImageSlot(layerId: string, geometry: Rect, inputKey: string)
    | Logo(layerId: string, geometry: Rect, inputKey: string)
    | Icon(layerId: string, geometry: Rect)
    | Vector(layerId: string, geometry: Rect, shape: Shape)
    | TextBox(
        layerId: string,
        geometry: Rect,
        inputKey: string,
        font: string,
        fontSize: real,
        sizeRatio: Option<real>,
        style: Style,
        letterCase: LetterCase,
        lineHeight: real,
        tracking: real,
        alignment: Alignment,
        maxCharacters: nat,
        maxLines: nat,
        behaviour: Behaviour)

  datatype Layout = Layout(placement: Placement, layers: seq<Layer>, safeZones: seq<Rect>)

  const MINIMUM_MULTILINE_LINE_HEIGHT := 1.0
  const MINIMUM_VECTOR_LINE_LENGTH := 8.0

  // ----- field by field

  predicate RectWellFormed(r: Rect) {
    r.width > 0.0 && r.height > 0.0
  }

  predicate LayerWellFormed(layer: Layer) {
    && layer.layerId != "" && RectWellFormed(layer.geometry)
    && (layer.TextBox? ==>
          && layer.inputKey != "" && layer.font != "" && layer.fontSize > 0.0
          && (layer.sizeRatio.Some? ==> layer.sizeRatio.value > 0.0)
          && layer.lineHeight > 0.0 && -4.0 <= layer.tracking <= 4.0
          && layer.maxCharacters > 0 && layer.maxLines > 0 && layer.behaviour.Policy?)
  }

  predicate LayoutWellFormed(layout: Layout) {
    && 1 <= |layout.layers| <= 256 && |layout.safeZones| <= 32
    && (forall i :: 0 <= i < |layout.layers| ==> LayerWellFormed(layout.layers[i]))
    && forall i :: 0 <= i < |layout.safeZones| ==> RectWellFormed(layout.safeZones[i])
  }

  // ----- the refinement of a layout

  /** Coordinates all within 1.001 of zero are fractions of the canvas; any others are pixels. */
  function ResolveRect(r: Rect, width: real, height: real): Rect {
    if RealAbs(r.x) <= 1.001 && RealAbs(r.y) <= 1.001 && RealAbs(r.width) <= 1.001 && RealAbs(r.height) <= 1.001
    then Rect(r.x * width, r.y * height, r.width * width, r.height * height)
    else r
  }

  function Resolved(r: Rect, p: Placement): Rect {
    ResolveRect(r, CanvasWidth(p) as real, CanvasHeight(p) as real)
  }

  datatype Issue =
    | NoBackground
    | LayerOutside
    | TextTooSmall
    | LinesTooTight(layerId: string)
    | RingNotSquare
    | RuleTooShort(layerId: string)
    | ZoneOutside

  predicate Outside(g: Rect, p: Placement) {
    || g.x < 0.0 || g.y < 0.0
    || g.x + g.width > CanvasWidth(p) as real || g.y + g.height > CanvasHeight(p) as real
  }

  predicate CoversCanvas(g: Rect, p: Placement) {
    && RealAbs(g.x) <= 0.5 && RealAbs(g.y) <= 0.5
    && RealAbs(g.width - CanvasWidth(p) as real) <= 0.5 && RealAbs(g.height - CanvasHeight(p) as real) <= 0.5
  }

  function SquareTolerance(g: Rect): real {
    RealMax(1.0, RealMin(g.width, g.height) * 0.01)
  }

  function LayerIssues(layer: Layer, p: Placement): seq<Issue> {
    var g := Resolved(layer.geometry, p);
    (if Outside(g, p) then [LayerOutside] else [])
    + (if layer.TextBox? && layer.fontSize < MinimumTextSize(p) then [TextTooSmall] else [])
    + (if layer.TextBox? && layer.maxLines > 1 && layer.lineHeight < MINIMUM_MULTILINE_LINE_HEIGHT
       then [LinesTooTight(layer.layerId)] else [])
    + (if layer.Vector? && layer.shape == Ring && RealAbs(g.width - g.height) > SquareTolerance(g)
       then [RingNotSquare] else [])
    + (if layer.Vector? && layer.shape == Rule && RealMax(g.width, g.height) < MINIMUM_VECTOR_LINE_LENGTH
       then [RuleTooShort(layer.layerId)] else [])
  }

  function AllLayerIssues(layers: seq<Layer>, p: Placement): seq<Issue> {
    if layers == [] then [] else LayerIssues(layers[0], p) + AllLayerIssues(layers[1..], p)
  }

  function ZoneIssues(zones: seq<Rect>, p: Placement): seq<Issue> {
    if zones == [] then []
    else (if Outside(Resolved(zones[0], p), p) then [ZoneOutside] else []) + ZoneIssues(zones[1..], p)
  }

  predicate HasBackground(layout: Layout) {
    && layout.layers != [] && layout.layers[0].Plate? && layout.layers[0].guarded
    && CoversCanvas(Resolved(layout.layers[0].geometry, layout.placement), layout.placement)
  }

  function LayoutIssues(layout: Layout): seq<Issue> {
    (if HasBackground(layout) then [] else [NoBackground])
    + AllLayerIssues(layout.layers, layout.placement)
    + ZoneIssues(layout.safeZones, layout.placement)
  }

  /** The refinement callback: one pass over the layers, one over the safe zones. */
  method RefineLayout(layout: Layout) returns (issues: seq<Issue>)
    ensures issues == LayoutIssues(layout)
  {
    issues := [];
    var width, height := CanvasWidth(layout.placement) as real, CanvasHeight(layout.placement) as real;
    if layout.layers == [] || !layout.layers[0].Plate? || !layout.layers[0].guarded {
      issues := [NoBackground];
    } else {
      var g := ResolveRect(layout.layers[0].geometry, width, height);
      if RealAbs(g.x) > 0.5 || RealAbs(g.y) > 0.5 || RealAbs(g.width - width) > 0.5 || RealAbs(g.height - height) > 0.5 {
        issues := [NoBackground];
      }
    }
    var ofLayers := RefineLayers(layout.layers, layout.placement);
    var ofZones := RefineZones(layout.safeZones, layout.placement);
    issues := issues + ofLayers + ofZones;
  }

  method RefineLayers(layers: seq<Layer>, p: Placement) returns (issues: seq<Issue>)
    ensures issues == AllLayerIssues(layers, p)
  {
    issues := [];
    for i := 0 to |layers|
      invariant issues + AllLayerIssues(layers[i..], p) == AllLayerIssues(layers, p)
    {
      var found := RefineLayer(layers[i], p);
      LayersStep(layers, p, i);
      IssuesRegroup(issues, found, AllLayerIssues(layers[i + 1..], p));
      issues := issues + found;
    }
  }

  method RefineZones(zones: seq<Rect>, p: Placement) returns (issues: seq<Issue>)
    ensures issues == ZoneIssues(zones, p)
  {
    issues := [];
    for i := 0 to |zones|
      invariant issues + ZoneIssues(zones[i..], p) == ZoneIssues(zones, p)
    {
      ZonesStep(zones, p, i);
      IssuesRegroup(issues, if Outside(Resolved(zones[i], p), p) then [ZoneOutside] else [], ZoneIssues(zones[i + 1..], p));
      if Outside(Resolved(zones[i], p), p) {
        issues := issues + [ZoneOutside];
      }
    }
  }

  lemma IssuesRegroup(a: seq<Issue>, b: seq<Issue>, c: seq<Issue>)
    ensures a + (b + c) == (a + b) + c
    ensures a + [] == a
  {
  }

  lemma LayersStep(layers: seq<Layer>, p: Placement, i: nat)
    requires i < |layers|
    ensures AllLayerIssues(layers[i..], p) == LayerIssues(layers[i], p) + AllLayerIssues(layers[i + 1..], p)
  {
    assert layers[i..][1..] == layers[i + 1..];
  }

  lemma ZonesStep(zones: seq<Rect>, p: Placement, i: nat)
    requires i < |zones|
    ensures ZoneIssues(zones[i..], p)
      == (if Outside(Resolved(zones[i], p), p) then [ZoneOutside] else []) + ZoneIssues(zones[i + 1..], p)
  {
    assert zones[i..][1..] == zones[i + 1..];
  }

  /** One turn of the loop over layers. */
  method RefineLayer(layer: Layer, p: Placement) returns (issues: seq<Issue>)
    ensures issues == LayerIssues(layer, p)
  {
    issues := [];
    var g := Resolved(layer.geometry, p);
    if Outside(g, p) {
      issues := issues + [LayerOutside];
    }
    if layer.TextBox? && layer.fontSize < MinimumTextSize(p) {
      issues := issues + [TextTooSmall];
    }
    if layer.TextBox? && layer.maxLines > 1 && layer.lineHeight < MINIMUM_MULTILINE_LINE_HEIGHT {
      issues := issues + [LinesTooTight(layer.layerId)];
    }
    if layer.Vector? && layer.shape == Ring {
      var squareTolerance := RealMax(1.0, RealMin(g.width, g.height) * 0.01);
      if RealAbs(g.width - g.height) > squareTolerance {
        issues := issues + [RingNotSquare];
      }
    }
    if layer.Vector? && layer.shape == Rule && RealMax(g.width, g.height) < MINIMUM_VECTOR_LINE_LENGTH {
      issues := issues + [RuleTooShort(layer.layerId)];
    }
  }

  /** What it takes for a layer to raise no issue. */
  predicate LayerSound(layer: Layer, p: Placement) {
    var g := Resolved(layer.geometry, p);
    && 0.0 <= g.x && g.x + g.width <= CanvasWidth(p) as real
    && 0.0 <= g.y && g.y + g.height <= CanvasHeight(p) as real
    && (layer.TextBox? ==> layer.fontSize >= MinimumTextSize(p) && (layer.maxLines <= 1 || layer.lineHeight >= 1.0))
    && (layer.Vector? && layer.shape == Ring ==>
          || RealAbs(g.width - g.height) <= 1.0
          || 100.0 * RealAbs(g.width - g.height) <= RealMin(g.width, g.height))
    && (layer.Vector? && layer.shape == Rule ==> g.width >= 8.0 || g.height >= 8.0)
  }

  predicate LayoutAccepted(layout: Layout) {
    LayoutWellFormed(layout) && LayoutIssues(layout) == []
  }

  lemma {:induction false} NoLayerIssues(layers: seq<Layer>, p: Placement)
    ensures AllLayerIssues(layers, p) == [] <==> forall i :: 0 <= i < |layers| ==> LayerSound(layers[i], p)
  {
    if layers != [] {
      NoLayerIssues(layers[1..], p);
      assert LayerIssues(layers[0], p) == [] <==> LayerSound(layers[0], p);
      assert AllLayerIssues(layers, p) == [] <==> LayerIssues(layers[0], p) == [] && AllLayerIssues(layers[1..], p) == [];
      assert forall i :: 1 <= i < |layers| ==> layers[i] == layers[1..][i - 1];
    }
  }

  lemma {:induction false} NoZoneIssues(zones: seq<Rect>, p: Placement)
    ensures ZoneIssues(zones, p) == [] <==> forall i :: 0 <= i < |zones| ==> !Outside(Resolved(zones[i], p), p)
  {
    if zones != [] {
      NoZoneIssues(zones[1..], p);
      assert forall i :: 1 <= i < |zones| ==> zones[i] == zones[1..][i - 1];
    }
  }

  /** A layout is accepted exactly when its background, its layers and its zones are all sound. */
  lemma AcceptedExactly(layout: Layout)
    requires LayoutWellFormed(layout)
    ensures LayoutAccepted(layout) <==>
      && HasBackground(layout)
      && (forall i :: 0 <= i < |layout.layers| ==> LayerSound(layout.layers[i], layout.placement))
      && forall i :: 0 <= i < |layout.safeZones| ==> !Outside(Resolved(layout.safeZones[i], layout.placement), layout.placement)
  {
    NoLayerIssues(layout.layers, layout.placement);
    NoZoneIssues(layout.safeZones, layout.placement);
  }

  // ----- the refinement of a template

  datatype ImageInput = ImageInput(key: string, defaultAssetKey: Option<string>)

  datatype TextInput = TextInput(key: string, placeholder: Text)

  datatype Replacement = Replacement(inputKey: string, assetKey: string)

  datatype Template = Template(
    feed: Layout,
    story: Layout,
    imageInputs: seq<ImageInput>,
    textInputs: seq<TextInput>,
    assets: set<string>,
    fonts: seq<string>,
    replacements: seq<Replacement>)
  {
    function Layers(): seq<Layer> {
      feed.layers + story.layers
    }

    function LayoutFor(p: Placement): Layout {
      if p == Feed then feed else story
    }
  }

  /** The keys of the inputs, images first. */
  function InputKeys(t: Template): seq<string> {
    ImageKeys(t.imageInputs) + TextKeys(t.textInputs)
  }

  function ImageKeys(inputs: seq<ImageInput>): seq<string> {
    seq(|inputs|, i requires 0 <= i < |inputs| => inputs[i].key)
  }

  function TextKeys(inputs: seq<TextInput>): seq<string> {
    seq(|inputs|, i requires 0 <= i < |inputs| => inputs[i].key)
  }

  function LayerIds(layers: seq<Layer>): seq<string> {
    seq(|layers|, i requires 0 <= i < |layers| => layers[i].layerId)
  }

  /** The key of a replacement as the uniqueness check sees it. */
  function JoinedKey(r: Replacement): string {
    r.inputKey + ":" + r.assetKey
  }

  function JoinedKeys(rs: seq<Replacement>): seq<string> {
    seq(|rs|, i requires 0 <= i < |rs| => JoinedKey(rs[i]))
  }

  ghost predicate Distinct<T>(xs: seq<T>) {
    forall i, j :: 0 <= i < j < |xs| ==> xs[i] != xs[j]
  }

  function Elements<T(==)>(xs: seq<T>): set<T> {
    set x | x in xs
  }

  /** The number of lines that hard breaks make: after CRLF, a lone CR, or LF. */
  function HardLines(t: Text): (n: nat)
    ensures n >= 1
  {
    if t == [] then 1
    else if t[0] == TextWrap.LINE_FEED then 1 + HardLines(t[1..])
    else if t[0] == TextWrap.CARRIAGE_RETURN then
      1 + HardLines(if |t| > 1 && t[1] == TextWrap.LINE_FEED then t[2..] else t[1..])
    else HardLines(t[1..])
  }

  function FindInput(inputs: seq<TextInput>, key: string): (found: Option<TextInput>)
    ensures found.Some? <==> exists i :: 0 <= i < |inputs| && inputs[i].key == key
    ensures found.Some? ==>
      exists i :: 0 <= i < |inputs| && found.value == inputs[i] && inputs[i].key == key && forall j :: 0 <= j < i ==> inputs[j].key != key
  {
    if inputs == [] then None
    else if inputs[0].key == key then Some(inputs[0])
    else
      var later := FindInput(inputs[1..], key);
      assert forall i :: 1 <= i < |inputs| ==> inputs[i] == inputs[1..][i - 1];
      later
  }

  function PlaceholderLines(t: Template, key: string): nat {
    match FindInput(t.textInputs, key)
    case None => 0
    case Some(input) => HardLines(input.placeholder)
  }

  predicate HasInput(layer: Layer) {
    layer.ImageSlot? || layer.Logo? || layer.TextBox?
  }

  /** The asset a layer paints, if any. */
  function AssetOf(layer: Layer): Option<string> {
    if (layer.Plate? || layer.Overlay?) && layer.assetKey.Some? && layer.assetKey.value != "" then layer.assetKey else None
  }

  predicate LayerDeclared(t: Template, layer: Layer) {
    && (HasInput(layer) ==> layer.inputKey in InputKeys(t))
    && (AssetOf(layer).Some? ==> AssetOf(layer).value in t.assets)
    && (layer.TextBox? ==> layer.font in t.fonts && PlaceholderLines(t, layer.inputKey) <= layer.maxLines)
  }

  predicate ReplacementDeclared(t: Template, r: Replacement) {
    r.inputKey in InputKeys(t) && r.assetKey in t.assets
  }

  predicate DefaultDeclared(t: Template, input: ImageInput) {
    input.defaultAssetKey.Some? && input.defaultAssetKey.value != "" ==> input.defaultAssetKey.value in t.assets
  }

  /** Everything a template refers to is declared, and nothing is declared twice. */
  ghost predicate Coherent(t: Template) {
    && Distinct(InputKeys(t)) && Distinct(t.fonts) && Distinct(LayerIds(t.Layers()))
    && (forall i :: 0 <= i < |t.imageInputs| ==> DefaultDeclared(t, t.imageInputs[i]))
    && (forall i :: 0 <= i < |t.Layers()| ==> LayerDeclared(t, t.Layers()[i]))
    && (forall i :: 0 <= i < |t.replacements| ==> ReplacementDeclared(t, t.replacements[i]))
    && Distinct(JoinedKeys(t.replacements))
  }

  ghost predicate TemplateAccepted(t: Template) {
    && t.feed.placement == Feed && t.story.placement == Story
    && LayoutAccepted(t.feed) && LayoutAccepted(t.story)
    && Coherent(t)
  }

  /** A list holds no value twice exactly when its set is as large as it is. */
  lemma {:induction false} SizeMeansDistinct<T>(xs: seq<T>)
    ensures |Elements(xs)| <= |xs|
    ensures |Elements(xs)| == |xs| <==> Distinct(xs)
  {
    if xs != [] {
      var x, rest := xs[|xs| - 1], xs[..|xs| - 1];
      SizeMeansDistinct(rest);
      assert xs == rest + [x];
      if x in rest {
        assert Elements(xs) == Elements(rest);
        var i :| 0 <= i < |rest| && rest[i] == x;
        assert xs[i] == xs[|xs| - 1];
      } else {
        assert Elements(xs) == Elements(rest) + {x};
        assert forall i :: 0 <= i < |rest| ==> xs[i] == rest[i];
      }
    }
  }

  datatype TemplateIssue =
    | InputKeysNotUnique
    | FontFilesNotUnique
    | DefaultAssetNotDeclared
    | LayerIdsNotUnique
    | LayerInputNotDeclared
    | LayerAssetNotDeclared
    | TextFontNotDeclared
    | PlaceholderTooLong
    | ReplacementInputNotDeclared
    | ReplacementAssetNotDeclared
    | ReplacementsNotUnique

  /** What each issue says of one layer. */
  predicate RaisedBy(t: Template, layer: Layer, issue: TemplateIssue) {
    match issue
    case LayerInputNotDeclared => HasInput(layer) && layer.inputKey !in InputKeys(t)
    case LayerAssetNotDeclared => AssetOf(layer).Some? && AssetOf(layer).value !in t.assets
    case TextFontNotDeclared => layer.TextBox? && layer.font !in t.fonts
    case PlaceholderTooLong => layer.TextBox? && PlaceholderLines(t, layer.inputKey) > layer.maxLines
    case _ => false
  }

  ghost predicate RaisedUpTo(t: Template, layers: seq<Layer>, n: nat, issue: TemplateIssue)
    requires n <= |layers|
  {
    exists i :: 0 <= i < n && RaisedBy(t, layers[i], issue)
  }

  /** What each issue says of the first mappings. */
  ghost predicate MappingRaises(t: Template, n: nat, issue: TemplateIssue)
    requires n <= |t.replacements|
  {
    match issue
    case ReplacementInputNotDeclared => exists i :: 0 <= i < n && t.replacements[i].inputKey !in InputKeys(t)
    case ReplacementAssetNotDeclared => exists i :: 0 <= i < n && t.replacements[i].assetKey !in t.assets
    case ReplacementsNotUnique => !Distinct(JoinedKeys(t.replacements)[..n])
    case _ => false
  }

  ghost predicate DefaultRaises(t: Template, n: nat, issue: TemplateIssue)
    requires n <= |t.imageInputs|
  {
    issue == DefaultAssetNotDeclared && exists i :: 0 <= i < n && !DefaultDeclared(t, t.imageInputs[i])
  }

  /** What each issue says of the lists. */
  ghost predicate ListRaises(t: Template, issue: TemplateIssue) {
    match issue
    case InputKeysNotUnique => !Distinct(InputKeys(t))
    case FontFilesNotUnique => !Distinct(t.fonts)
    case LayerIdsNotUnique => !Distinct(LayerIds(t.Layers()))
    case _ => false
  }

  ghost predicate Raised(t: Template, issue: TemplateIssue) {
    || ListRaises(t, issue)
    || DefaultRaises(t, |t.imageInputs|, issue)
    || RaisedUpTo(t, t.Layers(), |t.Layers()|, issue)
    || MappingRaises(t, |t.replacements|, issue)
  }

  /** One test: the issue is raised when it fails. */
  method Report(issues: seq<TemplateIssue>, failed: bool, issue: TemplateIssue) returns (reported: seq<TemplateIssue>)
    ensures forall other :: other in reported <==> other in issues || (failed && other == issue)
  {
    reported := if failed then issues + [issue] else issues;
  }

  /** The loop over the images' defaults. */
  method RefineDefaults(t: Template) returns (issues: seq<TemplateIssue>)
    ensures forall issue :: issue in issues <==> DefaultRaises(t, |t.imageInputs|, issue)
  {
    issues := [];
    for i := 0 to |t.imageInputs|
      invariant forall issue :: issue in issues <==> DefaultRaises(t, i, issue)
    {
      issues := Report(issues, !DefaultDeclared(t, t.imageInputs[i]), DefaultAssetNotDeclared);
    }
  }

  /** The refinement callback of a template, up to the review metadata. */
  method RefineTemplate(t: Template) returns (issues: seq<TemplateIssue>)
    ensures forall issue :: issue in issues <==> Raised(t, issue)
  {
    var inputKeys := InputKeys(t);
    SizeMeansDistinct(inputKeys);
    issues := Report([], |Elements(inputKeys)| != |inputKeys|, InputKeysNotUnique);
    SizeMeansDistinct(t.fonts);
    issues := Report(issues, |Elements(t.fonts)| != |t.fonts|, FontFilesNotUnique);
    var defaults := RefineDefaults(t);
    issues := issues + defaults;
    var layers := t.Layers();
    SizeMeansDistinct(LayerIds(layers));
    issues := Report(issues, |Elements(LayerIds(layers))| != |layers|, LayerIdsNotUnique);
    ghost var earlier := issues;
    for i := 0 to |layers|
      invariant forall issue :: issue in issues <==> issue in earlier || RaisedUpTo(t, layers, i, issue)
    {
      var found := RefineReferences(t, layers[i]);
      issues := issues + found;
    }
    var replaced := RefineReplacements(t);
    issues := issues + replaced;
  }

  /** One turn of the loop over layers. */
  method RefineReferences(t: Template, layer: Layer) returns (issues: seq<TemplateIssue>)
    ensures forall issue :: issue in issues <==> RaisedBy(t, layer, issue)
  {
    issues := Report([], HasInput(layer) && layer.inputKey !in InputKeys(t), LayerInputNotDeclared);
    issues := Report(issues, AssetOf(layer).Some? && AssetOf(layer).value !in t.assets, LayerAssetNotDeclared);
    issues := Report(issues, layer.TextBox? && layer.font !in t.fonts, TextFontNotDeclared);
    issues := Report(issues, layer.TextBox? && PlaceholderLines(t, layer.inputKey) > layer.maxLines, PlaceholderTooLong);
  }

  /** The loop over replacements, which fills the set of joined keys. */
  method RefineReplacements(t: Template) returns (issues: seq<TemplateIssue>)
    ensures forall issue :: issue in issues <==> MappingRaises(t, |t.replacements|, issue)
  {
    issues := [];
    ghost var keys := JoinedKeys(t.replacements);
    var seen: set<string> := {};
    for i := 0 to |t.replacements|
      invariant forall key :: key in seen <==> key in keys[..i]
      invariant forall issue :: issue in issues <==> MappingRaises(t, i, issue)
    {
      var replacement := t.replacements[i];
      issues := Report(issues, replacement.inputKey !in InputKeys(t), ReplacementInputNotDeclared);
      issues := Report(issues, replacement.assetKey !in t.assets, ReplacementAssetNotDeclared);
      var key := JoinedKey(replacement);
      issues := Report(issues, key in seen, ReplacementsNotUnique);
      seen := seen + {key};
      NextMapping(t, i, i + 1);
      assert keys[..i + 1] == keys[..i] + [key];
    }
    assert keys[..|t.replacements|] == keys;
  }

  /** What one more mapping raises. */
  predicate NextRaises(t: Template, i: nat, issue: TemplateIssue)
    requires i < |t.replacements|
  {
    match issue
    case ReplacementInputNotDeclared => t.replacements[i].inputKey !in InputKeys(t)
    case ReplacementAssetNotDeclared => t.replacements[i].assetKey !in t.assets
    case ReplacementsNotUnique => JoinedKey(t.replacements[i]) in JoinedKeys(t.replacements)[..i]
    case _ => false
  }

  lemma NextMapping(t: Template, i: nat, j: nat)
    requires i < |t.replacements| && j == i + 1
    ensures forall issue :: MappingRaises(t, j, issue) <==> MappingRaises(t, i, issue) || NextRaises(t, i, issue)
  {
    var keys := JoinedKeys(t.replacements);
    DistinctGrows(keys[..i], keys[i]);
    assert keys[..j] == keys[..i] + [keys[i]];
    forall issue
      ensures MappingRaises(t, j, issue) <==> MappingRaises(t, i, issue) || NextRaises(t, i, issue)
    {
    }
  }

  lemma NothingRaised(t: Template)
    requires forall issue :: !Raised(t, issue)
    ensures Distinct(InputKeys(t)) && Distinct(t.fonts) && Distinct(LayerIds(t.Layers())) && Distinct(JoinedKeys(t.replacements))
    ensures forall i :: 0 <= i < |t.imageInputs| ==> DefaultDeclared(t, t.imageInputs[i])
    ensures forall i :: 0 <= i < |t.replacements| ==> ReplacementDeclared(t, t.replacements[i])
  {
    assert JoinedKeys(t.replacements)[..|t.replacements|] == JoinedKeys(t.replacements);
    assert !Raised(t, InputKeysNotUnique) && !Raised(t, FontFilesNotUnique) && !Raised(t, LayerIdsNotUnique);
    assert !Raised(t, DefaultAssetNotDeclared) && !Raised(t, ReplacementsNotUnique);
    assert !Raised(t, ReplacementInputNotDeclared) && !Raised(t, ReplacementAssetNotDeclared);
  }

  lemma NoLayerRaises(t: Template, i: nat)
    requires i < |t.Layers()| && forall issue :: !Raised(t, issue)
    ensures LayerDeclared(t, t.Layers()[i])
  {
    assert !Raised(t, LayerInputNotDeclared) && !Raised(t, LayerAssetNotDeclared);
    assert !Raised(t, TextFontNotDeclared) && !Raised(t, PlaceholderTooLong);
    var layer := t.Layers()[i];
    assert !RaisedBy(t, layer, LayerInputNotDeclared) && !RaisedBy(t, layer, LayerAssetNotDeclared);
    assert !RaisedBy(t, layer, TextFontNotDeclared) && !RaisedBy(t, layer, PlaceholderTooLong);
  }

  lemma CoherentRaisesNothing(t: Template, issue: TemplateIssue)
    requires Coherent(t)
    ensures !Raised(t, issue)
  {
    assert JoinedKeys(t.replacements)[..|t.replacements|] == JoinedKeys(t.replacements);
  }

  /** No issue is raised exactly when everything is declared and nothing is there twice. */
  lemma NoIssueExactly(t: Template)
    ensures (forall issue :: !Raised(t, issue)) <==> Coherent(t)
  {
    if Coherent(t) {
      forall issue
        ensures !Raised(t, issue)
      {
        CoherentRaisesNothing(t, issue);
      }
    }
    if forall issue :: !Raised(t, issue) {
      NothingRaised(t);
      forall i | 0 <= i < |t.Layers()|
        ensures LayerDeclared(t, t.Layers()[i])
      {
        NoLayerRaises(t, i);
      }
    }
  }

  lemma DistinctGrows<T>(xs: seq<T>, x: T)
    ensures Distinct(xs + [x]) <==> Distinct(xs) && x !in xs
  {
    var ys := xs + [x];
    assert forall i :: 0 <= i < |xs| ==> ys[i] == xs[i];
    if x in xs {
      var i :| 0 <= i < |xs| && xs[i] == x;
      assert ys[i] == ys[|xs|];
    }
  }

  // ----- what acceptance gives

  /** No accepted template maps one input to one asset twice. */
  lemma ReplacementsAreUnique(t: Template)
    requires Coherent(t)
    ensures Distinct(t.replacements)
  {
    var keys := JoinedKeys(t.replacements);
    forall i, j | 0 <= i < j < |t.replacements|
      ensures t.replacements[i] != t.replacements[j]
    {
      assert keys[i] != keys[j];
    }
  }

  /** The key of `b` reads as that of `a` with the colon moved to the right by `x` and one. */
  predicate ColonMoved(a: Replacement, b: Replacement, x: string) {
    b.inputKey == a.inputKey + ":" + x && a.assetKey == x + ":" + b.assetKey
  }

  lemma ColonMovedCollides(a: Replacement, b: Replacement, x: string)
    requires ColonMoved(a, b, x)
    ensures JoinedKey(a) == JoinedKey(b)
  {
    assert JoinedKey(a) == a.inputKey + ":" + (x + ":" + b.assetKey);
    assert JoinedKey(b) == a.inputKey + ":" + x + ":" + b.assetKey;
  }

  lemma CollisionMovesColon(a: Replacement, b: Replacement) returns (x: string)
    requires JoinedKey(a) == JoinedKey(b) && |a.inputKey| < |b.inputKey|
    ensures ColonMoved(a, b, x)
  {
    var s, m, n := JoinedKey(a), |a.inputKey|, |b.inputKey|;
    assert s == a.inputKey + ([':'] + a.assetKey) && s == b.inputKey + ([':'] + b.assetKey);
    x := s[m + 1..n];
    assert s[..m] == a.inputKey && s[..n] == b.inputKey;
    assert s[m] == ':' && s[n] == ':';
    assert b.inputKey == s[..m] + [s[m]] + s[m + 1..n];
    assert a.assetKey == s[m + 1..] && b.assetKey == s[n + 1..];
    assert a.assetKey == s[m + 1..n] + [s[n]] + s[n + 1..];
  }

  /** Two mappings have one joined key exactly when they are equal, or one input key goes on with a colon and the start of the other's asset key. */
  lemma JoinedKeysAgreeExactly(a: Replacement, b: Replacement)
    ensures JoinedKey(a) == JoinedKey(b) <==>
      || a == b
      || (exists x :: ColonMoved(a, b, x))
      || (exists x :: ColonMoved(b, a, x))
  {
    if JoinedKey(a) == JoinedKey(b) {
      if |a.inputKey| < |b.inputKey| {
        var x := CollisionMovesColon(a, b);
      } else if |b.inputKey| < |a.inputKey| {
        var x := CollisionMovesColon(b, a);
      } else {
        var s := JoinedKey(a);
        assert s[..|a.inputKey|] == a.inputKey && s[..|b.inputKey|] == b.inputKey;
        assert s[|a.inputKey| + 1..] == a.assetKey && s[|b.inputKey| + 1..] == b.assetKey;
      }
    } else {
      forall x
        ensures !ColonMoved(a, b, x) && !ColonMoved(b, a, x)
      {
        if ColonMoved(a, b, x) {
          ColonMovedCollides(a, b, x);
        }
        if ColonMoved(b, a, x) {
          ColonMovedCollides(b, a, x);
        }
      }
    }
  }

  /** Two of the mappings collide in that way. */
  ghost predicate Collides(rs: seq<Replacement>) {
    exists i, j, x :: 0 <= i < |rs| && 0 <= j < |rs| && ColonMoved(rs[i], rs[j], x)
  }

  /** The uniqueness check passes exactly when no mapping is there twice and no two collide. */
  lemma UniquenessExactly(rs: seq<Replacement>)
    ensures Distinct(JoinedKeys(rs)) <==> Distinct(rs) && !Collides(rs)
  {
    var keys := JoinedKeys(rs);
    if Collides(rs) {
      var i, j, x :| 0 <= i < |rs| && 0 <= j < |rs| && ColonMoved(rs[i], rs[j], x);
      ColonMovedCollides(rs[i], rs[j], x);
      assert |rs[j].inputKey| > |rs[i].inputKey|;
      assert keys[i] == keys[j];
    }
    if Distinct(keys) {
      forall i, j | 0 <= i < j < |rs|
        ensures rs[i] != rs[j]
      {
        assert keys[i] != keys[j];
      }
    } else {
      var i, j :| 0 <= i < j < |keys| && keys[i] == keys[j];
      JoinedKeysAgreeExactly(rs[i], rs[j]);
    }
  }

  const WIDE := Replacement("hero:wide", "plate")
  const PLAIN := Replacement("hero", "wide:plate")

  /** A layout of nothing but its background. */
  function Bare(placement: Placement, id: string): Layout {
    Layout(placement, [Plate(id, Rect(0.0, 0.0, 1.0, 1.0), true, None)], [])
  }

  /** A template that declares two images and two assets, with the given mappings. */
  function Mapped(rs: seq<Replacement>): Template {
    Template(
      Bare(Feed, "feed"),
      Bare(Story, "story"),
      [ImageInput("hero:wide", None), ImageInput("hero", None)], [], {"plate", "wide:plate"}, [], rs)
  }

  lemma MappedNames(rs: seq<Replacement>)
    ensures InputKeys(Mapped(rs)) == ["hero:wide", "hero"] && LayerIds(Mapped(rs).Layers()) == ["feed", "story"]
    ensures Distinct(["hero:wide", "hero"]) && Distinct(["feed", "story"])
  {
    assert |"hero:wide"| != |"hero"| && |"feed"| != |"story"|;
  }

  lemma MappedAreDeclared(rs: seq<Replacement>)
    requires forall i :: 0 <= i < |rs| ==> rs[i] == WIDE || rs[i] == PLAIN
    ensures forall i :: 0 <= i < |rs| ==> ReplacementDeclared(Mapped(rs), rs[i])
  {
    MappedNames(rs);
    var keys := InputKeys(Mapped(rs));
    assert keys[0] == "hero:wide" && keys[1] == "hero";
  }

  lemma BareIsAccepted(placement: Placement, id: string)
    requires id != ""
    ensures LayoutAccepted(Bare(placement, id))
  {
    var layout := Bare(placement, id);
    assert LayerSound(layout.layers[0], placement) && HasBackground(layout);
    AcceptedExactly(layout);
  }

  lemma MappedLayouts(rs: seq<Replacement>)
    ensures LayoutAccepted(Mapped(rs).feed) && LayoutAccepted(Mapped(rs).story)
    ensures Mapped(rs).feed.placement == Feed && Mapped(rs).story.placement == Story
  {
    BareIsAccepted(Feed, "feed");
    BareIsAccepted(Story, "story");
  }

  /** The layers name no input and no asset. */
  lemma MappedInputs(rs: seq<Replacement>)
    ensures var t := Mapped(rs);
      && (forall i :: 0 <= i < |t.imageInputs| ==> DefaultDeclared(t, t.imageInputs[i]))
      && (forall i :: 0 <= i < |t.Layers()| ==> LayerDeclared(t, t.Layers()[i]))
      && t.fonts == [] && t.replacements == rs
  {
  }

  lemma MappedIsCoherent(rs: seq<Replacement>)
    requires forall i :: 0 <= i < |rs| ==> rs[i] == WIDE || rs[i] == PLAIN
    ensures TemplateAccepted(Mapped(rs)) <==> Distinct(JoinedKeys(rs))
  {
    MappedLayouts(rs);
    MappedNames(rs);
    MappedAreDeclared(rs);
    MappedInputs(rs);
    var t := Mapped(rs);
    assert TemplateAccepted(t) <==> Coherent(t);
  }

  lemma MappedAlone(r: Replacement)
    requires r == WIDE || r == PLAIN
    ensures TemplateAccepted(Mapped([r]))
  {
    MappedIsCoherent([r]);
    assert |JoinedKeys([r])| == 1;
  }

  lemma WideCollides()
    ensures ColonMoved(PLAIN, WIDE, "wide") && |WIDE.assetKey| != |PLAIN.assetKey|
  {
    assert "hero:wide" == "hero" + ":" + "wide";
    assert "wide:plate" == "wide" + ":" + "plate";
  }

  /** Each of two different mappings is accepted, and the two together are not. */
  lemma DifferentMappingsRefused()
    ensures WIDE != PLAIN
    ensures TemplateAccepted(Mapped([WIDE])) && TemplateAccepted(Mapped([PLAIN]))
    ensures !TemplateAccepted(Mapped([PLAIN, WIDE]))
  {
    var both := [PLAIN, WIDE];
    MappedAlone(WIDE);
    MappedAlone(PLAIN);
    MappedIsCoherent(both);
    WideCollides();
    ColonMovedCollides(PLAIN, WIDE, "wide");
    assert JoinedKeys(both)[0] == JoinedKey(both[0]) && JoinedKeys(both)[1] == JoinedKey(both[1]);
  }

  predicate LoneReturn(t: Text) {
    exists i :: 0 <= i < |t| && t[i] == TextWrap.CARRIAGE_RETURN && (i + 1 == |t| || t[i + 1] != TextWrap.LINE_FEED)
  }

  /** The contract counts at least the lines that wrapping will break at, and the same number without a lone carriage return. */
  lemma {:induction false} HardLinesCoverParagraphs(t: Text)
    ensures HardLines(t) >= |TextWrap.Paragraphs(t)|
    ensures HardLines(t) == |TextWrap.Paragraphs(t)| <==> !LoneReturn(t)
    decreases |t|
  {
    if t != [] {
      HardLinesCoverParagraphs(t[1..]);
      assert LoneReturn(t[1..]) ==> LoneReturn(t) by {
        if LoneReturn(t[1..]) {
          var i :| 0 <= i < |t[1..]| && t[1..][i] == TextWrap.CARRIAGE_RETURN
            && (i + 1 == |t[1..]| || t[1..][i + 1] != TextWrap.LINE_FEED);
          assert t[i + 1] == TextWrap.CARRIAGE_RETURN;
        }
      }
      assert LoneReturn(t) && t[0] != TextWrap.CARRIAGE_RETURN ==> LoneReturn(t[1..]) by {
        if LoneReturn(t) && t[0] != TextWrap.CARRIAGE_RETURN {
          var i :| 0 <= i < |t| && t[i] == TextWrap.CARRIAGE_RETURN
            && (i + 1 == |t| || t[i + 1] != TextWrap.LINE_FEED);
          assert t[1..][i - 1] == TextWrap.CARRIAGE_RETURN;
        }
      }
    }
  }
}
