/** What the template contract refuses, issue by issue, told in pixels and by name. */
module TemplateContractResults {
  import opened Prelude
  import opened Placements
  import opened TemplateContract

  // ----- pixels

  predicate Fractions(r: Rect) {
    && -1.001 <= r.x <= 1.001 && -1.001 <= r.y <= 1.001
    && -1.001 <= r.width <= 1.001 && -1.001 <= r.height <= 1.001
  }

  function CanvasPixels(p: Placement): real {
    match p
    case Feed => 1350.0
    case Story => 1920.0
  }

  /** A rectangle of fractions of the canvas, or of pixels already. */
  function InPixels(r: Rect, p: Placement): Rect {
    if Fractions(r)
    then Rect(1080.0 * r.x, CanvasPixels(p) * r.y, 1080.0 * r.width, CanvasPixels(p) * r.height) else r
  }

  lemma ResolvedExactly(r: Rect, p: Placement)
    ensures Resolved(r, p) == InPixels(r, p)
  {
  }

  predicate OnCanvas(r: Rect, p: Placement) {
    var g := InPixels(r, p);
    0.0 <= g.x && g.x + g.width <= 1080.0 && 0.0 <= g.y && g.y + g.height <= CanvasPixels(p)
  }

  predicate CoversAll(r: Rect, p: Placement) {
    var g := InPixels(r, p);
    && -0.5 <= g.x <= 0.5 && -0.5 <= g.y <= 0.5
    && 1079.5 <= g.width <= 1080.5 && CanvasPixels(p) - 0.5 <= g.height <= CanvasPixels(p) + 0.5
  }

  /** Square within a pixel, or within a hundredth of its shorter side. */
  predicate Square(r: Rect, p: Placement) {
    var g := InPixels(r, p);
    var d := if g.width >= g.height then g.width - g.height else g.height - g.width;
    d <= 1.0 || (100.0 * d <= g.width && 100.0 * d <= g.height)
  }

  // ----- the issues of a layer and of a layout

  /** What each issue means. */
  predicate Means(issue: Issue, layer: Layer, p: Placement) {
    match issue
    case LayerOutside => !OnCanvas(layer.geometry, p)
    case TextTooSmall => layer.TextBox? && layer.fontSize < (if p == Feed then 24.0 else 32.0)
    case LinesTooTight(id) => layer.TextBox? && id == layer.layerId && layer.maxLines > 1 && layer.lineHeight < 1.0
    case RingNotSquare => layer.Vector? && layer.shape == Ring && !Square(layer.geometry, p)
    case RuleTooShort(id) =>
      && layer.Vector? && id == layer.layerId && layer.shape == Rule
      && var g := InPixels(layer.geometry, p); g.width < 8.0 && g.height < 8.0
    case NoBackground => false
    case ZoneOutside => false
  }

  lemma OutsideExactly(r: Rect, p: Placement)
    ensures Outside(Resolved(r, p), p) <==> !OnCanvas(r, p)
    ensures CoversCanvas(Resolved(r, p), p) <==> CoversAll(r, p)
  {
    ResolvedExactly(r, p);
  }

  lemma SquareExactly(r: Rect, p: Placement)
    ensures var g := Resolved(r, p); RealAbs(g.width - g.height) > SquareTolerance(g) <==> !Square(r, p)
  {
    ResolvedExactly(r, p);
  }

  /** A layer raises exactly the issues that hold of it. */
  lemma LayerIssuesExactly(layer: Layer, p: Placement, issue: Issue)
    ensures issue in LayerIssues(layer, p) <==> Means(issue, layer, p)
  {
    ResolvedExactly(layer.geometry, p);
    OutsideExactly(layer.geometry, p);
    SquareExactly(layer.geometry, p);
  }

  lemma {:induction false} AllLayersExactly(layers: seq<Layer>, p: Placement, issue: Issue)
    ensures issue in AllLayerIssues(layers, p) <==> exists i :: 0 <= i < |layers| && Means(issue, layers[i], p)
  {
    if layers != [] {
      LayerIssuesExactly(layers[0], p, issue);
      AllLayersExactly(layers[1..], p, issue);
      if i :| 0 <= i < |layers[1..]| && Means(issue, layers[1..][i], p) {
        assert layers[i + 1] == layers[1..][i];
      }
      if i :| 0 <= i < |layers| && Means(issue, layers[i], p) {
        assert i > 0 ==> layers[1..][i - 1] == layers[i];
      }
    }
  }

  lemma {:induction false} ZonesExactly(zones: seq<Rect>, p: Placement, issue: Issue)
    ensures issue in ZoneIssues(zones, p) <==> issue == ZoneOutside && exists i :: 0 <= i < |zones| && !OnCanvas(zones[i], p)
  {
    if zones != [] {
      OutsideExactly(zones[0], p);
      ZonesExactly(zones[1..], p, issue);
      if i :| 0 <= i < |zones[1..]| && !OnCanvas(zones[1..][i], p) {
        assert zones[i + 1] == zones[1..][i];
      }
      if i :| 0 <= i < |zones| && !OnCanvas(zones[i], p) {
        assert i > 0 ==> zones[1..][i - 1] == zones[i];
      }
    }
  }

  /**
    A layout raises exactly: that its first layer is no protected plate over the whole canvas, the
    issues of its layers, and that a safe zone leaves the canvas.
   */
  lemma LayoutIssuesExactly(layout: Layout, issue: Issue)
    ensures var p := layout.placement;
      issue in LayoutIssues(layout) <==>
        || (issue == NoBackground
            && !(layout.layers != [] && layout.layers[0].Plate? && layout.layers[0].guarded && CoversAll(layout.layers[0].geometry, p)))
        || (exists i :: 0 <= i < |layout.layers| && Means(issue, layout.layers[i], p))
        || (issue == ZoneOutside && exists i :: 0 <= i < |layout.safeZones| && !OnCanvas(layout.safeZones[i], p))
  {
    AllLayersExactly(layout.layers, layout.placement, issue);
    ZonesExactly(layout.safeZones, layout.placement, issue);
    if layout.layers != [] {
      OutsideExactly(layout.layers[0].geometry, layout.placement);
    }
  }

  // ----- references

  lemma DistinctAppend<T>(xs: seq<T>, ys: seq<T>)
    ensures Distinct(xs + ys) <==> Distinct(xs) && Distinct(ys) && forall i, j :: 0 <= i < |xs| && 0 <= j < |ys| ==> xs[i] != ys[j]
  {
    var all := xs + ys;
    assert forall i :: 0 <= i < |xs| ==> all[i] == xs[i];
    assert forall j :: 0 <= j < |ys| ==> all[|xs| + j] == ys[j];
    if Distinct(xs) && Distinct(ys) && forall i, j :: 0 <= i < |xs| && 0 <= j < |ys| ==> xs[i] != ys[j] {
      forall i, j | 0 <= i < j < |all|
        ensures all[i] != all[j]
      {
        if i >= |xs| {
          assert ys[i - |xs|] != ys[j - |xs|];
        }
      }
    }
  }

  predicate Declared(t: Template, key: string) {
    || (exists i :: 0 <= i < |t.imageInputs| && t.imageInputs[i].key == key)
    || (exists i :: 0 <= i < |t.textInputs| && t.textInputs[i].key == key)
  }

  /** No two inputs, of either kind, have one key. */
  predicate KeysDiffer(t: Template) {
    && (forall i, j :: 0 <= i < j < |t.imageInputs| ==> t.imageInputs[i].key != t.imageInputs[j].key)
    && (forall i, j :: 0 <= i < j < |t.textInputs| ==> t.textInputs[i].key != t.textInputs[j].key)
    && (forall i, j :: 0 <= i < |t.imageInputs| && 0 <= j < |t.textInputs| ==> t.imageInputs[i].key != t.textInputs[j].key)
  }

  lemma ImageKeysDiffer(inputs: seq<ImageInput>)
    ensures Distinct(ImageKeys(inputs)) <==> forall i, j :: 0 <= i < j < |inputs| ==> inputs[i].key != inputs[j].key
  {
    var keys := ImageKeys(inputs);
    if Distinct(keys) {
      forall i, j | 0 <= i < j < |inputs|
        ensures inputs[i].key != inputs[j].key
      {
        assert keys[i] != keys[j];
      }
    }
  }

  lemma TextKeysDiffer(inputs: seq<TextInput>)
    ensures Distinct(TextKeys(inputs)) <==> forall i, j :: 0 <= i < j < |inputs| ==> inputs[i].key != inputs[j].key
  {
    var keys := TextKeys(inputs);
    if Distinct(keys) {
      forall i, j | 0 <= i < j < |inputs|
        ensures inputs[i].key != inputs[j].key
      {
        assert keys[i] != keys[j];
      }
    }
  }

  lemma KindsDiffer(images: seq<ImageInput>, texts: seq<TextInput>)
    ensures (forall i, j :: 0 <= i < |images| && 0 <= j < |texts| ==> images[i].key != texts[j].key) <==>
      forall i, j :: 0 <= i < |images| && 0 <= j < |texts| ==> ImageKeys(images)[i] != TextKeys(texts)[j]
  {
    if forall i, j :: 0 <= i < |images| && 0 <= j < |texts| ==> ImageKeys(images)[i] != TextKeys(texts)[j] {
      forall i, j | 0 <= i < |images| && 0 <= j < |texts|
        ensures images[i].key != texts[j].key
      {
        assert ImageKeys(images)[i] != TextKeys(texts)[j];
      }
    }
  }

  lemma KeysExactly(t: Template)
    ensures Distinct(InputKeys(t)) <==> KeysDiffer(t)
  {
    DistinctAppend(ImageKeys(t.imageInputs), TextKeys(t.textInputs));
    ImageKeysDiffer(t.imageInputs);
    TextKeysDiffer(t.textInputs);
    KindsDiffer(t.imageInputs, t.textInputs);
  }

  lemma KeyAmong(t: Template, key: string)
    ensures key in InputKeys(t) <==> Declared(t, key)
  {
    var images, texts := ImageKeys(t.imageInputs), TextKeys(t.textInputs);
    if i :| 0 <= i < |t.imageInputs| && t.imageInputs[i].key == key {
      assert images[i] == key;
    }
    if i :| 0 <= i < |t.textInputs| && t.textInputs[i].key == key {
      assert texts[i] == key;
    }
  }

  /** The asset a plate or an overlay names is declared. */
  predicate AssetDeclared(t: Template, layer: Layer) {
    match layer
    case Plate(_, _, _, asset) => asset.None? || asset == Some("") || asset.value in t.assets
    case Overlay(_, _, asset) => asset.None? || asset == Some("") || asset.value in t.assets
    case _ => true
  }

  /** What a layer refers to is declared, and its placeholder has no more hard lines than it allows. */
  predicate ReferencesHold(t: Template, layer: Layer) {
    && AssetDeclared(t, layer)
    && (match layer
        case ImageSlot(_, _, key) => Declared(t, key)
        case Logo(_, _, key) => Declared(t, key)
        case TextBox(_, _, key, font, _, _, _, _, _, _, _, _, maxLines, _) =>
          && Declared(t, key) && font in t.fonts
          && forall i :: 0 <= i < |t.textInputs| && t.textInputs[i].key == key ==> HardLines(t.textInputs[i].placeholder) <= maxLines
        case _ => true)
  }

  lemma ReferencesExactly(t: Template, layer: Layer)
    requires KeysDiffer(t)
    ensures LayerDeclared(t, layer) <==> ReferencesHold(t, layer)
  {
    if HasInput(layer) {
      KeyAmong(t, layer.inputKey);
    }
    if layer.TextBox? {
      PlaceholderExactly(t, layer.inputKey, layer.maxLines);
    }
  }

  lemma PlaceholderExactly(t: Template, key: string, maxLines: nat)
    requires KeysDiffer(t)
    ensures PlaceholderLines(t, key) <= maxLines <==>
      forall i :: 0 <= i < |t.textInputs| && t.textInputs[i].key == key ==> HardLines(t.textInputs[i].placeholder) <= maxLines
  {
    var found := FindInput(t.textInputs, key);
    if found.Some? {
      var i :| 0 <= i < |t.textInputs| && t.textInputs[i] == found.value;
      assert forall j :: 0 <= j < |t.textInputs| && t.textInputs[j].key == key ==> j == i;
    }
  }

  /**
    A template's references pass exactly when the keys of its inputs differ, its font files differ, its
    layer identifiers differ across both layouts, every reference is to something declared, and no two
    replacement mappings are equal or collide in their joined keys.
   */
  lemma CoherentExactly(t: Template)
    ensures var layers := t.feed.layers + t.story.layers;
      Coherent(t) <==>
        && KeysDiffer(t)
        && (forall i, j :: 0 <= i < j < |t.fonts| ==> t.fonts[i] != t.fonts[j])
        && (forall i, j :: 0 <= i < j < |layers| ==> layers[i].layerId != layers[j].layerId)
        && (forall i :: 0 <= i < |layers| ==> ReferencesHold(t, layers[i]))
        && (forall i :: 0 <= i < |t.imageInputs| ==>
              var asset := t.imageInputs[i].defaultAssetKey; asset.None? || asset == Some("") || asset.value in t.assets)
        && (forall i :: 0 <= i < |t.replacements| ==>
              Declared(t, t.replacements[i].inputKey) && t.replacements[i].assetKey in t.assets)
        && (forall i, j :: 0 <= i < j < |t.replacements| ==> t.replacements[i] != t.replacements[j])
        && !Collides(t.replacements)
  {
    var layers := t.Layers();
    KeysExactly(t);
    UniquenessExactly(t.replacements);
    IdsDiffer(layers);
    MappingsDeclared(t);
    if KeysDiffer(t) {
      forall i | 0 <= i < |layers|
        ensures LayerDeclared(t, layers[i]) <==> ReferencesHold(t, layers[i])
      {
        ReferencesExactly(t, layers[i]);
      }
    }
  }

  lemma IdsDiffer(layers: seq<Layer>)
    ensures Distinct(LayerIds(layers)) <==> forall i, j :: 0 <= i < j < |layers| ==> layers[i].layerId != layers[j].layerId
  {
    var ids := LayerIds(layers);
    if Distinct(ids) {
      forall i, j | 0 <= i < j < |layers|
        ensures layers[i].layerId != layers[j].layerId
      {
        assert ids[i] != ids[j];
      }
    }
  }

  lemma MappingsDeclared(t: Template)
    ensures forall i :: 0 <= i < |t.replacements| ==>
      (ReplacementDeclared(t, t.replacements[i]) <==> Declared(t, t.replacements[i].inputKey) && t.replacements[i].assetKey in t.assets)
  {
    forall i | 0 <= i < |t.replacements|
      ensures ReplacementDeclared(t, t.replacements[i]) <==> Declared(t, t.replacements[i].inputKey) && t.replacements[i].assetKey in t.assets
    {
      KeyAmong(t, t.replacements[i].inputKey);
    }
  }
}
