/** What the contract buys the renderer: which refusals an accepted template can still meet. */
module RendererResults {
  import opened Prelude
  import opened Placements
  import opened TemplateContract
  import opened TemplateRenderer
  import TextWrap
  import TextLayout
  import TextLayoutResults

  // ----- fonts

  /** Registering keeps what was there, and never finds a noted alias unloaded. */
  lemma {:induction false} RegisteringKeeps(h: FontHost, values: map<string, Bytes>, r: Registry, fonts: seq<string>)
    requires Consistent(r)
    ensures var after := RegisterFonts(h, values, r, fonts);
      && Consistent(after.registry)
      && r.aliases <= after.registry.aliases
      && (forall a :: a in r.aliases ==> after.registry.loaded[a] == r.loaded[a])
      && (after.error.Some? ==> !after.error.value.NoLongerRegistered?)
    decreases |fonts|
  {
    if fonts != [] {
      var first := RegisterFont(h, values, r, fonts[0]);
      if first.error.None? {
        RegisteringKeeps(h, values, first.registry, fonts[1..]);
      }
    }
  }

  /** The first of the fonts that goes by an alias. */
  function FirstWith(fonts: seq<string>, alias: string): (i: nat)
    ensures i <= |fonts|
    ensures i < |fonts| ==> Alias(fonts[i]) == alias
    ensures forall j :: 0 <= j < i ==> Alias(fonts[j]) != alias
  {
    if fonts == [] || Alias(fonts[0]) == alias then 0 else 1 + FirstWith(fonts[1..], alias)
  }

  /** After registration an alias stands for the font that had it before, or else for the first declared font with it. */
  lemma {:induction false} AliasStandsFor(h: FontHost, values: map<string, Bytes>, r: Registry, fonts: seq<string>, alias: string)
    requires Consistent(r) && RegisterFonts(h, values, r, fonts).error.None?
    ensures var after := RegisterFonts(h, values, r, fonts).registry;
      var first := FirstWith(fonts, alias);
      && (alias in after.aliases <==> alias in r.aliases || first < |fonts|)
      && (alias in r.aliases ==> alias in after.loaded && after.loaded[alias] == r.loaded[alias])
      && (alias !in r.aliases && first < |fonts| ==>
            alias in after.loaded && Some(after.loaded[alias]) == FontBytes(h, values, fonts[first]))
    decreases |fonts|
  {
    if fonts != [] {
      var step := RegisterFont(h, values, r, fonts[0]).registry;
      RegisteringKeeps(h, values, r, [fonts[0]]);
      assert [fonts[0]][1..] == [];
      AliasStandsFor(h, values, step, fonts[1..], alias);
      RegisteringKeeps(h, values, step, fonts[1..]);
    }
  }

  /** Every declared font resolves once registration has gone through. */
  lemma RegistrationResolves(h: FontHost, values: map<string, Bytes>, r: Registry, fonts: seq<string>, file: string)
    requires Consistent(r) && file in fonts && RegisterFonts(h, values, r, fonts).error.None?
    ensures ResolveFamily(RegisterFonts(h, values, r, fonts).registry, file) == Some(Alias(file))
  {
    AliasStandsFor(h, values, r, fonts, Alias(file));
    RegisteringKeeps(h, values, r, fonts);
    var i :| 0 <= i < |fonts| && fonts[i] == file;
    if FirstWith(fonts, Alias(file)) == |fonts| {
      assert false;
    }
  }

  /** An earlier font, of this template or of one rendered before it, took the alias. */
  predicate Shadowed(r: Registry, fonts: seq<string>, i: nat)
    requires i < |fonts|
  {
    Alias(fonts[i]) in r.aliases || FirstWith(fonts, Alias(fonts[i])) < i
  }

  /** The bytes that an alias got from the font which took it. */
  function TakenBytes(h: FontHost, values: map<string, Bytes>, r: Registry, fonts: seq<string>, alias: string): Option<Bytes> {
    if alias in r.aliases && alias in r.loaded then Some(r.loaded[alias])
    else if FirstWith(fonts, alias) < |fonts| then FontBytes(h, values, fonts[FirstWith(fonts, alias)])
    else None
  }

  /**
    A declared font is drawn with its own bytes exactly when no earlier font took its alias, or
    the one that did has the same bytes.
   */
  lemma OwnFontExactly(h: FontHost, values: map<string, Bytes>, r: Registry, fonts: seq<string>, i: nat)
    requires Consistent(r) && i < |fonts| && RegisterFonts(h, values, r, fonts).error.None?
    ensures var after, alias, own := RegisterFonts(h, values, r, fonts).registry, Alias(fonts[i]), FontBytes(h, values, fonts[i]);
      && alias in after.loaded
      && (Some(after.loaded[alias]) == own <==> !Shadowed(r, fonts, i) || TakenBytes(h, values, r, fonts, alias) == own)
  {
    var first := FirstWith(fonts, Alias(fonts[i]));
    assert first <= i;
    AliasStandsFor(h, values, r, fonts, Alias(fonts[i]));
  }

  lemma InterInBrand()
    ensures Alias("brand/Inter.ttf") == "Inter"
  {
    AliasIs("brand/", "Inter", ".ttf", "");
    assert "brand/Inter.ttf" == "brand/" + ("Inter" + ".ttf") + "";
  }

  lemma InterInSite()
    ensures Alias("site/Inter.otf") == "Inter"
  {
    AliasIs("site/", "Inter", ".otf", "");
    assert "site/Inter.otf" == "site/" + ("Inter" + ".otf") + "";
  }

  /** Two files the contract tells apart can share an alias. */
  lemma FilesShareAlias()
    ensures Distinct(["brand/Inter.ttf", "site/Inter.otf"])
    ensures Alias("brand/Inter.ttf") == "Inter" && Alias("site/Inter.otf") == "Inter"
  {
    InterInBrand();
    InterInSite();
    assert "brand/Inter.ttf"[0] != "site/Inter.otf"[0];
  }

  lemma {:induction false} AfterLastOf(before: string, sep: char, rest: string)
    requires sep !in rest && before != "" && before[|before| - 1] == sep
    ensures AfterLast(before + rest, sep) == rest
  {
    if rest != "" {
      assert (before + rest)[..|before + rest| - 1] == before + rest[..|rest| - 1];
      AfterLastOf(before, sep, rest[..|rest| - 1]);
    } else {
      assert before + rest == before;
    }
  }

  lemma {:induction false} AfterLastNone(s: string, sep: char)
    requires sep !in s
    ensures AfterLast(s, sep) == s
  {
    if s != "" {
      AfterLastNone(s[..|s| - 1], sep);
    }
  }

  predicate Slashes(s: string) {
    forall i :: 0 <= i < |s| ==> s[i] == '/'
  }

  lemma {:induction false} TrimSlashesOf(path: string, after: string)
    requires Slashes(after) && path != "" && path[|path| - 1] != '/'
    ensures TrimSlashes(path + after) == path
  {
    if after == "" {
      assert path + after == path;
    } else {
      assert (path + after)[..|path + after| - 1] == path + after[..|after| - 1];
      TrimSlashesOf(path, after[..|after| - 1]);
    }
  }

  lemma BasenameOf(folder: string, base: string, after: string)
    requires folder != "" ==> folder[|folder| - 1] == '/'
    requires base != "" && '/' !in base && Slashes(after)
    ensures Basename(folder + base + after) == base
  {
    assert base[|base| - 1] in base;
    TrimSlashesOf(folder + base, after);
    if folder != "" {
      AfterLastOf(folder, '/', base);
    } else {
      assert folder + base == base;
      AfterLastNone(base, '/');
    }
  }

  /** A full stop and letters after it; or nothing, when there is no full stop or nothing after the last one. */
  predicate IsExtension(name: string, extension: string) {
    if extension == "" then '.' !in name || name[|name| - 1] == '.'
    else |extension| > 1 && extension[0] == '.' && '.' !in extension[1..]
  }

  lemma DropExtensionOf(name: string, extension: string)
    requires IsExtension(name, extension)
    ensures DropExtension(name + extension) == name
  {
    if extension != "" {
      AfterLastOf(name + ".", '.', extension[1..]);
      assert name + "." + extension[1..] == name + extension;
    } else {
      assert name + extension == name;
      if '.' !in name {
        AfterLastNone(name, '.');
      }
    }
  }

  /** The alias of a file is its name, without the folder, the extension and slashes at the end. */
  lemma AliasIs(folder: string, name: string, extension: string, after: string)
    requires folder != "" ==> folder[|folder| - 1] == '/'
    requires name + extension != "" && '/' !in name + extension && Slashes(after)
    requires IsExtension(name, extension)
    ensures Alias(folder + (name + extension) + after) == name
  {
    BasenameOf(folder, name + extension, after);
    DropExtensionOf(name, extension);
  }

  // ----- refusals

  /** A layer of an accepted layout whose font, if any, is registered. */
  predicate Ready(r: Registry, layer: Layer, p: Placement) {
    && LayerWellFormed(layer) && LayerSound(layer, p)
    && (layer.TextBox? ==> ResolveFamily(r, layer.font).Some?)
  }

  lemma GeometryAgrees(g: Rect, p: Placement)
    ensures RenderGeometry(g, p) == Resolved(g, p)
  {
    var values := [g.x, g.y, g.width, g.height];
    assert values[0] == g.x && values[1] == g.y && values[2] == g.width && values[3] == g.height;
  }

  /** A size ratio makes the text smaller than the floor, whatever the authored size. */
  predicate Sunk(layer: Layer, p: Placement)
    requires layer.TextBox?
  {
    layer.sizeRatio.Some? && RenderGeometry(layer.geometry, p).height * layer.sizeRatio.value < MinimumTextSize(p)
  }

  /** There is text, and `refuse` does not drop it for its length. */
  predicate Shown(values: map<string, Text>, layer: Layer)
    requires layer.TextBox?
  {
    && layer.inputKey in values && values[layer.inputKey] != []
    && !(layer.behaviour == Policy(TextLayout.Refuse) && |values[layer.inputKey]| > layer.maxCharacters)
  }

  /** No size of the scan fits, and the policy is to refuse that. */
  predicate Cramped(ty: Typography, values: map<string, Text>, layer: Layer, p: Placement)
    requires layer.TextBox? && Shown(values, layer)
  {
    && layer.behaviour == Policy(TextLayout.ScaleDown)
    && var o := LayoutOptions(ty, layer, values[layer.inputKey], TextLayout.ScaleDown, p);
      o.Scan(o.StartSize()).None?
  }

  /** All that the preflight can hold against a ready layer. */
  function Verdict(ty: Typography, values: map<string, Text>, layer: Layer, p: Placement): seq<Violation> {
    if !layer.TextBox? || !Shown(values, layer) then []
    else if Sunk(layer, p) then [BelowReadabilityFloor(p, NormalizeLayerId(layer.layerId), MinimumTextSize(p))]
    else if Cramped(ty, values, layer, p) then [CannotFitReadabilityFloor(p, NormalizeLayerId(layer.layerId), MinimumTextSize(p))]
    else []
  }

  lemma RatioSinks(fontSize: real, ratio: Option<real>, g: Rect, floor: real)
    requires fontSize >= floor && (ratio.Some? ==> ratio.value > 0.0)
    ensures EffectiveTextFontSize(fontSize, ratio, g) < floor <==> ratio.Some? && g.height * ratio.value < floor
  {
  }

  /** The size that a ready layer asks for is below the floor only by its ratio. */
  lemma SinksExactly(ty: Typography, layer: Layer, source: Text, overflow: TextLayout.Overflow, p: Placement)
    requires layer.TextBox? && layer.fontSize >= MinimumTextSize(p)
    requires layer.sizeRatio.Some? ==> layer.sizeRatio.value > 0.0
    ensures var o := LayoutOptions(ty, layer, source, overflow, p);
      o.readabilityFloor == MinimumTextSize(p) && (o.baseFontSize < o.readabilityFloor <==> Sunk(layer, p))
  {
    RatioSinks(layer.fontSize, layer.sizeRatio, RenderGeometry(layer.geometry, p), MinimumTextSize(p));
  }

  lemma UnfitExactly(o: TextLayout.Options)
    ensures o.Prepare().Unfit? <==> o.overflow == TextLayout.ScaleDown && o.Scan(o.StartSize()).None?
  {
  }

  lemma PreparationOf(ty: Typography, r: Registry, values: map<string, Text>, layer: Layer, p: Placement)
    requires layer.TextBox? && Ready(r, layer, p)
    ensures var prepared := PrepareText(ty, r, values, layer, p);
      && !prepared.Throws?
      && Verdict(ty, values, layer, p) == if prepared.Violates? then [prepared.violation] else []
  {
    if Shown(values, layer) {
      var overflow, source := layer.behaviour.overflow, values[layer.inputKey];
      assert PrepareText(ty, r, values, layer, p) == FitText(ty, layer, source, overflow, p);
      SinksExactly(ty, layer, source, overflow, p);
      UnfitExactly(LayoutOptions(ty, layer, source, overflow, p));
    }
  }

  /** On a ready layer the preflight finds a sunk size ratio or a text that fits no size, and nothing else. */
  lemma VerdictExactly(ty: Typography, r: Registry, values: map<string, Text>, layer: Layer, p: Placement)
    requires Ready(r, layer, p)
    ensures LayerPreflight(ty, r, values, layer, p) == Checked(Verdict(ty, values, layer, p))
  {
    if layer.TextBox? {
      PreparationOf(ty, r, values, layer, p);
      var prepared := PrepareText(ty, r, values, layer, p);
      assert LayerPreflight(ty, r, values, layer, p) == Gather([], prepared);
      assert prepared.Violates? ==> [] + [prepared.violation] == [prepared.violation];
    }
  }

  predicate Supplied(input: RenderInput, layer: Layer) {
    AssetOf(layer).Some? ==> AssetOf(layer).value in input.images
  }

  /** Painting a ready layer is refused for the same reason or not at all. */
  lemma PaintAgrees(ty: Typography, r: Registry, input: RenderInput, layer: Layer, p: Placement)
    requires Ready(r, layer, p) && Supplied(input, layer)
    ensures LayerRefusal(ty, r, input, layer, p)
      == var found := Verdict(ty, input.textValues, layer, p); if found == [] then None else Some(PreflightRefused(found))
  {
    GeometryAgrees(layer.geometry, p);
    if layer.TextBox? {
      PreparationOf(ty, r, input.textValues, layer, p);
    }
  }

  lemma {:induction false} LayersVerdict(ty: Typography, r: Registry, input: RenderInput, layers: seq<Layer>, p: Placement)
    returns (found: seq<Violation>)
    requires forall i :: 0 <= i < |layers| ==> Ready(r, layers[i], p) && Supplied(input, layers[i])
    ensures LayersPreflight(ty, r, input.textValues, layers, p) == Checked(found)
    ensures |found| <= |layers|
    ensures forall v :: v in found <==> exists i :: 0 <= i < |layers| && v in Verdict(ty, input.textValues, layers[i], p)
    ensures LayersRefusal(ty, r, input, layers, p).None? <==> found == []
  {
    found := [];
    if layers != [] {
      VerdictExactly(ty, r, input.textValues, layers[0], p);
      PaintAgrees(ty, r, input, layers[0], p);
      var first := Verdict(ty, input.textValues, layers[0], p);
      var rest := LayersVerdict(ty, r, input, layers[1..], p);
      found := first + rest;
      forall v
        ensures v in found <==> exists i :: 0 <= i < |layers| && v in Verdict(ty, input.textValues, layers[i], p)
      {
        MemberOfTail(ty, input.textValues, layers, p, v);
      }
    }
  }

  lemma MemberOfTail(ty: Typography, values: map<string, Text>, layers: seq<Layer>, p: Placement, v: Violation)
    requires layers != []
    ensures (exists i :: 0 <= i < |layers| && v in Verdict(ty, values, layers[i], p)) <==>
      || v in Verdict(ty, values, layers[0], p)
      || (exists i :: 0 <= i < |layers[1..]| && v in Verdict(ty, values, layers[1..][i], p))
  {
    var tail := layers[1..];
    if i :| 0 <= i < |layers| && v in Verdict(ty, values, layers[i], p) {
      if i > 0 {
        assert tail[i - 1] == layers[i];
      }
    }
    if i :| 0 <= i < |tail| && v in Verdict(ty, values, tail[i], p) {
      assert layers[i + 1] == tail[i];
    }
  }

  /** The layouts rendered, each ready and supplied. */
  ghost predicate AllReady(r: Registry, input: RenderInput) {
    forall p: Placement, i :: 0 <= i < |input.template.LayoutFor(p).layers| ==>
      Ready(r, input.template.LayoutFor(p).layers[i], p) && Supplied(input, input.template.LayoutFor(p).layers[i])
  }

  /** A violation that some text layer of some rendered placement earns. */
  ghost predicate Earned(ty: Typography, input: RenderInput, ps: seq<Placement>, v: Violation) {
    exists k, i ::
      && 0 <= k < |ps| && 0 <= i < |input.template.LayoutFor(ps[k]).layers|
      && v in Verdict(ty, input.textValues, input.template.LayoutFor(ps[k]).layers[i], ps[k])
  }

  function LayerCount(t: Template, ps: seq<Placement>): nat {
    if ps == [] then 0 else |t.LayoutFor(ps[0]).layers| + LayerCount(t, ps[1..])
  }

  lemma {:induction false} PlacementsVerdict(ty: Typography, r: Registry, input: RenderInput, ps: seq<Placement>)
    returns (found: seq<Violation>)
    requires AllReady(r, input)
    ensures TextPreflight(ty, r, input.textValues, input.template, ps) == Checked(found)
    ensures |found| <= LayerCount(input.template, ps)
    ensures forall v :: v in found <==> Earned(ty, input, ps, v)
    ensures PaintRefusal(ty, r, input, ps).None? <==> found == []
    decreases |ps|
  {
    found := [];
    if ps != [] {
      var first := LayersVerdict(ty, r, input, input.template.LayoutFor(ps[0]).layers, ps[0]);
      var rest := PlacementsVerdict(ty, r, input, ps[1..]);
      found := first + rest;
      forall v
        ensures v in found <==> Earned(ty, input, ps, v)
      {
        EarnedInTail(ty, input, ps, v);
      }
    }
  }

  lemma EarnedInTail(ty: Typography, input: RenderInput, ps: seq<Placement>, v: Violation)
    requires ps != []
    ensures var layers := input.template.LayoutFor(ps[0]).layers;
      Earned(ty, input, ps, v) <==>
        || (exists i :: 0 <= i < |layers| && v in Verdict(ty, input.textValues, layers[i], ps[0]))
        || Earned(ty, input, ps[1..], v)
  {
    var tail := ps[1..];
    if Earned(ty, input, tail, v) {
      var k, i :| 0 <= k < |tail| && 0 <= i < |input.template.LayoutFor(tail[k]).layers|
        && v in Verdict(ty, input.textValues, input.template.LayoutFor(tail[k]).layers[i], tail[k]);
      assert ps[k + 1] == tail[k];
    }
    if Earned(ty, input, ps, v) {
      var k, i :| 0 <= k < |ps| && 0 <= i < |input.template.LayoutFor(ps[k]).layers|
        && v in Verdict(ty, input.textValues, input.template.LayoutFor(ps[k]).layers[i], ps[k]);
      if k > 0 {
        assert tail[k - 1] == ps[k];
      }
    }
  }

  lemma AcceptedIsReady(h: FontHost, r: Registry, input: RenderInput)
    requires TemplateAccepted(input.template) && Consistent(r)
    requires forall a :: a in input.template.assets ==> a in input.images
    requires RegisterFonts(h, input.fontValues, r, input.template.fonts).error.None?
    ensures AllReady(RegisterFonts(h, input.fontValues, r, input.template.fonts).registry, input)
  {
    var t := input.template;
    var after := RegisterFonts(h, input.fontValues, r, t.fonts).registry;
    forall p: Placement, i | 0 <= i < |t.LayoutFor(p).layers|
      ensures Ready(after, t.LayoutFor(p).layers[i], p) && Supplied(input, t.LayoutFor(p).layers[i])
    {
      var layer := t.LayoutFor(p).layers[i];
      AcceptedExactly(t.LayoutFor(p));
      assert t.Layers()[if p == Feed then i else |t.feed.layers| + i] == layer;
      assert LayerDeclared(t, layer);
      if layer.TextBox? {
        RegistrationResolves(h, input.fontValues, r, t.fonts, layer.font);
      }
    }
  }

  lemma {:induction false} AcceptedBackgrounds(t: Template, ps: seq<Placement>)
    requires t.feed.placement == Feed && t.story.placement == Story && HasBackground(t.feed) && HasBackground(t.story)
    ensures BackgroundRefusal(t, ps).None?
    decreases |ps|
  {
    if ps != [] {
      GeometryAgrees(t.LayoutFor(ps[0]).layers[0].geometry, ps[0]);
      AcceptedBackgrounds(t, ps[1..]);
    }
  }

  /**
    An accepted template, its fonts registered and its assets supplied, renders unless some text
    sinks below the floor by its size ratio or fits no scanned size. No background, ring, rule,
    line-height, font, overflow or asset refusal is left, and text that passed the preflight is
    not refused again when it is painted.
   */
  lemma AcceptedRenders(ty: Typography, h: FontHost, r: Registry, input: RenderInput, ps: seq<Placement>)
    returns (found: seq<Violation>)
    requires TemplateAccepted(input.template) && Consistent(r)
    requires forall a :: a in input.template.assets ==> a in input.images
    requires RegisterFonts(h, input.fontValues, r, input.template.fonts).error.None?
    ensures forall v :: v in found <==> Earned(ty, input, ps, v)
    ensures |found| <= LayerCount(input.template, ps)
    ensures RenderRefusal(ty, RegisterFonts(h, input.fontValues, r, input.template.fonts).registry, input, ps)
      == if found == [] then None else Some(Reported(found))
  {
    AcceptedIsReady(h, r, input);
    AcceptedExactly(input.template.feed);
    AcceptedExactly(input.template.story);
    AcceptedBackgrounds(input.template, ps);
    found := PlacementsVerdict(ty, RegisterFonts(h, input.fontValues, r, input.template.fonts).registry, input, ps);
  }

  /** The cap of 512 reported violations never drops one of an accepted template. */
  lemma ReportIsComplete(ty: Typography, h: FontHost, r: Registry, input: RenderInput)
    requires TemplateAccepted(input.template) && Consistent(r)
    requires forall a :: a in input.template.assets ==> a in input.images
    requires RegisterFonts(h, input.fontValues, r, input.template.fonts).error.None?
    ensures var after := RegisterFonts(h, input.fontValues, r, input.template.fonts).registry;
      var refusal := RenderRefusal(ty, after, input, [Feed, Story]);
      && (refusal.Some? ==> refusal.value.PreflightRefused?)
      && forall v :: Earned(ty, input, [Feed, Story], v) <==> refusal.Some? && v in refusal.value.violations
  {
    var both := [Feed, Story];
    var found := AcceptedRenders(ty, h, r, input, both);
    assert both[1..] == [Story] && [Story][1..] == [];
    assert LayerCount(input.template, [Story]) == |input.template.story.layers|;
    assert LayerCount(input.template, both) == |input.template.feed.layers| + |input.template.story.layers|;
  }

  /** Without a size ratio an accepted text layer is never below the floor. */
  lemma NoRatioNeverSinks(ty: Typography, values: map<string, Text>, layer: Layer, p: Placement)
    requires layer.TextBox? && layer.sizeRatio.None?
    ensures forall v :: v in Verdict(ty, values, layer, p) ==> v.CannotFitReadabilityFloor?
  {
  }

  const BACKDROP := Plate("backdrop", Rect(0.0, 0.0, 1.0, 1.0), true, None)

  const SUNK_TITLE := TextBox(
    "title", Rect(0.1, 0.1, 0.5, 0.1), "title", "Inter.ttf", 24.0, Some(0.1), Style(None, false), AsWritten,
    1.0, 0.0, Left, 40, 1, Policy(TextLayout.ScaleDown))

  lemma SunkLayoutIsAccepted()
    ensures LayoutAccepted(Layout(Feed, [BACKDROP, SUNK_TITLE], []))
  {
    var layout := Layout(Feed, [BACKDROP, SUNK_TITLE], []);
    assert layout.layers[0] == BACKDROP && layout.layers[1] == SUNK_TITLE;
    BackdropIsSound();
    TitleIsSound();
    AcceptedExactly(layout);
  }

  /** With one it can be, at an authored size that the contract accepts. */
  lemma RatioCanSink(ty: Typography)
    ensures LayoutAccepted(Layout(Feed, [BACKDROP, SUNK_TITLE], []))
    ensures Verdict(ty, map["title" := [0x41]], SUNK_TITLE, Feed) == [BelowReadabilityFloor(Feed, "title", 24.0)]
  {
    SunkLayoutIsAccepted();
    TitleIsSound();
    assert ReplaceUnsafe("title") == "title";
  }

  lemma BackdropIsSound()
    ensures LayerSound(BACKDROP, Feed) && LayerWellFormed(BACKDROP)
    ensures CoversCanvas(Resolved(BACKDROP.geometry, Feed), Feed)
  {
  }

  lemma TitleIsSound()
    ensures LayerSound(SUNK_TITLE, Feed) && LayerWellFormed(SUNK_TITLE) && Sunk(SUNK_TITLE, Feed)
  {
    var g := SUNK_TITLE.geometry;
    GeometryAgrees(g, Feed);
    assert Resolved(g, Feed) == Rect(108.0, 135.0, 540.0, 135.0);
  }

  // ----- painted text stays on the canvas

  /** The left edge of a line of the given width. */
  function LineLeft(layer: Layer, g: Rect, width: real): real
    requires layer.TextBox?
  {
    match layer.alignment
    case Left => g.x
    case Center => g.x + g.width / 2.0 - width / 2.0
    case Right => g.x + g.width - width
  }

  /** The baseline of line `i`. */
  function Baseline(g: Rect, o: TextLayout.Options, lines: seq<Text>, size: real, i: nat): real {
    g.y + o.MaxAscent(lines, size) + (i as real) * size * o.lineHeight
  }

  lemma {:induction false} WithinExtremes(o: TextLayout.Options, lines: seq<Text>, size: real, i: nat)
    requires i < |lines|
    ensures o.LineMetrics(lines[i], size).ascent <= o.MaxAscent(lines, size)
    ensures o.LineMetrics(lines[i], size).descent <= o.MaxDescent(lines, size)
  {
    if i > 0 {
      WithinExtremes(o, lines[1..], size, i - 1);
      assert lines[1..][i - 1] == lines[i];
    }
  }

  lemma LeadingGrows(o: TextLayout.Options, n: nat, size: real, i: nat)
    requires i < n && size >= 0.0 && o.lineHeight >= 0.0
    ensures 0.0 <= (i as real) * size * o.lineHeight <= o.Leading(n, size)
  {
    var step := size * o.lineHeight;
    assert step >= 0.0;
    assert (i as real) * size * o.lineHeight == (i as real) * step;
    assert o.Leading(n, size) == ((n - 1) as real) * step;
    assert (i as real) <= ((n - 1) as real);
  }

  /** Every line laid out on the fit path of an accepted layer lies on the canvas, before any rotation. */
  lemma FittedTextStaysOnCanvas(ty: Typography, layer: Layer, source: Text, overflow: TextLayout.Overflow, p: Placement, size: real, i: nat)
    requires layer.TextBox? && LayerWellFormed(layer) && LayerSound(layer, p) && !Sunk(layer, p)
    requires var o := LayoutOptions(ty, layer, source, overflow, p);
      && TextWrap.Segments(o.face.segment) && o.Scan(o.StartSize()) == Some(size) && i < |o.LinesAt(size)|
    ensures var o := LayoutOptions(ty, layer, source, overflow, p);
      var g, lines := RenderGeometry(layer.geometry, p), o.LinesAt(size);
      var width, metrics := o.At(size).Width(lines[i]), o.LineMetrics(lines[i], size);
      && 0.0 <= LineLeft(layer, g, width) && LineLeft(layer, g, width) + width <= CanvasWidth(p) as real
      && 0.0 <= Baseline(g, o, lines, size, i) - metrics.ascent
      && Baseline(g, o, lines, size, i) + metrics.descent <= CanvasHeight(p) as real
  {
    var o := LayoutOptions(ty, layer, source, overflow, p);
    var g := RenderGeometry(layer.geometry, p);
    GeometryAgrees(layer.geometry, p);
    SinksExactly(ty, layer, source, overflow, p);
    FittedLineInBox(o, g, layer, size, i);
  }

  /** A line of the fit path lies in its box. */
  lemma FittedLineInBox(o: TextLayout.Options, g: Rect, layer: Layer, size: real, i: nat)
    requires layer.TextBox? && o.width == g.width && o.height == g.height && o.lineHeight > 0.0
    requires o.baseFontSize >= o.readabilityFloor >= 1.0
    requires TextWrap.Segments(o.face.segment) && o.Scan(o.StartSize()) == Some(size) && i < |o.LinesAt(size)|
    ensures var lines := o.LinesAt(size);
      var width, metrics := o.At(size).Width(lines[i]), o.LineMetrics(lines[i], size);
      && g.x <= LineLeft(layer, g, width) && LineLeft(layer, g, width) + width <= g.x + g.width
      && g.y <= Baseline(g, o, lines, size, i) - metrics.ascent
      && Baseline(g, o, lines, size, i) + metrics.descent <= g.y + g.height
  {
    var lines := o.LinesAt(size);
    TextLayoutResults.FitPathKeepsBox(o, size);
    WithinExtremes(o, lines, size, i);
    LeadingGrows(o, |lines|, size, i);
    assert o.PaintedHeight(lines, size) == o.MaxAscent(lines, size) + o.MaxDescent(lines, size) + o.Leading(|lines|, size);
  }

  // ----- hard line breaks

  lemma {:induction false} WrapKeepsParagraphs(r: TextWrap.Ruler, paragraphs: seq<Text>)
    ensures |TextWrap.WrapAll(r, paragraphs)| >= |paragraphs|
  {
    if paragraphs != [] {
      WrapKeepsParagraphs(r, paragraphs[1..]);
    }
  }

  /** Text with more hard lines than a layer allows fits at no size, which is why the contract refuses such placeholders. */
  lemma TooManyHardLinesNeverFit(o: TextLayout.Options)
    requires |TextWrap.Paragraphs(o.text)| > o.maxLines
    ensures forall size :: !o.FitsAt(size)
    ensures o.Scan(o.StartSize()).None?
  {
    forall size
      ensures !o.FitsAt(size)
    {
      WrapKeepsParagraphs(o.At(size), TextWrap.Paragraphs(o.text));
    }
    TextLayoutResults.ScanIsLargest(o);
  }

  // ----- layer identifiers in reports

  /** An identifier in a report is short, not empty and made of safe characters; normalising it again changes nothing. */
  lemma LayerIdsAreSafe(layerId: string)
    ensures var id := NormalizeLayerId(layerId);
      && 1 <= |id| <= 160 && (forall i :: 0 <= i < |id| ==> SafeChar(id[i])) && NormalizeLayerId(id) == id
  {
    var id := NormalizeLayerId(layerId);
    assert ReplaceUnsafe(id) == id;
  }
}
