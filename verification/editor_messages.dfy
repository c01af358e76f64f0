/** When the editor refuses a message, and what it does with one that it does not. */
module EditorMessages {
  import opened Prelude
  import opened Placements
  import opened EditorBridge
  import opened EditorRuns
  import opened EditorAnswers
  import FitText

  // ----- normalising and fitting, told item by item

  /** The first object with the workspace's identifier. */
  predicate FirstWorkspace(items: seq<Item>, i: nat) {
    i < |items| && items[i].id == "workspace" && forall j :: 0 <= j < i ==> items[j].id != "workspace"
  }

  ghost predicate HasOne(items: seq<Item>) {
    exists i: nat :: FirstWorkspace(items, i)
  }

  /** The scene put into a placement: its size, its workspace there and of that size, and nothing else changed. */
  predicate NormalAt(p: Placement, s: Scene, n: Scene, i: nat) {
    && FirstWorkspace(s.items, i)
    && n.width == 1080 && n.height == PixelHeight(p) && n.version == (if s.version == "" then "5.3.0" else s.version)
    && |n.items| == |s.items|
    && n.items[i] == Item(s.items[i].id, 0.0, 0.0, 1.0, 1.0, 1080, PixelHeight(p), false, false, false, s.items[i].src, s.items[i].rest)
    && forall j :: 0 <= j < |s.items| && j != i ==> n.items[j] == s.items[j]
  }

  ghost predicate IsNormal(p: Placement, s: Scene, n: Scene) {
    exists i: nat :: NormalAt(p, s, n, i)
  }

  lemma WorkspaceExactly(items: seq<Item>, i: nat)
    ensures FirstWorkspace(items, i) <==> i == WorkspaceIndex(items) < |items|
  {
  }

  lemma HasOneExactly(s: Scene)
    ensures HasOne(s.items) <==> HasWorkspace(s)
  {
    var i := WorkspaceIndex(s.items);
    WorkspaceExactly(s.items, i);
    if k: nat :| FirstWorkspace(s.items, k) {
      WorkspaceExactly(s.items, k);
    }
  }

  /** Normalising gives exactly that scene, when there is a workspace. */
  lemma NormalizeExactly(p: Placement, s: Scene, n: Scene)
    ensures NormalizeScene(p, Some(s)) == Some(n) <==> IsNormal(p, s, n)
    ensures NormalizeScene(p, Some(s)).Some? <==> HasOne(s.items)
  {
    var i := WorkspaceIndex(s.items);
    WorkspaceExactly(s.items, i);
    HasOneExactly(s);
    if NormalizeScene(p, Some(s)) == Some(n) {
      assert NormalAt(p, s, n, i);
    }
    if k: nat :| NormalAt(p, s, n, k) {
      WorkspaceExactly(s.items, k);
      assert n.items == s.items[i := NormalWorkspace(p, s.items[i])];
    }
  }

  function TextFloor(p: Placement): real {
    match p
    case Feed => 24.0
    case Story => 32.0
  }

  predicate AllSized(s: Scene) {
    forall i :: 0 <= i < |s.items| ==> FitText.Sized(s.items[i].rest)
  }

  /** The scene with every text box, in its place, as the fitting pass makes it. */
  ghost predicate IsFitted(h: Host, p: Placement, s: Scene, f: Scene) {
    && AllSized(s) && f.width == s.width && f.height == s.height && f.version == s.version && |f.items| == |s.items|
    && forall i :: 0 <= i < |s.items| ==>
         && f.items[i] == s.items[i].(rest := f.items[i].rest)
         && FitText.Becomes(h.engine, TextFloor(p), s.items[i].rest, f.items[i].rest)
  }

  lemma PartsSized(s: Scene)
    requires AllSized(s)
    ensures forall i :: 0 <= i < |Parts(s.items)| ==> FitText.Sized(Parts(s.items)[i])
  {
    forall i | 0 <= i < |Parts(s.items)|
      ensures FitText.Sized(Parts(s.items)[i])
    {
      assert FitText.Sized(s.items[i].rest);
    }
  }

  lemma SizedParts(s: Scene)
    requires forall i :: 0 <= i < |Parts(s.items)| ==> FitText.Sized(Parts(s.items)[i])
    ensures AllSized(s)
  {
    forall i | 0 <= i < |s.items|
      ensures FitText.Sized(s.items[i].rest)
    {
      assert FitText.Sized(Parts(s.items)[i]);
    }
  }

  lemma FitExactly(h: Host, p: Placement, s: Scene, f: Scene)
    ensures FitScene(h, s, p) == Some(f) <==> IsFitted(h, p, s, f)
  {
    var parts, fitted := Parts(s.items), Parts(f.items);
    if forall i :: 0 <= i < |parts| ==> FitText.Sized(parts[i]) {
      SizedParts(s);
    }
    if AllSized(s) {
      PartsSized(s);
      FitText.SceneFitsExactly(h.engine, TextFloor(p), parts, fitted);
      if FitScene(h, s, p).Some? {
        var made := FitText.FitObjects(h.engine, TextFloor(p), parts).value;
        FitText.SceneFitsExactly(h.engine, TextFloor(p), parts, made);
        if FitScene(h, s, p) == Some(f) {
          assert forall i :: 0 <= i < |fitted| ==> fitted[i] == made[i];
          assert fitted == made;
        }
      }
      if IsFitted(h, p, s, f) {
        assert FitText.AllBecome(h.engine, TextFloor(p), parts, fitted);
        assert WithParts(s.items, fitted) == f.items;
      }
    }
  }

  // ----- refusals

  ghost predicate Usable(supplied: Option<Supplied>, p: Placement) {
    && supplied.Some? && supplied.value.width == 1080 && supplied.value.height == PixelHeight(p)
    && supplied.value.scene.Some? && HasOne(supplied.value.scene.value.items)
  }

  /** The items of a placement's own scene. */
  function OwnItems(e: Editor, p: Placement): seq<Item>
    requires p == e.active || p in e.scenes
  {
    if p == e.active then e.canvas.items else e.scenes[p].items
  }

  /** What makes the editor answer with an error before it waits for anything. */
  ghost predicate Refused(e: Editor, message: Message) {
    match message
    case Initialize(sameOrigin, feed, story, _) => !sameOrigin || !Usable(feed, Feed) || !Usable(story, Story)
    case LoadPlacement(p) => p.None? || p.value !in e.scenes || !HasOne(OwnItems(e, p.value))
    case LoadScene(p, scene) => p.None? || scene.None? || !HasOne(scene.value.items)
    case Save(p) => p.Some? && p.value != e.active
    case TakeSnapshot => (e.active != Feed && Feed !in e.scenes) || (e.active != Story && Story !in e.scenes)
    case Export(p) => p.Some? && p.value != e.active && p.value !in e.scenes
    case Edit(canvas) => canvas.None?
    case Unsupported => true
    case Foreign => false
  }

  lemma SnapshotHasOne(h: Host, e: Editor)
    ensures HasWorkspace(SceneFromCanvas(h, e)) <==> HasOne(e.canvas.items)
  {
    HasOneExactly(e.canvas);
    CanonicalKeepsWorkspace(h, e.canvas.items);
  }

  lemma UsableExactly(supplied: Option<Supplied>, p: Placement)
    ensures Usable(supplied, p) <==>
      supplied.Some? && RightSize(p, supplied.value) && NormalizeScene(p, supplied.value.scene).Some?
  {
    if supplied.Some? && supplied.value.scene.Some? {
      HasOneExactly(supplied.value.scene.value);
    }
  }

  lemma LastTells(sent: seq<Output>, a: Output, b: Output)
    ensures sent + [a] == sent + [b] <==> a == b
    ensures sent + [a] != sent
  {
    assert (sent + [a])[|sent|] == a && (sent + [b])[|sent|] == b;
  }

  lemma InitializeRefused(h: Host, e: Editor, message: Message)
    requires message.Initialize?
    ensures BeginInitialize(e, message).Finished? <==> Refused(e, message)
    ensures BeginInitialize(e, message).editor.outbox == e.outbox + [Error] <==> Refused(e, message)
  {
    LastTells(e.outbox, Error, Error);
    UsableExactly(message.feed, Feed);
    UsableExactly(message.story, Story);
  }

  lemma LoadRefused(h: Host, e: Editor, message: Message)
    requires message.LoadPlacement? || message.LoadScene?
    ensures Begin(h, e, message).editor.outbox == e.outbox + [Error] <==> Refused(e, message)
  {
    if message.LoadPlacement? && message.placement.Some? && message.placement.value in e.scenes {
      SnapshotHasOne(h, e);
      HasOneExactly(e.scenes[message.placement.value]);
    }
    LastTells(e.outbox, Error, Error);
    if message.LoadScene? && message.placement.Some? {
      LastTells(e.outbox, SceneLoaded(message.placement.value), Error);
      if message.scene.Some? {
        HasOneExactly(message.scene.value);
        NormalizeBelongs(message.placement.value, message.scene.value);
      }
    }
  }

  lemma OthersRefused(h: Host, e: Editor, message: Message)
    requires message.Save? || message.TakeSnapshot? || message.Export? || message.Edit? || message.Unsupported? || message.Foreign?
    ensures Begin(h, e, message).editor.outbox == e.outbox + [Error] <==> Refused(e, message)
  {
    LastTells(e.outbox, Error, Error);
    LastTells(e.outbox, Saved(e.active, SceneFromCanvas(h, e)), Error);
    assert e.active == Feed || e.active == Story;
  }

  /** The first part of a handler answers with an error exactly then. */
  lemma RefusedExactly(h: Host, e: Editor, message: Message)
    ensures Begin(h, e, message).editor.outbox == e.outbox + [Error] <==> Refused(e, message)
    ensures Refused(e, message) ==> Begin(h, e, message).Finished?
    ensures Refused(e, message) ==>
      Begin(h, e, message).editor.canvas == e.canvas && Begin(h, e, message).editor.active == e.active
  {
    if message.Initialize? {
      InitializeRefused(h, e, message);
    } else if message.LoadPlacement? || message.LoadScene? {
      LoadRefused(h, e, message);
    } else {
      OthersRefused(h, e, message);
    }
  }

  // ----- what is done otherwise

  /** Stored is what was, and for the shown placement what the canvas holds. */
  predicate Snapped(h: Host, e: Editor, e': Editor) {
    && e'.scenes.Keys == e.scenes.Keys + {e.active} && Serialised(h, e.canvas, e.active, e'.scenes[e.active])
    && forall p :: p in e.scenes && p != e.active ==> e'.scenes[p] == e.scenes[p]
  }

  lemma SnapsAlike(h: Host, e: Editor)
    ensures Snapped(h, e, SnapshotCurrent(h, e))
  {
  }

  /** A switch stores the canvas, and loads the placement's own scene, put into its placement. */
  lemma SwitchStarts(h: Host, e: Editor, p: Placement) returns (own: Scene)
    requires !Refused(e, LoadPlacement(Some(p)))
    ensures IsOwn(h, e, p, own)
    ensures var s := Begin(h, e, LoadPlacement(Some(p)));
      && s.Waiting? && s.await.Load? && s.await.placement == p && s.await.done == PlacementLoaded(p)
      && IsNormal(p, own, s.await.scene)
      && Snapped(h, e, s.editor) && s.editor == e.(scenes := s.editor.scenes, suppress := true)
  {
    RefusedExactly(h, e, LoadPlacement(Some(p)));
    SnapshotIsOwn(h, e, p);
    SnapsAlike(h, e);
    SnapshotHasOne(h, e);
    own := SnapshotCurrent(h, e).scenes[p];
    HasOneExactly(own);
    if p != e.active {
      HasOneExactly(e.scenes[p]);
    }
    NormalizeExactly(p, own, NormalizeScene(p, Some(own)).value);
  }

  /** A replaced scene is stored as its placement's and, if that is shown, loaded as well. */
  lemma ReplaceStarts(h: Host, e: Editor, p: Placement, scene: Scene)
    requires !Refused(e, LoadScene(Some(p), Some(scene)))
    ensures var s := Begin(h, e, LoadScene(Some(p), Some(scene)));
      && s.editor.scenes.Keys == e.scenes.Keys + {p} && IsNormal(p, scene, s.editor.scenes[p])
      && (forall q :: q in e.scenes && q != p ==> s.editor.scenes[q] == e.scenes[q])
      && s.editor.canvas == e.canvas && s.editor.active == e.active
      && (p == e.active ==> s == Waiting(s.editor, Load(p, s.editor.scenes[p], SceneLoaded(p))) && s.editor.suppress)
      && (p != e.active ==> s.Finished? && s.editor.outbox == e.outbox + [SceneLoaded(p)])
  {
    HasOneExactly(scene);
    var n := NormalizeScene(p, Some(scene)).value;
    NormalizeExactly(p, scene, n);
    NormalizeBelongs(p, scene);
    NormalizeBelongs(p, n);
  }

  /** A load that completes shows the scene as its placement's; one that fails changes nothing. Changes are reported again after either. */
  lemma LoadEndsExactly(h: Host, e: Editor, p: Placement, scene: Scene, done: Output)
    ensures var s := Resume(h, e, Load(p, scene, done), true);
      && s.Finished? && s.editor.canvas == scene && s.editor.active == p && !s.editor.suppress
      && s.editor.outbox == e.outbox + [done]
      && s.editor.scenes.Keys == e.scenes.Keys + {p} && Serialised(h, scene, p, s.editor.scenes[p])
      && (forall q :: q in e.scenes && q != p ==> s.editor.scenes[q] == e.scenes[q])
      && s.editor.lastNotified == Some(s.editor.scenes[p])
    ensures Resume(h, e, Load(p, scene, done), false) == Finished(e.(suppress := false, outbox := e.outbox + [Error]))
  {
  }

  /** Saving stores the canvas and reports it. */
  lemma SaveAnswers(h: Host, e: Editor, p: Option<Placement>)
    requires !Refused(e, Save(p))
    ensures var s := Begin(h, e, Save(p));
      && s.Finished? && Snapped(h, e, s.editor)
      && s.editor == e.(scenes := s.editor.scenes, outbox := e.outbox + [Saved(e.active, s.editor.scenes[e.active])])
  {
    SnapsAlike(h, e);
  }

  /** An edit goes on the canvas and says nothing; a foreign message is ignored. */
  lemma EditAndForeign(h: Host, e: Editor, canvas: Scene)
    ensures Begin(h, e, Edit(Some(canvas))) == Finished(e.(canvas := canvas))
    ensures Begin(h, e, Foreign) == Finished(e)
  {
  }

  /** A snapshot or an export stores the canvas, and then waits for the images of the scenes it will answer with. */
  lemma ImagesAreAwaited(h: Host, e: Editor, message: Message)
    requires (message.TakeSnapshot? || message.Export?) && !Refused(e, message)
    ensures var s := Begin(h, e, message);
      && s.Waiting? && Snapped(h, e, s.editor) && s.editor == e.(scenes := s.editor.scenes)
      && (message.TakeSnapshot? ==>
            Feed in s.editor.scenes && Story in s.editor.scenes
            && s.await == Images(Snapshot(s.editor.scenes[Feed], s.editor.scenes[Story])))
      && (message.Export? ==>
            var p := if message.placement.Some? then message.placement.value else e.active;
            p in s.editor.scenes && s.await == Images(Exported(p, s.editor.scenes[p])))
    ensures forall e2: Editor, done :: Resume(h, e2, Images(done), true) == Finished(e2.(outbox := e2.outbox + [done]))
    ensures forall e2: Editor, done :: Resume(h, e2, Images(done), false) == Finished(e2.(outbox := e2.outbox + [Error]))
  {
    SnapsAlike(h, e);
    assert e.active == Feed || e.active == Story;
  }

  /** The change timer stores the canvas, and reports it once; while a scene is being loaded it does nothing. */
  lemma TimerExactly(h: Host, e: Editor)
    ensures var e' := TimerFires(h, e);
      && (e.suppress ==> e' == e)
      && (!e.suppress ==>
            && Snapped(h, e, e')
            && var own := e'.scenes[e.active];
               e' == if e.lastNotified == Some(own) then e.(scenes := e'.scenes)
                     else e.(scenes := e'.scenes, lastNotified := Some(own), outbox := e.outbox + [Changed(e.active, own)]))
  {
    SnapsAlike(h, e);
  }

  /** Initialize stores both scenes, put into their placements, and waits for the fonts. */
  lemma InitializeStarts(h: Host, e: Editor, message: Message)
    requires message.Initialize? && !Refused(e, message)
    ensures var s := Begin(h, e, message);
      && s == Waiting(s.editor, Fonts(if message.requested.Some? then message.requested.value else Feed))
      && s.editor == e.(scenes := s.editor.scenes) && s.editor.scenes.Keys == e.scenes.Keys + {Feed, Story}
      && IsNormal(Feed, message.feed.value.scene.value, s.editor.scenes[Feed])
      && IsNormal(Story, message.story.value.scene.value, s.editor.scenes[Story])
  {
    UsableExactly(message.feed, Feed);
    UsableExactly(message.story, Story);
    NormalizeExactly(Feed, message.feed.value.scene.value, NormalizeScene(Feed, message.feed.value.scene).value);
    NormalizeExactly(Story, message.story.value.scene.value, NormalizeScene(Story, message.story.value.scene).value);
  }

  lemma FittedStaysFramed(h: Host, p: Placement, s: Scene)
    requires FitScene(h, s, p).Some?
    ensures HasWorkspace(FitScene(h, s, p).value) <==> HasWorkspace(s)
  {
    FitKeepsPlacement(h, s, p);
  }

  /** The fonts came, both scenes are there and can be fitted, and the requested one has a workspace. */
  ghost predicate CanShow(h: Host, e: Editor, requested: Placement, loaded: bool) {
    && loaded && Feed in e.scenes && Story in e.scenes
    && (exists f :: IsFitted(h, Feed, e.scenes[Feed], f))
    && (exists f :: IsFitted(h, Story, e.scenes[Story], f))
    && (match requested case Feed => HasOne(e.scenes[Feed].items) case Story => HasOne(e.scenes[Story].items))
  }

  /** Both fitted scenes are stored, and the requested one is loaded. */
  ghost predicate Shows(h: Host, e: Editor, requested: Placement, s: Step) {
    && s.Waiting? && Feed in e.scenes && Story in e.scenes && s.editor.scenes.Keys == e.scenes.Keys
    && s.editor == e.(scenes := s.editor.scenes, suppress := true)
    && IsFitted(h, Feed, e.scenes[Feed], s.editor.scenes[Feed]) && IsFitted(h, Story, e.scenes[Story], s.editor.scenes[Story])
    && s.await.Load? && s.await.placement == requested && s.await.done == Initialized(requested)
    && IsNormal(requested, if requested == Feed then s.editor.scenes[Feed] else s.editor.scenes[Story], s.await.scene)
  }

  lemma CanShowExactly(h: Host, e: Editor, requested: Placement, loaded: bool)
    ensures CanShow(h, e, requested, loaded) <==>
      && loaded && Feed in e.scenes && Story in e.scenes
      && FitScene(h, e.scenes[Feed], Feed).Some? && FitScene(h, e.scenes[Story], Story).Some?
      && HasWorkspace(if requested == Feed then e.scenes[Feed] else e.scenes[Story])
  {
    if Feed in e.scenes && Story in e.scenes {
      FitDecides(h, Feed, e.scenes[Feed]);
      FitDecides(h, Story, e.scenes[Story]);
      HasOneExactly(e.scenes[Feed]);
      HasOneExactly(e.scenes[Story]);
    }
  }

  lemma LoadBegins(e: Editor, p: Placement, scene: Scene, done: Output)
    requires HasWorkspace(scene)
    ensures var s := BeginLoad(e, p, Some(scene), done);
      && s.Waiting? && s.editor == e.(suppress := true)
      && s.await.Load? && s.await.placement == p && s.await.done == done && IsNormal(p, scene, s.await.scene)
  {
    NormalizeExactly(p, scene, NormalizeScene(p, Some(scene)).value);
  }

  /** Two scenes that can be fitted are stored fitted, and the requested one is loaded. */
  lemma FitsAndLoads(h: Host, e: Editor, requested: Placement, feed: Scene, story: Scene)
    requires Feed in e.scenes && Story in e.scenes
    requires FitScene(h, e.scenes[Feed], Feed) == Some(feed) && FitScene(h, e.scenes[Story], Story) == Some(story)
    ensures Resume(h, e, Fonts(requested), true)
      == BeginLoad(e.(scenes := e.scenes[Feed := feed][Story := story]), requested,
                   Some(if requested == Feed then feed else story), Initialized(requested))
  {
    assert requested == Feed || requested == Story;
  }

  lemma FontsShow(h: Host, e: Editor, requested: Placement)
    requires CanShow(h, e, requested, true)
    ensures Shows(h, e, requested, Resume(h, e, Fonts(requested), true))
  {
    CanShowExactly(h, e, requested, true);
    FitDecides(h, Feed, e.scenes[Feed]);
    FitDecides(h, Story, e.scenes[Story]);
    var feed, story := FitScene(h, e.scenes[Feed], Feed).value, FitScene(h, e.scenes[Story], Story).value;
    FitsAndLoads(h, e, requested, feed, story);
    var own := if requested == Feed then e.scenes[Feed] else e.scenes[Story];
    FittedStaysFramed(h, requested, own);
    LoadBegins(e.(scenes := e.scenes[Feed := feed][Story := story]), requested, if requested == Feed then feed else story, Initialized(requested));
  }

  /**
    When the fonts are there it fits both scenes, stores them, and loads the requested one; it stops with an
    error when the fonts fail, a scene is missing, a text cannot be fitted or the requested scene lost its workspace.
   */
  lemma FontsEndExactly(h: Host, e: Editor, requested: Placement, loaded: bool)
    ensures var s := Resume(h, e, Fonts(requested), loaded);
      if CanShow(h, e, requested, loaded) then Shows(h, e, requested, s)
      else s.Finished? && s.editor.outbox == e.outbox + [Error] && s.editor.canvas == e.canvas && s.editor.active == e.active
  {
    if CanShow(h, e, requested, loaded) {
      FontsShow(h, e, requested);
    } else {
      CanShowExactly(h, e, requested, loaded);
      assert requested == Feed || requested == Story;
      if loaded && Feed in e.scenes && Story in e.scenes
        && FitScene(h, e.scenes[Feed], Feed).Some? && FitScene(h, e.scenes[Story], Story).Some? {
        FittedStaysFramed(h, requested, e.scenes[requested]);
      }
    }
  }

  lemma FitDecides(h: Host, p: Placement, s: Scene)
    ensures FitScene(h, s, p).Some? <==> exists f :: IsFitted(h, p, s, f)
    ensures FitScene(h, s, p).Some? ==> IsFitted(h, p, s, FitScene(h, s, p).value)
  {
    if FitScene(h, s, p).Some? {
      FitExactly(h, p, s, FitScene(h, s, p).value);
    }
    if f :| IsFitted(h, p, s, f) {
      FitExactly(h, p, s, f);
    }
  }
}
