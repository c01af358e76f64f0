/** What the editor bridge keeps over every run of messages, timer callbacks and user edits. */
module EditorRuns {
  import opened Prelude
  import opened Placements
  import opened EditorBridge
  import opened EditorQueue
  import FitText

  // ----- which stored scenes are their placement's

  /**
    What the steps so far tell: whether the canvas has the active placement's workspace, and which
    stored scenes are raw, that is, were taken from the canvas while it had not.
   */
  datatype Trail = Trail(framed: bool, raw: set<Placement>) {
    function Snapped(p: Placement): Trail {
      this.(raw := if framed then raw - {p} else raw + {p})
    }

    function Stored(p: Placement): Trail {
      this.(raw := raw - {p})
    }

    function Loaded(p: Placement): Trail {
      Trail(true, raw - {p})
    }

    /** The canvas is changed from outside: by the user, by a template picked in the side bar, by an AI result. */
    function Changed(p: Placement, canvas: Scene): Trail {
      this.(framed := Framed(p, canvas))
    }
  }

  predicate StoresFeed(m: Message)
    requires m.Initialize?
  {
    && m.sameOrigin && m.feed.Some? && m.story.Some? && RightSize(Feed, m.feed.value)
    && NormalizeScene(Feed, m.feed.value.scene).Some?
  }

  predicate StoresStory(m: Message)
    requires m.Initialize?
  {
    StoresFeed(m) && RightSize(Story, m.story.value) && NormalizeScene(Story, m.story.value.scene).Some?
  }

  /** Which snapshot or normalised scene the first part of a handler stores. */
  function BeginTrail(t: Trail, e: Editor, m: Message): Trail {
    match m
    case Initialize(_, _, _, _) =>
      var t1 := if StoresFeed(m) then t.Stored(Feed) else t;
      if StoresStory(m) then t1.Stored(Story) else t1
    case LoadPlacement(p) => if p.Some? && p.value in e.scenes then t.Snapped(e.active) else t
    case LoadScene(p, scene) => if p.Some? && NormalizeScene(p.value, scene).Some? then t.Stored(p.value) else t
    case Save(p) => if p.Some? && p.value != e.active then t else t.Snapped(e.active)
    case TakeSnapshot => t.Snapped(e.active)
    case Export(_) => t.Snapped(e.active)
    case Edit(canvas) => if canvas.Some? then t.Changed(e.active, canvas.value) else t
    case _ => t
  }

  function ResumeTrail(t: Trail, a: Await, ok: bool): Trail {
    if a.Load? && ok then t.Loaded(a.placement) else t
  }

  function OuterTrail(t: Trail, e: Editor, what: Outside): Trail {
    match what
    case Tick => if e.suppress then t else t.Snapped(e.active)
    case Change(canvas) => t.Changed(e.active, canvas)
  }

  function EventTrail(t: Trail, m: Machine, ev: Event): Trail
    requires Enabled(m, ev)
  {
    match ev
    case Arrive(_) => t
    case React(k, _) => BeginTrail(t, m.editor, m.turns[k].message)
    case Continue(k, ok, _) => ResumeTrail(t, m.turns[k].state.await, ok)
    case Outer(what) => OuterTrail(t, m.editor, what)
  }

  function RunTrail(h: Host, e: Editor, run: seq<Event>): Trail {
    if run == [] then Trail(Framed(e.active, e.canvas), {})
    else
      var shorter, ev := run[..|run| - 1], run[|run| - 1];
      var before := After(h, e, shorter);
      if before.Some? && Enabled(before.value, ev) then EventTrail(RunTrail(h, e, shorter), before.value, ev)
      else RunTrail(h, e, shorter)
  }

  /** The canvas has the workspace when the trail says so, and a stored scene is its placement's unless it is raw. */
  ghost predicate Tracks(e: Editor, t: Trail) {
    && (Framed(e.active, e.canvas) <==> t.framed)
    && forall p :: p in e.scenes ==> (Belongs(p, e.scenes[p]) <==> p !in t.raw)
  }

  predicate AwaitGood(e: Editor, a: Option<Await>) {
    && (a.Some? && a.value.Load? ==> Belongs(a.value.placement, a.value.scene) && e.suppress)
    && (a.None? || !a.value.Load? ==> !e.suppress)
  }

  // ----- single steps

  lemma {:induction false} CanonicalKeepsWorkspace(h: Host, items: seq<Item>)
    ensures WorkspaceIndex(Canonical(h, items)) == WorkspaceIndex(items)
  {
    if items != [] {
      CanonicalKeepsWorkspace(h, items[1..]);
      assert Canonical(h, items)[1..] == Canonical(h, items[1..]);
    }
  }

  /** A snapshot belongs exactly when the canvas has the workspace of the active placement. */
  lemma SnapshotBelongs(h: Host, e: Editor)
    ensures Belongs(e.active, SceneFromCanvas(h, e)) <==> Framed(e.active, e.canvas)
  {
    CanonicalKeepsWorkspace(h, e.canvas.items);
  }

  lemma {:induction false} SameWorkspaceIndex(a: seq<Item>, b: seq<Item>)
    requires |a| == |b| && forall i :: 0 <= i < |a| ==> a[i].id == b[i].id
    ensures WorkspaceIndex(a) == WorkspaceIndex(b)
  {
    if a != [] {
      SameWorkspaceIndex(a[1..], b[1..]);
    }
  }

  /** The fitting pass changes texts and children only, so a scene stays its placement's, or not. */
  lemma FitKeepsPlacement(h: Host, s: Scene, p: Placement)
    requires FitScene(h, s, p).Some?
    ensures Belongs(p, FitScene(h, s, p).value) <==> Belongs(p, s)
    ensures HasWorkspace(FitScene(h, s, p).value) <==> HasWorkspace(s)
  {
    SameWorkspaceIndex(s.items, FitScene(h, s, p).value.items);
  }

  lemma SnapshotTracks(h: Host, e: Editor, t: Trail)
    requires Tracks(e, t)
    ensures Tracks(SnapshotCurrent(h, e), t.Snapped(e.active))
  {
    SnapshotBelongs(h, e);
  }

  lemma StoreTracks(e: Editor, t: Trail, p: Placement, s: Scene)
    requires Tracks(e, t) && Belongs(p, s)
    ensures Tracks(e.(scenes := e.scenes[p := s]), t.Stored(p))
  {
  }

  ghost predicate StepTracks(s: Step, t: Trail) {
    Tracks(s.editor, t) && AwaitGood(s.editor, if s.Waiting? then Some(s.await) else None)
  }

  lemma BeginLoadTracks(e: Editor, t: Trail, p: Placement, scene: Option<Scene>, done: Output)
    requires Tracks(e, t)
    ensures StepTracks(BeginLoad(e, p, scene, done), t)
  {
    if scene.Some? {
      NormalizeBelongs(p, scene.value);
    }
  }

  lemma EndLoadTracks(h: Host, e: Editor, t: Trail, p: Placement, scene: Scene, done: Output, loaded: bool)
    requires Tracks(e, t) && Belongs(p, scene)
    ensures StepTracks(EndLoad(h, e, p, scene, done, loaded), ResumeTrail(t, Load(p, scene, done), loaded))
  {
    SnapshotBelongs(h, e.(canvas := scene, active := p));
  }

  lemma BeginInitializeTracks(e: Editor, t: Trail, m: Message)
    requires Tracks(e, t) && !e.suppress && m.Initialize?
    ensures StepTracks(BeginInitialize(e, m), BeginTrail(t, e, m))
  {
    if StoresFeed(m) {
      var feed := NormalizeScene(Feed, m.feed.value.scene).value;
      NormalizeBelongs(Feed, m.feed.value.scene.value);
      StoreTracks(e, t, Feed, feed);
      if StoresStory(m) {
        var story := NormalizeScene(Story, m.story.value.scene).value;
        NormalizeBelongs(Story, m.story.value.scene.value);
        StoreTracks(e.(scenes := e.scenes[Feed := feed]), t.Stored(Feed), Story, story);
      }
    }
  }

  lemma BeginLoadSceneTracks(h: Host, e: Editor, t: Trail, placement: Placement, scene: Scene)
    requires Tracks(e, t) && !e.suppress
    ensures var m := LoadScene(Some(placement), Some(scene));
      StepTracks(Begin(h, e, m), BeginTrail(t, e, m))
  {
    NormalizeBelongs(placement, scene);
    if HasWorkspace(scene) {
      var normal := NormalizeScene(placement, Some(scene));
      StoreTracks(e, t, placement, normal.value);
      BeginLoadTracks(e.(scenes := e.scenes[placement := normal.value]), t.Stored(placement), placement, normal, SceneLoaded(placement));
    }
  }

  lemma BeginLoadPlacementTracks(h: Host, e: Editor, t: Trail, placement: Placement)
    requires Tracks(e, t) && !e.suppress && placement in e.scenes
    ensures var m := LoadPlacement(Some(placement));
      StepTracks(Begin(h, e, m), BeginTrail(t, e, m))
  {
    SnapshotTracks(h, e, t);
    var snapped := SnapshotCurrent(h, e);
    BeginLoadTracks(snapped, t.Snapped(e.active), placement, Some(snapped.scenes[placement]), PlacementLoaded(placement));
  }

  lemma ChangeTracks(e: Editor, t: Trail, canvas: Scene)
    requires Tracks(e, t)
    ensures Tracks(e.(canvas := canvas), t.Changed(e.active, canvas))
  {
  }

  lemma BeginTracks(h: Host, e: Editor, t: Trail, m: Message)
    requires Tracks(e, t) && !e.suppress
    ensures StepTracks(Begin(h, e, m), BeginTrail(t, e, m))
  {
    match m {
      case Initialize(_, _, _, _) => BeginInitializeTracks(e, t, m);
      case LoadPlacement(placement) =>
        if placement.Some? && placement.value in e.scenes {
          BeginLoadPlacementTracks(h, e, t, placement.value);
        }
      case LoadScene(placement, scene) =>
        if placement.Some? && scene.Some? {
          BeginLoadSceneTracks(h, e, t, placement.value, scene.value);
        }
      case Edit(canvas) =>
        if canvas.Some? {
          ChangeTracks(e, t, canvas.value);
        }
      case Unsupported =>
      case Foreign =>
      case _ => SnapshotTracks(h, e, t);
    }
  }

  lemma FitTracks(h: Host, e: Editor, t: Trail, p: Placement)
    requires Tracks(e, t) && p in e.scenes && FitScene(h, e.scenes[p], p).Some?
    ensures Tracks(e.(scenes := e.scenes[p := FitScene(h, e.scenes[p], p).value]), t)
  {
    FitKeepsPlacement(h, e.scenes[p], p);
  }

  lemma AfterFontsTracks(h: Host, e: Editor, t: Trail, requested: Placement, loaded: bool)
    requires Tracks(e, t) && !e.suppress
    ensures StepTracks(AfterFonts(h, e, requested, loaded), t)
  {
    if loaded && Feed in e.scenes && Story in e.scenes && FitScene(h, e.scenes[Feed], Feed).Some? {
      FitTracks(h, e, t, Feed);
      var e1 := e.(scenes := e.scenes[Feed := FitScene(h, e.scenes[Feed], Feed).value]);
      if FitScene(h, e1.scenes[Story], Story).Some? {
        FitTracks(h, e1, t, Story);
        var e2 := e1.(scenes := e1.scenes[Story := FitScene(h, e1.scenes[Story], Story).value]);
        assert requested == Feed || requested == Story;
        BeginLoadTracks(e2, t, requested, Some(e2.scenes[requested]), Initialized(requested));
      }
    }
  }

  lemma ResumeTracks(h: Host, e: Editor, t: Trail, a: Await, ok: bool)
    requires Tracks(e, t) && AwaitGood(e, Some(a))
    ensures StepTracks(Resume(h, e, a, ok), ResumeTrail(t, a, ok))
  {
    match a
    case Load(p, scene, done) => EndLoadTracks(h, e, t, p, scene, done, ok);
    case Fonts(requested) => AfterFontsTracks(h, e, t, requested, ok);
    case Images(_) =>
  }

  // ----- whole runs

  ghost predicate MachineTracks(m: Machine, t: Trail) {
    InTurn(m) && Tracks(m.editor, t) && AwaitGood(m.editor, Current(m))
  }

  lemma EventTracks(h: Host, m: Machine, t: Trail, ev: Event)
    requires MachineTracks(m, t) && Enabled(m, ev)
    ensures MachineTracks(Apply(h, m, ev), EventTrail(t, m, ev))
  {
    EventKeepsTurn(h, m, ev);
    match ev
    case Arrive(_) =>
    case React(k, _) => BeginTracks(h, m.editor, t, m.turns[k].message);
    case Continue(k, ok, _) => ResumeTracks(h, m.editor, t, m.turns[k].state.await, ok);
    case Outer(what) => OuterTracks(h, m.editor, t, what);
  }

  lemma OuterTracks(h: Host, e: Editor, t: Trail, what: Outside)
    requires Tracks(e, t)
    ensures Tracks(Meet(h, e, what), OuterTrail(t, e, what)) && Meet(h, e, what).suppress == e.suppress
  {
    if what.Change? {
      ChangeTracks(e, t, what.canvas);
    } else if !e.suppress {
      SnapshotTracks(h, e, t);
    }
  }

  /** The bridge as it is created, over whatever the canvas holds by then. */
  function Opened(canvas: Scene): Editor {
    Editor(canvas, map[], Feed, false, None, [])
  }

  lemma {:induction false} RunTracks(h: Host, canvas: Scene, run: seq<Event>)
    requires After(h, Opened(canvas), run).Some?
    ensures MachineTracks(After(h, Opened(canvas), run).value, RunTrail(h, Opened(canvas), run))
  {
    if run != [] {
      var shorter := run[..|run| - 1];
      RunTracks(h, canvas, shorter);
      var m := After(h, Opened(canvas), shorter).value;
      EventTracks(h, m, RunTrail(h, Opened(canvas), shorter), run[|run| - 1]);
    }
  }

  /**
    On every run from the creation of the bridge, whatever the canvas holds then and whatever is
    put on it from outside: a stored scene is its placement's exactly when it is no snapshot of a
    canvas without that placement's workspace, or was loaded, replaced or taken again since. The
    canvas itself has the workspace exactly as a completed load or the last change from outside
    left it.
   */
  lemma ScenesBelongExactly(h: Host, canvas: Scene, run: seq<Event>)
    requires After(h, Opened(canvas), run).Some?
    ensures var e, t := After(h, Opened(canvas), run).value.editor, RunTrail(h, Opened(canvas), run);
      && (forall p :: p in e.scenes ==> (Belongs(p, e.scenes[p]) <==> p !in t.raw))
      && (Framed(e.active, e.canvas) <==> t.framed)
  {
    RunTracks(h, canvas, run);
  }

  // ----- the canvas the bridge starts on

  function Plain(id: string, rest: nat): Item {
    Item(id, 0.0, 0.0, 1.0, 1.0, 900, 1200, false, false, true, "", FitText.Other(rest, []))
  }

  /** The workspace plugin's own workspace: 900 by 1200, and not yet barred from events. */
  const BLANK: Scene := Scene(0, 0, FABRIC_VERSION, [Plain("workspace", 0)])

  /** A scene of that size as it is after it was loaded: its workspace is barred from events. */
  const OTHER_SIZE: Scene := Scene(0, 0, FABRIC_VERSION, [Plain("workspace", 0).(evented := false)])

  lemma OtherSizeIsNotFramed()
    ensures !Framed(Feed, OTHER_SIZE)
  {
    assert OTHER_SIZE.items[0].id == "workspace";
    assert OTHER_SIZE.items[0].width == 900;
  }

  lemma BlankIsNotFramed()
    ensures !Framed(Feed, BLANK) && HasWorkspace(BLANK)
  {
    assert BLANK.items[0].id == "workspace";
    assert BLANK.items[0].width == 900;
  }

  const SOME_HOST: Host := Host((url: string) => url, FitText.Engine((t, w, s, c, r) => FitText.Typeset(0.0, 0.0, 0), t => false))

  lemma OneEvent(h: Host, e: Editor, ev: Event)
    requires Enabled(Start(e), ev)
    ensures After(h, e, [ev]) == Some(Apply(h, Start(e), ev))
  {
    assert [ev][..0] == [];
  }

  /** One timer callback before anything is loaded stores a feed scene that is not the feed's. */
  lemma TimerStoresForeignScene()
    ensures var m := After(SOME_HOST, Opened(BLANK), [Outer(Tick)]);
      m.Some? && Feed in m.value.editor.scenes && !Belongs(Feed, m.value.editor.scenes[Feed])
  {
    BlankIsNotFramed();
    OneEvent(SOME_HOST, Opened(BLANK), Outer(Tick));
    SnapshotBelongs(SOME_HOST, Opened(BLANK));
  }

  /** Two events in a row. */
  lemma TwoEvents(h: Host, e: Editor, first: Event, second: Event)
    requires Enabled(Start(e), first) && Enabled(Apply(h, Start(e), first), second)
    ensures After(h, e, [first, second]) == Some(Apply(h, Apply(h, Start(e), first), second))
  {
    OneEvent(h, e, first);
    assert [first, second][..1] == [first];
  }

  /**
    A template of another size, picked in the side bar, goes on the canvas without being
    normalised; the next timer callback stores it as a feed scene, even over a canvas that was
    the feed's.
   */
  lemma PickStoresForeignScene()
    ensures Framed(Feed, TemplateScene(Feed))
    ensures var m := After(SOME_HOST, Opened(TemplateScene(Feed)), [Outer(Change(OTHER_SIZE)), Outer(Tick)]);
      m.Some? && Feed in m.value.editor.scenes && !Belongs(Feed, m.value.editor.scenes[Feed])
  {
    TemplateBelongs(Feed);
    OtherSizeIsNotFramed();
    TwoEvents(SOME_HOST, Opened(TemplateScene(Feed)), Outer(Change(OTHER_SIZE)), Outer(Tick));
    SnapshotBelongs(SOME_HOST, Opened(TemplateScene(Feed)).(canvas := OTHER_SIZE));
  }

  /** Another colour or other contents of the workspace leave the canvas framed. */
  lemma ColourKeepsFrame(p: Placement, canvas: Scene, rest: FitText.Object)
    requires HasWorkspace(canvas)
    ensures var i := WorkspaceIndex(canvas.items);
      Framed(p, canvas.(items := canvas.items[i := canvas.items[i].(rest := rest)])) <==> Framed(p, canvas)
  {
    var i := WorkspaceIndex(canvas.items);
    WorkspaceUpdate(canvas.items, i, canvas.items[i].(rest := rest));
  }

  // ----- without edits the document stays the same

  ghost predicate EditorGood(e: Editor) {
    Tracks(e, Trail(true, {}))
  }

  ghost predicate Good(m: Machine) {
    MachineTracks(m, Trail(true, {}))
  }

  lemma EventKeepsGood(h: Host, m: Machine, ev: Event)
    requires Good(m) && Enabled(m, ev) && NoEdit(m, ev)
    ensures Good(Apply(h, m, ev))
  {
    EventTracks(h, m, Trail(true, {}), ev);
    assert EventTrail(Trail(true, {}), m, ev) == Trail(true, {});
  }

  function CanonicalScene(h: Host, p: Placement, s: Scene): Scene {
    Scene(CanvasWidth(p), CanvasHeight(p), s.version, Canonical(h, s.items))
  }

  /** The scene of a placement as a save would report it: from the canvas if shown, else as stored. */
  function Document(h: Host, e: Editor, p: Placement): Scene
    requires p == e.active || p in e.scenes
  {
    if p == e.active then SceneFromCanvas(h, e) else CanonicalScene(h, p, e.scenes[p])
  }

  /** Making a URL relative twice changes nothing more. */
  ghost predicate RelativeSettles(h: Host) {
    forall s {:trigger h.relative(s)} :: h.relative(h.relative(s)) == h.relative(s)
  }

  lemma {:induction false} CanonicalSettles(h: Host, items: seq<Item>)
    requires RelativeSettles(h)
    ensures Canonical(h, Canonical(h, items)) == Canonical(h, items)
  {
    if items != [] {
      CanonicalSettles(h, items[1..]);
      assert Canonical(h, items)[1..] == Canonical(h, items[1..]);
    }
  }

  /** Events that change no placement's scene on purpose. */
  predicate NoEdit(m: Machine, ev: Event) {
    match ev
    case Outer(what) => what.Tick?
    case React(k, _) =>
      k < |m.turns| ==> !m.turns[k].message.Initialize? && !m.turns[k].message.LoadScene? && !m.turns[k].message.Edit?
    case _ => true
  }

  /** Both scenes are there, and a scene being loaded is the one its placement has. */
  ghost predicate Steady(h: Host, m: Machine) {
    && Good(m)
    && Feed in m.editor.scenes && Story in m.editor.scenes
    && (Current(m).Some? ==> LoadsOwnScene(h, m.editor, Current(m).value))
  }

  /** The stored scene of the shown placement is up to date. */
  predicate StoredIsShown(h: Host, e: Editor) {
    e.active in e.scenes && CanonicalScene(h, e.active, e.scenes[e.active]) == SceneFromCanvas(h, e)
  }

  lemma SnapshotKeepsDocument(h: Host, e: Editor, p: Placement)
    requires RelativeSettles(h) && Feed in e.scenes && Story in e.scenes
    ensures Document(h, SnapshotCurrent(h, e), p) == Document(h, e, p)
    ensures CanonicalScene(h, e.active, SnapshotCurrent(h, e).scenes[e.active]) == Document(h, e, e.active)
  {
    CanonicalSettles(h, e.canvas.items);
  }

  lemma EndLoadKeepsDocument(h: Host, e: Editor, q: Placement, scene: Scene, done: Output, loaded: bool, p: Placement)
    requires RelativeSettles(h) && Feed in e.scenes && Story in e.scenes
    requires CanonicalScene(h, q, scene) == Document(h, e, q)
    requires StoredIsShown(h, e)
    ensures Document(h, EndLoad(h, e, q, scene, done, loaded).editor, p) == Document(h, e, p)
  {
    if loaded {
      SnapshotKeepsDocument(h, e.(canvas := scene, active := q), p);
    }
  }

  lemma LoadKeepsDocument(h: Host, e: Editor, q: Placement, p: Placement)
    requires RelativeSettles(h) && EditorGood(e) && Feed in e.scenes && Story in e.scenes
    ensures var s := Begin(h, e, LoadPlacement(Some(q)));
      && Document(h, s.editor, p) == Document(h, e, p)
      && (s.Waiting? ==>
            && s.await.Load? && s.await.placement == q
            && CanonicalScene(h, q, s.await.scene) == Document(h, s.editor, q)
            && StoredIsShown(h, s.editor))
  {
    var snapped := SnapshotCurrent(h, e);
    assert q == Feed || q == Story;
    SnapshotTracks(h, e, Trail(true, {}));
    SnapshotKeepsDocument(h, e, p);
    SnapshotKeepsDocument(h, e, q);
    NormalizeBelongs(q, snapped.scenes[q]);
  }

  lemma BeginKeepsDocument(h: Host, e: Editor, m: Message, p: Placement)
    requires RelativeSettles(h) && EditorGood(e) && Feed in e.scenes && Story in e.scenes
    requires !m.Initialize? && !m.LoadScene? && !m.Edit?
    ensures Document(h, Begin(h, e, m).editor, p) == Document(h, e, p)
  {
    SnapshotKeepsDocument(h, e, p);
    if m.LoadPlacement? && m.placement.Some? {
      LoadKeepsDocument(h, e, m.placement.value, p);
    }
  }

  /** A load under way carries the scene its placement has. */
  predicate LoadsOwnScene(h: Host, e: Editor, a: Await)
    requires Feed in e.scenes && Story in e.scenes
  {
    && !a.Fonts?
    && (a.Load? ==> CanonicalScene(h, a.placement, a.scene) == Document(h, e, a.placement) && StoredIsShown(h, e))
  }

  lemma BeginKeepsScenes(h: Host, e: Editor, m: Message)
    requires RelativeSettles(h) && EditorGood(e) && Feed in e.scenes && Story in e.scenes
    requires !m.Initialize? && !m.LoadScene? && !m.Edit?
    ensures var s := Begin(h, e, m);
      && Feed in s.editor.scenes && Story in s.editor.scenes
      && (s.Waiting? ==> LoadsOwnScene(h, s.editor, s.await))
  {
    if m.LoadPlacement? && m.placement.Some? {
      LoadKeepsDocument(h, e, m.placement.value, Feed);
    }
  }

  lemma ReactKeepsDocument(h: Host, m: Machine, k: nat, fulfilled: bool, p: Placement)
    requires RelativeSettles(h) && Steady(h, m) && Enabled(m, React(k, fulfilled)) && NoEdit(m, React(k, fulfilled))
    ensures Steady(h, Apply(h, m, React(k, fulfilled)))
    ensures Document(h, Apply(h, m, React(k, fulfilled)).editor, p) == Document(h, m.editor, p)
  {
    EventKeepsGood(h, m, React(k, fulfilled));
    EventKeepsTurn(h, m, React(k, fulfilled));
    BeginKeepsScenes(h, m.editor, m.turns[k].message);
    BeginKeepsDocument(h, m.editor, m.turns[k].message, p);
  }

  lemma ContinueKeepsDocument(h: Host, m: Machine, k: nat, ok: bool, fulfilled: bool, p: Placement)
    requires RelativeSettles(h) && Steady(h, m) && Enabled(m, Continue(k, ok, fulfilled))
    ensures Steady(h, Apply(h, m, Continue(k, ok, fulfilled)))
    ensures Document(h, Apply(h, m, Continue(k, ok, fulfilled)).editor, p) == Document(h, m.editor, p)
  {
    EventKeepsGood(h, m, Continue(k, ok, fulfilled));
    EventKeepsTurn(h, m, Continue(k, ok, fulfilled));
    var a := m.turns[k].state.await;
    if a.Load? {
      EndLoadKeepsDocument(h, m.editor, a.placement, a.scene, a.done, ok, p);
    }
  }

  lemma TimerKeepsDocument(h: Host, e: Editor, p: Placement)
    requires RelativeSettles(h) && Feed in e.scenes && Story in e.scenes
    ensures var t := TimerFires(h, e);
      && Feed in t.scenes && Story in t.scenes
      && Document(h, t, p) == Document(h, e, p)
      && (e.suppress ==> t == e)
  {
    SnapshotKeepsDocument(h, e, p);
  }

  /** A new editor state between two awaits, which a load under way does not see. */
  lemma StaysGood(m: Machine, e: Editor, since: seq<Outside>)
    requires InTurn(m) && EditorGood(e) && AwaitGood(e, Current(m))
    ensures Good(m.(editor := e, since := since))
    ensures Current(m.(editor := e, since := since)) == Current(m)
  {
  }

  lemma StaysSteady(h: Host, m: Machine, e: Editor, since: seq<Outside>)
    requires Steady(h, m) && Feed in e.scenes && Story in e.scenes
    requires EditorGood(e) && AwaitGood(e, Current(m))
    requires Current(m).Some? && Current(m).value.Load? ==> e == m.editor
    ensures Steady(h, m.(editor := e, since := since))
  {
    StaysGood(m, e, since);
  }

  lemma TickKeepsDocument(h: Host, m: Machine, p: Placement)
    requires RelativeSettles(h) && Steady(h, m)
    ensures Steady(h, Apply(h, m, Outer(Tick)))
    ensures Document(h, Apply(h, m, Outer(Tick)).editor, p) == Document(h, m.editor, p)
  {
    OuterTracks(h, m.editor, Trail(true, {}), Tick);
    TimerKeepsDocument(h, m.editor, p);
    StaysSteady(h, m, TimerFires(h, m.editor), m.since + [Tick]);
  }

  lemma EventKeepsDocument(h: Host, m: Machine, ev: Event, p: Placement)
    requires RelativeSettles(h) && Steady(h, m) && Enabled(m, ev) && NoEdit(m, ev)
    ensures Steady(h, Apply(h, m, ev))
    ensures Document(h, Apply(h, m, ev).editor, p) == Document(h, m.editor, p)
  {
    match ev
    case Arrive(_) => EventKeepsGood(h, m, ev);
    case React(k, fulfilled) => ReactKeepsDocument(h, m, k, fulfilled, p);
    case Continue(k, ok, fulfilled) => ContinueKeepsDocument(h, m, k, ok, fulfilled, p);
    case Outer(_) => TickKeepsDocument(h, m, p);
  }

  ghost predicate NoEdits(h: Host, e: Editor, run: seq<Event>) {
    run != [] ==>
      var shorter := run[..|run| - 1];
      NoEdits(h, e, shorter) && (After(h, e, shorter).Some? ==> NoEdit(After(h, e, shorter).value, run[|run| - 1]))
  }

  /**
    Switching placements to and fro, saving, exporting and reporting changes, in any order and
    with any of them failing, leave both placements' scenes as they were.
   */
  lemma {:induction false} DocumentSurvivesSwitching(h: Host, e: Editor, run: seq<Event>, p: Placement)
    requires RelativeSettles(h)
    requires EditorGood(e) && !e.suppress && Feed in e.scenes && Story in e.scenes
    requires After(h, e, run).Some? && NoEdits(h, e, run)
    ensures Steady(h, After(h, e, run).value)
    ensures Document(h, After(h, e, run).value.editor, p) == Document(h, e, p)
  {
    if run != [] {
      DocumentSurvivesSwitching(h, e, run[..|run| - 1], p);
      EventKeepsDocument(h, After(h, e, run[..|run| - 1]).value, run[|run| - 1], p);
    }
  }

  // ----- initialize and the change timer

  function Timers(h: Host, e: Editor, n: nat): Editor {
    if n == 0 then e else TimerFires(h, Timers(h, e, n - 1))
  }

  lemma {:induction false} TimersSnapshot(h: Host, e: Editor, n: nat)
    requires !e.suppress
    ensures var t := Timers(h, e, n);
      && !t.suppress && t.canvas == e.canvas && t.active == e.active
      && t.scenes == (if n == 0 then e.scenes else e.scenes[e.active := SceneFromCanvas(h, e)])
  {
    if n > 0 {
      TimersSnapshot(h, e, n - 1);
    }
  }

  /** The scene of a placement once the timer has fired `n` times while initialize waited for fonts. */
  function SceneKept(h: Host, e: Editor, m: Message, n: nat, p: Placement): Option<Scene>
    requires m.Initialize? && m.feed.Some? && m.story.Some?
  {
    if n > 0 && p == e.active then Some(SceneFromCanvas(h, e))
    else NormalizeScene(p, if p == Feed then m.feed.value.scene else m.story.value.scene)
  }

  /**
    While initialize waits for fonts, the supplied scenes are already stored but not yet shown. If
    the timer fires then, the placement that was active has the old canvas stored instead of its
    template, whichever placement is requested; the other one keeps its template.
   */
  lemma InitializeStores(h: Host, e: Editor, m: Message, n: nat)
    requires m.Initialize? && !e.suppress && BeginInitialize(e, m).Waiting?
    ensures m.feed.Some? && m.story.Some? && SceneKept(h, e, m, n, Feed).Some? && SceneKept(h, e, m, n, Story).Some?
    ensures
      var requested := BeginInitialize(e, m).await.requested;
      var s := AfterFonts(h, Timers(h, BeginInitialize(e, m).editor, n), requested, true);
      s.Waiting? ==> OpensOn(h, s, requested, SceneKept(h, e, m, n, Feed).value, SceneKept(h, e, m, n, Story).value)
  {
    var begun := BeginInitialize(e, m).editor;
    TimersSnapshot(h, begun, n);
    SupplyStores(e, m);
    AfterFontsOpens(h, Timers(h, begun, n), BeginInitialize(e, m).await.requested);
  }

  lemma SupplyStores(e: Editor, m: Message)
    requires m.Initialize? && BeginInitialize(e, m).Waiting?
    ensures m.feed.Some? && m.story.Some? && BeginInitialize(e, m).await.Fonts?
    ensures var begun := BeginInitialize(e, m).editor;
      && NormalizeScene(Feed, m.feed.value.scene).Some? && NormalizeScene(Story, m.story.value.scene).Some?
      && begun == e.(scenes := e.scenes[Feed := NormalizeScene(Feed, m.feed.value.scene).value][Story := NormalizeScene(Story, m.story.value.scene).value])
  {
  }

  lemma AfterFontsOpens(h: Host, e: Editor, requested: Placement)
    requires Feed in e.scenes && Story in e.scenes
    ensures var s := AfterFonts(h, e, requested, true);
      s.Waiting? ==> OpensOn(h, s, requested, e.scenes[Feed], e.scenes[Story])
  {
    assert requested == Feed || requested == Story;
  }

  /** The two scenes are fitted and stored, and the requested one is normalised and being loaded. */
  predicate OpensOn(h: Host, s: Step, requested: Placement, feed: Scene, story: Scene)
    requires s.Waiting?
  {
    && Feed in s.editor.scenes && Some(s.editor.scenes[Feed]) == FitScene(h, feed, Feed)
    && Story in s.editor.scenes && Some(s.editor.scenes[Story]) == FitScene(h, story, Story)
    && s.await.Load? && s.await.placement == requested
    && Some(s.await.scene) == NormalizeScene(requested, FitScene(h, if requested == Feed then feed else story, requested))
  }

  /** A headline on a workspace of the placement's size. */
  function TemplateScene(p: Placement): Scene {
    Scene(CanvasWidth(p), CanvasHeight(p), FABRIC_VERSION, [NormalWorkspace(p, Plain("workspace", 0)), Plain("headline", 1)])
  }

  lemma TemplateBelongs(p: Placement)
    ensures Belongs(p, TemplateScene(p)) && NormalizeScene(p, Some(TemplateScene(p))) == Some(TemplateScene(p))
  {
    assert TemplateScene(p).items[0].id == "workspace";
    NormalizeBelongs(p, TemplateScene(p));
  }

  function Opening(requested: Placement): Message {
    Initialize(true, Some(Supplied(1080, 1350, Some(TemplateScene(Feed)))), Some(Supplied(1080, 1920, Some(TemplateScene(Story)))), Some(requested))
  }

  /** What FitScene does to scenes without text boxes: nothing. */
  lemma NothingToFit(s: Scene, p: Placement)
    requires forall i :: 0 <= i < |s.items| ==> s.items[i].rest.Other? && s.items[i].rest.children == []
    ensures FitScene(SOME_HOST, s, p) == Some(s)
  {
    var parts := Parts(s.items);
    assert forall i :: 0 <= i < |parts| ==> FitText.Unmarked(parts[i]);
    FitText.UnmarkedAllStay(SOME_HOST.engine, MinimumTextSize(p), parts);
    assert WithParts(s.items, parts) == s.items;
  }

  /** The blank canvas as a feed scene. */
  const BLANK_FEED: Scene := Scene(1080, 1350, FABRIC_VERSION, BLANK.items)

  lemma BlankFeed()
    ensures SceneFromCanvas(SOME_HOST, Opened(BLANK)) == BLANK_FEED && !Belongs(Feed, BLANK_FEED)
  {
    assert Canonical(SOME_HOST, BLANK.items) == BLANK.items;
    BlankIsNotFramed();
    SnapshotBelongs(SOME_HOST, Opened(BLANK));
  }

  /** What initialize has stored and is about to load, after `n` timer callbacks. */
  function AfterOpening(requested: Placement, n: nat): Step {
    var begun := BeginInitialize(Opened(BLANK), Opening(requested));
    AfterFonts(SOME_HOST, Timers(SOME_HOST, begun.editor, n), requested, true)
  }

  lemma OpeningBegins(requested: Placement)
    ensures BeginInitialize(Opened(BLANK), Opening(requested)) ==
      Waiting(Opened(BLANK).(scenes := map[Feed := TemplateScene(Feed), Story := TemplateScene(Story)]), Fonts(requested))
  {
    TemplateBelongs(Feed);
    TemplateBelongs(Story);
  }

  /** Scenes that the fitting leaves alone are loaded as they are stored. */
  lemma AfterFontsWaits(h: Host, e: Editor, requested: Placement)
    requires Feed in e.scenes && Story in e.scenes
    requires forall p :: p in e.scenes ==> FitScene(h, e.scenes[p], p) == Some(e.scenes[p]) && HasWorkspace(e.scenes[p])
    ensures requested in e.scenes && NormalizeScene(requested, Some(e.scenes[requested])).Some?
    ensures AfterFonts(h, e, requested, true) ==
      Waiting(e.(suppress := true), Load(requested, NormalizeScene(requested, Some(e.scenes[requested])).value, Initialized(requested)))
  {
    assert requested == Feed || requested == Story;
    StoredAgain(e, Feed);
    StoredAgain(e, Story);
    NormalizeBelongs(requested, e.scenes[requested]);
  }

  lemma StoredAgain(e: Editor, p: Placement)
    requires p in e.scenes
    ensures e.(scenes := e.scenes[p := e.scenes[p]]) == e
  {
    assert e.scenes[p := e.scenes[p]] == e.scenes;
  }

  /** What initialize has stored when the fonts are there, and the timer has fired or not. */
  function OpeningScenes(raced: bool): map<Placement, Scene> {
    map[Feed := if raced then BLANK_FEED else TemplateScene(Feed), Story := TemplateScene(Story)]
  }

  lemma NothingFits(raced: bool, p: Placement)
    ensures var scenes := OpeningScenes(raced);
      p in scenes && FitScene(SOME_HOST, scenes[p], p) == Some(scenes[p]) && HasWorkspace(scenes[p])
  {
    assert p == Feed || p == Story;
    FeedAndStoryHaveWorkspaces();
    NothingToFit(OpeningScenes(raced)[p], p);
  }

  lemma OpeningIsRaced(requested: Placement, n: nat)
    ensures var begun := BeginInitialize(Opened(BLANK), Opening(requested)).editor;
      Timers(SOME_HOST, begun, n).scenes == OpeningScenes(n > 0)
  {
    var begun := BeginInitialize(Opened(BLANK), Opening(requested)).editor;
    OpeningBegins(requested);
    BlankFeed();
    TimersSnapshot(SOME_HOST, begun, n);
    assert SceneFromCanvas(SOME_HOST, begun) == BLANK_FEED;
  }

  lemma FontsLeaveScenes(e: Editor, requested: Placement, raced: bool)
    requires e.scenes == OpeningScenes(raced)
    ensures requested in e.scenes && NormalizeScene(requested, Some(e.scenes[requested])).Some?
    ensures AfterFonts(SOME_HOST, e, requested, true) ==
      Waiting(e.(suppress := true), Load(requested, NormalizeScene(requested, Some(e.scenes[requested])).value, Initialized(requested)))
  {
    forall p | p in e.scenes
      ensures FitScene(SOME_HOST, e.scenes[p], p) == Some(e.scenes[p]) && HasWorkspace(e.scenes[p])
    {
      NothingFits(raced, p);
    }
    AfterFontsWaits(SOME_HOST, e, requested);
  }

  lemma OpeningStores(requested: Placement, n: nat)
    ensures var s := AfterOpening(requested, n);
      && s.Waiting? && s.await.Load? && s.editor.scenes == OpeningScenes(n > 0)
      && requested in s.editor.scenes && Some(s.await.scene) == NormalizeScene(requested, Some(s.editor.scenes[requested]))
  {
    OpeningIsRaced(requested, n);
    FontsLeaveScenes(Timers(SOME_HOST, BeginInitialize(Opened(BLANK), Opening(requested)).editor, n), requested, n > 0);
  }

  lemma FeedAndStoryHaveWorkspaces()
    ensures HasWorkspace(BLANK_FEED) && HasWorkspace(TemplateScene(Feed)) && HasWorkspace(TemplateScene(Story))
  {
    TemplateBelongs(Feed);
    TemplateBelongs(Story);
    BlankIsNotFramed();
  }

  /**
    One timer callback during the wait, on the canvas the bridge really starts on. Without it the
    editor opens on the template; with it, a requested feed opens on the blank canvas, and for a
    requested story the stored feed scene is the blank canvas, which is not even the feed's.
   */
  lemma TimerReplacesTemplate()
    ensures
      var calm, raced, hidden := AfterOpening(Feed, 0), AfterOpening(Feed, 1), AfterOpening(Story, 1);
      && calm.Waiting? && calm.await.Load? && calm.await.scene == TemplateScene(Feed)
      && raced.Waiting? && raced.await.Load? && Some(raced.await.scene) == NormalizeScene(Feed, Some(BLANK)) != Some(TemplateScene(Feed))
      && hidden.Waiting? && Feed in hidden.editor.scenes && hidden.editor.scenes[Feed] == BLANK_FEED && !Belongs(Feed, BLANK_FEED)
  {
    OpeningStores(Feed, 0);
    OpeningStores(Feed, 1);
    OpeningStores(Story, 1);
    TemplateBelongs(Feed);
    BlankFeed();
    assert |NormalizeScene(Feed, Some(BLANK)).value.items| != |TemplateScene(Feed).items|;
  }
}
