/**
  The editor bridge: two placement scenes, one canvas, and messages that are handled one at a
  time. A handler runs up to its await, and is resumed later; the user, and the timer that
  reports changes, can come in between.
 */
module EditorBridge {
  import opened Prelude
  import opened Placements
  import FitText

  /** A canvas object; `rest` is its text, its children and what else the bridge itself does not touch. */
  datatype Item = Item(
    id: string,
    left: real,
    top: real,
    scaleX: real,
    scaleY: real,
    width: int,
    height: int,
    selectable: bool,
    hasControls: bool,
    evented: bool,
    src: string,
    rest: FitText.Object)

  datatype Scene = Scene(width: int, height: int, version: string, items: seq<Item>)

  const FABRIC_VERSION := "5.3.0"

  // ----- normalizeScene

  function WorkspaceIndex(items: seq<Item>): (i: nat)
    ensures i <= |items|
    ensures i < |items| ==> items[i].id == "workspace"
    ensures forall j :: 0 <= j < i ==> items[j].id != "workspace"
  {
    if items == [] || items[0].id == "workspace" then 0 else 1 + WorkspaceIndex(items[1..])
  }

  predicate HasWorkspace(s: Scene) {
    WorkspaceIndex(s.items) < |s.items|
  }

  function NormalWorkspace(p: Placement, w: Item): Item {
    w.(left := 0.0, top := 0.0, scaleX := 1.0, scaleY := 1.0, width := CanvasWidth(p), height := CanvasHeight(p),
       selectable := false, hasControls := false, evented := false)
  }

  /** None when the original throws: no scene with an objects array, or no workspace object in it. */
  function NormalizeScene(p: Placement, scene: Option<Scene>): Option<Scene> {
    if scene.None? || !HasWorkspace(scene.value) then None
    else
      var s := scene.value;
      var i := WorkspaceIndex(s.items);
      Some(Scene(CanvasWidth(p), CanvasHeight(p), if s.version == "" then FABRIC_VERSION else s.version,
                 s.items[i := NormalWorkspace(p, s.items[i])]))
  }

  /** There is a version, and a workspace object that is the placement's. */
  predicate Framed(p: Placement, s: Scene) {
    && s.version != "" && HasWorkspace(s)
    && var w := s.items[WorkspaceIndex(s.items)]; w == NormalWorkspace(p, w)
  }

  /** The scene is that placement's: its size, and a workspace object of exactly that size. */
  predicate Belongs(p: Placement, s: Scene) {
    s.width == CanvasWidth(p) && s.height == CanvasHeight(p) && Framed(p, s)
  }

  lemma WorkspaceUpdate(items: seq<Item>, i: nat, w: Item)
    requires i < |items| && w.id == "workspace" && forall j :: 0 <= j < i ==> items[j].id != "workspace"
    ensures WorkspaceIndex(items[i := w]) == i
  {
    assert items[i := w][i].id == "workspace";
    assert forall j :: 0 <= j < i ==> items[i := w][j] == items[j];
  }

  /** Normalising puts a scene into its placement, and does nothing to one that is there already. */
  lemma NormalizeBelongs(p: Placement, s: Scene)
    ensures NormalizeScene(p, Some(s)).Some? <==> HasWorkspace(s)
    ensures HasWorkspace(s) ==> Belongs(p, NormalizeScene(p, Some(s)).value)
    ensures Belongs(p, s) ==> NormalizeScene(p, Some(s)) == Some(s)
  {
    if HasWorkspace(s) {
      var i := WorkspaceIndex(s.items);
      WorkspaceUpdate(s.items, i, NormalWorkspace(p, s.items[i]));
      if Belongs(p, s) {
        assert s.items[i := s.items[i]] == s.items;
      }
    }
  }

  // ----- the editor between two steps

  datatype Output =
    | Changed(placement: Placement, scene: Scene)
    | Saved(placement: Placement, scene: Scene)
    | Snapshot(feed: Scene, story: Scene)
    | Exported(placement: Placement, scene: Scene)
    | PlacementLoaded(placement: Placement)
    | SceneLoaded(placement: Placement)
    | Initialized(placement: Placement)
    | Error

  /** `canvas` is what the canvas would serialise to, before the bridge touches it up. */
  datatype Editor = Editor(
    canvas: Scene,
    scenes: map<Placement, Scene>,
    active: Placement,
    suppress: bool,
    lastNotified: Option<Scene>,
    outbox: seq<Output>)

  /** Rewriting of same-origin URLs, and the text engine of the template fitting pass. */
  datatype Host = Host(relative: string -> string, engine: FitText.Engine)

  // ----- the template fitting pass

  function Parts(items: seq<Item>): (parts: seq<FitText.Object>)
    ensures |parts| == |items|
    ensures forall i :: 0 <= i < |items| ==> parts[i] == items[i].rest
  {
    if items == [] then [] else [items[0].rest] + Parts(items[1..])
  }

  function WithParts(items: seq<Item>, parts: seq<FitText.Object>): (changed: seq<Item>)
    requires |parts| == |items|
    ensures |changed| == |items|
    ensures forall i :: 0 <= i < |items| ==> changed[i] == items[i].(rest := parts[i])
  {
    if items == [] then [] else [items[0].(rest := parts[0])] + WithParts(items[1..], parts[1..])
  }

  /** fitTemplateText; None when it throws. */
  function FitScene(h: Host, s: Scene, p: Placement): Option<Scene> {
    var parts := Parts(s.items);
    if exists i :: 0 <= i < |parts| && !FitText.Sized(parts[i]) then None
    else
      match FitText.FitObjects(h.engine, MinimumTextSize(p), parts)
      case None => None
      case Some(fitted) => Some(s.(items := WithParts(s.items, fitted)))
  }

  function Canonical(h: Host, items: seq<Item>): (c: seq<Item>)
    ensures |c| == |items|
    ensures forall i :: 0 <= i < |items| ==> c[i] == items[i].(src := h.relative(items[i].src))
  {
    if items == [] then [] else [items[0].(src := h.relative(items[0].src))] + Canonical(h, items[1..])
  }

  function SceneFromCanvas(h: Host, e: Editor): Scene {
    Scene(CanvasWidth(e.active), CanvasHeight(e.active), e.canvas.version, Canonical(h, e.canvas.items))
  }

  function SnapshotCurrent(h: Host, e: Editor): Editor {
    e.(scenes := e.scenes[e.active := SceneFromCanvas(h, e)])
  }

  function Send(e: Editor, o: Output): Editor {
    e.(outbox := e.outbox + [o])
  }

  /** The callback of the change timer. */
  function TimerFires(h: Host, e: Editor): Editor {
    if e.suppress then e
    else
      var snapped := SnapshotCurrent(h, e);
      var scene := SceneFromCanvas(h, e);
      if e.lastNotified == Some(scene) then snapped
      else Send(snapped.(lastNotified := Some(scene)), Changed(e.active, scene))
  }

  // ----- messages

  /** One placement of an initialize payload. */
  datatype Supplied = Supplied(width: int, height: int, scene: Option<Scene>)

  datatype Message =
    | Initialize(sameOrigin: bool, feed: Option<Supplied>, story: Option<Supplied>, requested: Option<Placement>)
    | LoadPlacement(placement: Option<Placement>)
    | LoadScene(placement: Option<Placement>, scene: Option<Scene>)
    | Save(placement: Option<Placement>)
    | TakeSnapshot
    | Export(placement: Option<Placement>)
    | Edit(canvas: Option<Scene>)
    | Unsupported
    | Foreign

  /** What a handler waits for. */
  datatype Await =
    | Load(placement: Placement, scene: Scene, done: Output)
    | Fonts(requested: Placement)
    | Images(done: Output)

  datatype Step = Finished(editor: Editor) | Waiting(editor: Editor, await: Await)

  function Fail(e: Editor): Step {
    Finished(Send(e, Error))
  }

  /** loadScene up to its await. */
  function BeginLoad(e: Editor, p: Placement, scene: Option<Scene>, done: Output): Step {
    var normal := NormalizeScene(p, scene);
    if normal.None? then Fail(e.(suppress := false))
    else Waiting(e.(suppress := true), Load(p, normal.value, done))
  }

  /** loadScene after its await: the canvas holds the scene, or loading threw. */
  function EndLoad(h: Host, e: Editor, p: Placement, scene: Scene, done: Output, loaded: bool): Step {
    if !loaded then Fail(e.(suppress := false))
    else
      var shown := SnapshotCurrent(h, e.(canvas := scene, active := p));
      Finished(Send(shown.(lastNotified := Some(SceneFromCanvas(h, shown)), suppress := false), done))
  }

  function RightSize(p: Placement, s: Supplied): bool {
    s.width == CanvasWidth(p) && s.height == CanvasHeight(p)
  }

  /** initialize up to the loading of fonts. */
  function BeginInitialize(e: Editor, m: Message): Step
    requires m.Initialize?
  {
    if !m.sameOrigin || m.feed.None? || m.story.None? then Fail(e)
    else if !RightSize(Feed, m.feed.value) then Fail(e)
    else
      var feed := NormalizeScene(Feed, m.feed.value.scene);
      if feed.None? then Fail(e)
      else
        var e1 := e.(scenes := e.scenes[Feed := feed.value]);
        if !RightSize(Story, m.story.value) then Fail(e1)
        else
          var story := NormalizeScene(Story, m.story.value.scene);
          if story.None? then Fail(e1)
          else Waiting(e1.(scenes := e1.scenes[Story := story.value]), Fonts(if m.requested.Some? then m.requested.value else Feed))
  }

  /** initialize after the fonts: fit both scenes, then show the requested one. */
  function AfterFonts(h: Host, e: Editor, requested: Placement, loaded: bool): Step {
    if !loaded || Feed !in e.scenes || Story !in e.scenes then Fail(e)
    else
      var feed := FitScene(h, e.scenes[Feed], Feed);
      if feed.None? then Fail(e)
      else
        var e1 := e.(scenes := e.scenes[Feed := feed.value]);
        var story := FitScene(h, e1.scenes[Story], Story);
        if story.None? then Fail(e1)
        else
          var e2 := e1.(scenes := e1.scenes[Story := story.value]);
          assert requested == Feed || requested == Story;
          BeginLoad(e2, requested, Some(e2.scenes[requested]), Initialized(requested))
  }

  function Begin(h: Host, e: Editor, m: Message): Step {
    match m
    case Initialize(_, _, _, _) => BeginInitialize(e, m)
    case LoadPlacement(placement) =>
      if placement.None? || placement.value !in e.scenes then Fail(e)
      else
        var snapped := SnapshotCurrent(h, e);
        BeginLoad(snapped, placement.value, Some(snapped.scenes[placement.value]), PlacementLoaded(placement.value))
    case LoadScene(placement, scene) =>
      if placement.None? then Fail(e)
      else
        var normal := NormalizeScene(placement.value, scene);
        if normal.None? then Fail(e)
        else
          var stored := e.(scenes := e.scenes[placement.value := normal.value]);
          if placement.value == e.active then BeginLoad(stored, placement.value, normal, SceneLoaded(placement.value))
          else Finished(Send(stored, SceneLoaded(placement.value)))
    case Save(placement) =>
      if placement.Some? && placement.value != e.active then Fail(e)
      else Finished(Send(SnapshotCurrent(h, e), Saved(e.active, SceneFromCanvas(h, e))))
    case TakeSnapshot =>
      var snapped := SnapshotCurrent(h, e);
      if Feed !in snapped.scenes || Story !in snapped.scenes then Fail(snapped)
      else Waiting(snapped, Images(Snapshot(snapped.scenes[Feed], snapped.scenes[Story])))
    case Export(placement) =>
      var p := if placement.Some? then placement.value else e.active;
      var snapped := SnapshotCurrent(h, e);
      if p !in snapped.scenes then Fail(snapped)
      else Waiting(snapped, Images(Exported(p, snapped.scenes[p])))
    case Edit(canvas) => if canvas.None? then Fail(e) else Finished(e.(canvas := canvas.value))
    case Unsupported => Fail(e)
    case Foreign => Finished(e)
  }

  function Resume(h: Host, e: Editor, a: Await, ok: bool): Step {
    match a
    case Load(p, scene, done) => EndLoad(h, e, p, scene, done, ok)
    case Fonts(requested) => AfterFonts(h, e, requested, ok)
    case Images(done) => if ok then Finished(Send(e, done)) else Fail(e)
  }

  // ----- the closure state as an object

  class Bridge {
    const host: Host
    var canvas: Scene
    var scenes: map<Placement, Scene>
    var activePlacement: Placement
    var suppressChanges: bool
    var lastNotified: Option<Scene>
    var outbox: seq<Output>

    function State(): Editor
      reads this
    {
      Editor(canvas, scenes, activePlacement, suppressChanges, lastNotified, outbox)
    }

    constructor (host: Host, canvas: Scene)
      ensures this.host == host
      ensures State() == Editor(canvas, map[], Feed, false, None, [])
    {
      this.host := host;
      this.canvas := canvas;
      scenes, activePlacement, suppressChanges, lastNotified, outbox := map[], Feed, false, None, [];
    }

    method TakeCurrent() returns (scene: Scene)
      modifies this`scenes
      ensures State() == SnapshotCurrent(host, old(State())) && scene == SceneFromCanvas(host, old(State()))
    {
      scene := SceneFromCanvas(host, State());
      scenes := scenes[activePlacement := scene];
    }

    method OnTimer()
      modifies this
      ensures State() == TimerFires(host, old(State()))
    {
      if suppressChanges {
        return;
      }
      var scene := TakeCurrent();
      if lastNotified == Some(scene) {
        return;
      }
      lastNotified := Some(scene);
      outbox := outbox + [Changed(activePlacement, scene)];
    }

    /** loadScene up to its await; None means that it threw. */
    method StartLoading(placement: Placement, scene: Option<Scene>) returns (normalized: Option<Scene>)
      modifies this`suppressChanges
      ensures normalized == NormalizeScene(placement, scene)
      ensures State() == old(State()).(suppress := normalized.Some?)
    {
      suppressChanges := true;
      normalized := NormalizeScene(placement, scene);
      if normalized.None? {
        suppressChanges := false;
      }
    }

    /** loadScene after its await. */
    method FinishLoading(placement: Placement, scene: Scene, loaded: bool, done: Output)
      modifies this
      ensures State() == EndLoad(host, old(State()), placement, scene, done, loaded).editor
    {
      if loaded {
        canvas := scene;
        activePlacement := placement;
        var shown := TakeCurrent();
        lastNotified := Some(shown);
        suppressChanges := false;
        outbox := outbox + [done];
      } else {
        suppressChanges := false;
        outbox := outbox + [Error];
      }
    }
  }
}
