/** An edit of the shown canvas while messages are being handled: when it lasts, and when it is lost. */
module EditorEdits {
  import opened Prelude
  import opened Placements
  import opened EditorBridge
  import opened EditorQueue
  import opened EditorRuns

  // ----- runs that go on from a machine

  function Onward(h: Host, m: Machine, run: seq<Event>): Option<Machine> {
    if run == [] then Some(m)
    else
      var before := Onward(h, m, run[..|run| - 1]);
      if before.Some? && Enabled(before.value, run[|run| - 1]) then Some(Apply(h, before.value, run[|run| - 1])) else None
  }

  /** Going on from where a run ended is the longer run. */
  lemma {:induction false} OnwardIsAfter(h: Host, e: Editor, before: seq<Event>, run: seq<Event>)
    requires After(h, e, before).Some?
    ensures Onward(h, After(h, e, before).value, run) == After(h, e, before + run)
  {
    if run == [] {
      assert before + run == before;
    } else {
      OnwardIsAfter(h, e, before, run[..|run| - 1]);
      assert (before + run)[..|before + run| - 1] == before + run[..|run| - 1];
    }
  }

  ghost predicate NoEditsFrom(h: Host, m: Machine, run: seq<Event>) {
    run != [] ==>
      var shorter := run[..|run| - 1];
      NoEditsFrom(h, m, shorter) && (Onward(h, m, shorter).Some? ==> NoEdit(Onward(h, m, shorter).value, run[|run| - 1]))
  }

  lemma {:induction false} SteadyOnward(h: Host, m: Machine, run: seq<Event>, p: Placement)
    requires RelativeSettles(h) && Steady(h, m) && Onward(h, m, run).Some? && NoEditsFrom(h, m, run)
    ensures Steady(h, Onward(h, m, run).value)
    ensures Document(h, Onward(h, m, run).value.editor, p) == Document(h, m.editor, p)
  {
    if run != [] {
      SteadyOnward(h, m, run[..|run| - 1], p);
      EventKeepsDocument(h, Onward(h, m, run[..|run| - 1]).value, run[|run| - 1], p);
    }
  }

  // ----- the edit

  function Edited(h: Host, m: Machine, canvas: Scene): Machine {
    Apply(h, m, Outer(Change(canvas)))
  }

  predicate LoadUnderWay(m: Machine) {
    Current(m).Some? && Current(m).value.Load?
  }

  /** How the first await to end in the run ended. */
  function FirstEnd(run: seq<Event>): Option<bool> {
    if run == [] then None
    else
      var before, ev := FirstEnd(run[..|run| - 1]), run[|run| - 1];
      if before.Some? then before else if ev.Continue? then Some(ev.ok) else None
  }

  /** Both scenes as they would be saved. */
  function Documents(h: Host, e: Editor): map<Placement, Scene>
    requires Feed in e.scenes && Story in e.scenes
  {
    map[Feed := Document(h, e, Feed), Story := Document(h, e, Story)]
  }

  ghost predicate SteadyWith(h: Host, m: Machine, documents: map<Placement, Scene>) {
    Steady(h, m) && Documents(h, m.editor) == documents
  }

  /** Between the edit and the end of the load nothing happens to the editor. */
  ghost predicate Overlaid(m0: Machine, m: Machine, canvas: Scene) {
    InTurn(m) && m.editor == m0.editor.(canvas := canvas) && Current(m) == Current(m0)
  }

  /** What the documents are after an edit, given what becomes of the load under way. */
  function Expected(h: Host, m: Machine, canvas: Scene, end: Option<bool>): map<Placement, Scene>
    requires Feed in m.editor.scenes && Story in m.editor.scenes
  {
    Documents(h, if LoadUnderWay(m) && end == Some(true) then m.editor else m.editor.(canvas := canvas))
  }

  lemma EditWithoutLoad(h: Host, m: Machine, canvas: Scene)
    requires Steady(h, m) && Framed(m.editor.active, canvas) && !LoadUnderWay(m)
    ensures SteadyWith(h, Edited(h, m, canvas), Documents(h, m.editor.(canvas := canvas)))
  {
    StaysSteady(h, m, m.editor.(canvas := canvas), m.since + [Change(canvas)]);
  }

  /** While the load is under way only its end can change anything. */
  lemma WaitingKeepsOverlaid(h: Host, m0: Machine, m: Machine, canvas: Scene, ev: Event)
    requires Steady(h, m0) && LoadUnderWay(m0) && Overlaid(m0, m, canvas)
    requires Enabled(m, ev) && NoEdit(m, ev) && !ev.Continue?
    ensures Overlaid(m0, Apply(h, m, ev), canvas)
  {
    EventKeepsTurn(h, m, ev);
    NothingBeginsMeanwhile(m, ev);
    assert m.editor.suppress;
  }

  /** A completed load leaves the editor as if the edit had not been made. */
  lemma LoadOverwrites(h: Host, e: Editor, a: Await, canvas: Scene)
    requires a.Load?
    ensures Resume(h, e.(canvas := canvas), a, true) == Resume(h, e, a, true)
  {
  }

  lemma EndOfLoadKeeps(h: Host, e: Editor, a: Await, canvas: Scene, ok: bool)
    requires RelativeSettles(h) && EditorGood(e) && Feed in e.scenes && Story in e.scenes
    requires a.Load? && LoadsOwnScene(h, e, a) && Belongs(a.placement, a.scene) && Framed(e.active, canvas)
    ensures var e' := Resume(h, e.(canvas := canvas), a, ok).editor;
      && EditorGood(e') && !e'.suppress && Feed in e'.scenes && Story in e'.scenes
      && Documents(h, e') == Documents(h, if ok then e else e.(canvas := canvas))
  {
    var t := Trail(true, {});
    ChangeTracks(e, t, canvas);
    EndLoadTracks(h, e.(canvas := canvas), t, a.placement, a.scene, a.done, ok);
    assert ResumeTrail(t, a, ok) == t;
    if ok {
      LoadOverwrites(h, e, a, canvas);
      EndLoadKeepsDocument(h, e, a.placement, a.scene, a.done, true, Feed);
      EndLoadKeepsDocument(h, e, a.placement, a.scene, a.done, true, Story);
    } else {
      FailedLoadKeeps(h, e.(canvas := canvas), a);
    }
  }

  lemma LoadFinishes(h: Host, m0: Machine, m: Machine, canvas: Scene, k: nat, ok: bool, fulfilled: bool)
    requires LoadUnderWay(m0) && Overlaid(m0, m, canvas) && Enabled(m, Continue(k, ok, fulfilled))
    ensures var m' := Apply(h, m, Continue(k, ok, fulfilled));
      && InTurn(m') && Current(m').None?
      && m'.editor == Resume(h, m0.editor.(canvas := canvas), Current(m0).value, ok).editor
  {
    EventKeepsTurn(h, m, Continue(k, ok, fulfilled));
    ContinueEndsTurn(h, m, k, ok, fulfilled);
  }

  lemma EndOfLoad(h: Host, m0: Machine, m: Machine, canvas: Scene, k: nat, ok: bool, fulfilled: bool)
    requires RelativeSettles(h) && Steady(h, m0) && LoadUnderWay(m0) && Overlaid(m0, m, canvas)
    requires Framed(m0.editor.active, canvas) && Enabled(m, Continue(k, ok, fulfilled))
    ensures SteadyWith(h, Apply(h, m, Continue(k, ok, fulfilled)), Expected(h, m0, canvas, Some(ok)))
  {
    LoadFinishes(h, m0, m, canvas, k, ok, fulfilled);
    EndOfLoadKeeps(h, m0.editor, Current(m0).value, canvas, ok);
    IdleIsSteady(h, Apply(h, m, Continue(k, ok, fulfilled)));
  }

  lemma IdleIsSteady(h: Host, m: Machine)
    requires InTurn(m) && Current(m).None? && EditorGood(m.editor) && !m.editor.suppress
    requires Feed in m.editor.scenes && Story in m.editor.scenes
    ensures Steady(h, m)
  {
  }

  lemma FailedLoadKeeps(h: Host, e: Editor, a: Await)
    requires a.Load? && Feed in e.scenes && Story in e.scenes
    ensures var e' := Resume(h, e, a, false).editor;
      e'.scenes == e.scenes && Documents(h, e') == Documents(h, e)
  {
  }

  lemma EditedIsOverlaid(h: Host, m: Machine, canvas: Scene)
    requires InTurn(m)
    ensures Overlaid(m, Edited(h, m, canvas), canvas)
  {
    assert Current(Edited(h, m, canvas)) == Current(m);
  }

  lemma {:induction false} EditOverLoad(h: Host, m: Machine, canvas: Scene, run: seq<Event>)
    requires RelativeSettles(h) && Steady(h, m) && LoadUnderWay(m) && Framed(m.editor.active, canvas)
    requires Onward(h, Edited(h, m, canvas), run).Some? && NoEditsFrom(h, Edited(h, m, canvas), run)
    ensures var m' := Onward(h, Edited(h, m, canvas), run).value;
      if FirstEnd(run).None? then Overlaid(m, m', canvas) else SteadyWith(h, m', Expected(h, m, canvas, FirstEnd(run)))
  {
    if run == [] {
      EditedIsOverlaid(h, m, canvas);
    } else {
      var shorter, ev := run[..|run| - 1], run[|run| - 1];
      EditOverLoad(h, m, canvas, shorter);
      var before := Onward(h, Edited(h, m, canvas), shorter).value;
      if FirstEnd(shorter).Some? {
        EventKeepsDocument(h, before, ev, Feed);
        EventKeepsDocument(h, before, ev, Story);
      } else if ev.Continue? {
        EndOfLoad(h, m, before, canvas, ev.turn, ev.ok, ev.fulfilled);
      } else {
        WaitingKeepsOverlaid(h, m, before, canvas, ev);
      }
    }
  }

  /**
    An edit of the shown canvas, at any moment of a run, that leaves the canvas its workspace: over
    all later switching, saving and exporting, with any of it failing, the edited scene stays as
    edited, exactly unless a load was under way at the edit and completes. Then it is back to what
    it was. The scene of the other placement stays in either case.
   */
  lemma EditSurvivesExactly(h: Host, m: Machine, canvas: Scene, run: seq<Event>)
    requires RelativeSettles(h) && Steady(h, m) && Framed(m.editor.active, canvas)
    requires Onward(h, Edited(h, m, canvas), run).Some? && NoEditsFrom(h, Edited(h, m, canvas), run)
    ensures var a, e := m.editor.active, Onward(h, Edited(h, m, canvas), run).value.editor;
      var lost := LoadUnderWay(m) && FirstEnd(run) == Some(true);
      var was, edited := Document(h, m.editor, a), Document(h, Edited(h, m, canvas).editor, a);
      && Feed in e.scenes && Story in e.scenes
      && Document(h, e, a) == (if lost then was else edited)
      && (edited != was ==> (Document(h, e, a) == edited <==> !lost))
      && Document(h, e, Other(a)) == Document(h, m.editor, Other(a))
  {
    var m' := Onward(h, Edited(h, m, canvas), run).value;
    if LoadUnderWay(m) {
      EditOverLoad(h, m, canvas, run);
      ExpectedAt(h, m, canvas, FirstEnd(run));
    } else {
      EditWithoutLoad(h, m, canvas);
      SteadyOnward(h, Edited(h, m, canvas), run, Feed);
      SteadyOnward(h, Edited(h, m, canvas), run, Story);
      ExpectedAt(h, m, canvas, FirstEnd(run));
    }
    assert Documents(h, m'.editor) == Expected(h, m, canvas, FirstEnd(run));
    AtPlacements(h, m'.editor, m.editor.active);
  }

  lemma AtPlacements(h: Host, e: Editor, a: Placement)
    requires Feed in e.scenes && Story in e.scenes
    ensures a in Documents(h, e) && Documents(h, e)[a] == Document(h, e, a)
    ensures Other(a) in Documents(h, e) && Documents(h, e)[Other(a)] == Document(h, e, Other(a))
  {
    assert a == Feed || a == Story;
  }

  lemma ExpectedAt(h: Host, m: Machine, canvas: Scene, end: Option<bool>)
    requires Feed in m.editor.scenes && Story in m.editor.scenes
    ensures var a := m.editor.active;
      var expected := Expected(h, m, canvas, end);
      && a in expected && Other(a) in expected
      && expected[a] == Document(h, if LoadUnderWay(m) && end == Some(true) then m.editor else Edited(h, m, canvas).editor, a)
      && expected[Other(a)] == Document(h, m.editor, Other(a))
  {
    AtPlacements(h, m.editor, m.editor.active);
    AtPlacements(h, m.editor.(canvas := canvas), m.editor.active);
    assert Edited(h, m, canvas).editor == m.editor.(canvas := canvas);
    assert m.editor.active != Other(m.editor.active);
  }

  // ----- a run in which an edit is lost

  /** The editor as it is opened on the feed template. */
  function Shown(): Editor {
    Editor(TemplateScene(Feed), map[Feed := TemplateScene(Feed), Story := TemplateScene(Story)], Feed, false,
           Some(TemplateScene(Feed)), [Initialized(Feed)])
  }

  function OpeningTurn(state: TurnState): Turn {
    Turn(Opening(Feed), 0, state)
  }

  function OpeningMachine(e: Editor, state: TurnState, ends: seq<End>): Machine {
    Machine(e, [OpeningTurn(state)], 1, [Episode([], ends)], [])
  }

  lemma Next(h: Host, e: Editor, run: seq<Event>, m: Machine, ev: Event, next: Machine)
    requires After(h, e, run) == Some(m) && Enabled(m, ev) && Apply(h, m, ev) == next
    ensures After(h, e, run + [ev]) == Some(next)
  {
    assert (run + [ev])[..|run|] == run;
  }

  /** The only turn goes on to `step`. */
  lemma OpeningContinues(h: Host, e: Editor, state: TurnState, ends: seq<End>, step: Step)
    requires state.Running? && Resume(h, e, state.await, true) == step
    ensures Enabled(OpeningMachine(e, state, ends), Continue(0, true, true))
    ensures Apply(h, OpeningMachine(e, state, ends), Continue(0, true, true))
      == OpeningMachine(step.editor, StateOf(step, true), ends + [End([], true)])
  {
  }

  lemma OpeningReacts(h: Host, e: Editor, step: Step)
    requires Begin(h, e, Opening(Feed)) == step
    ensures var arrived := Machine(e, [OpeningTurn(Queued)], 1, [], []);
      && Enabled(arrived, React(0, true))
      && Apply(h, arrived, React(0, true)) == OpeningMachine(step.editor, StateOf(step, true), [])
  {
  }

  lemma TemplateIsCanonical(p: Placement)
    ensures Canonical(SOME_HOST, TemplateScene(p).items) == TemplateScene(p).items
    ensures CanonicalScene(SOME_HOST, p, TemplateScene(p)) == TemplateScene(p)
  {
  }

  lemma FontsAreLoading() returns (run: seq<Event>)
    ensures After(SOME_HOST, Opened(BLANK), run)
      == Some(OpeningMachine(Opened(BLANK).(scenes := Shown().scenes), Running(Fonts(Feed)), []))
  {
    var e, h := Opened(BLANK), SOME_HOST;
    OneEvent(h, e, Arrive(Opening(Feed)));
    run := [Arrive(Opening(Feed))];
    OpeningBegins(Feed);
    OpeningReacts(h, e, Waiting(e.(scenes := Shown().scenes), Fonts(Feed)));
    var arrived := Machine(e, [OpeningTurn(Queued)], 1, [], []);
    assert Apply(h, Start(e), Arrive(Opening(Feed))) == arrived;
    Next(h, e, run, arrived, React(0, true), Apply(h, arrived, React(0, true)));
    run := run + [React(0, true)];
  }

  /** The editor while the feed template is being loaded. */
  function Loading(): Editor {
    Opened(BLANK).(scenes := Shown().scenes, suppress := true)
  }

  const FEED_LOAD := Load(Feed, TemplateScene(Feed), Initialized(Feed))

  lemma FontsEnd()
    ensures Resume(SOME_HOST, Opened(BLANK).(scenes := Shown().scenes), Fonts(Feed), true) == Waiting(Loading(), FEED_LOAD)
  {
    var e := Opened(BLANK).(scenes := Shown().scenes);
    TemplateBelongs(Feed);
    FontsLeaveScenes(e, Feed, false);
  }

  lemma LoadEnds()
    ensures Resume(SOME_HOST, Loading(), FEED_LOAD, true) == Finished(Shown())
  {
    TemplateIsCanonical(Feed);
    assert Shown().scenes[Feed := TemplateScene(Feed)] == Shown().scenes;
  }

  lemma TemplateIsLoading() returns (run: seq<Event>)
    ensures After(SOME_HOST, Opened(BLANK), run) == Some(OpeningMachine(Loading(), Running(FEED_LOAD), [End([], true)]))
  {
    run := FontsAreLoading();
    var e, state := Opened(BLANK).(scenes := Shown().scenes), Running(Fonts(Feed));
    FontsEnd();
    OpeningContinues(SOME_HOST, e, state, [], Waiting(Loading(), FEED_LOAD));
    assert [] + [End([], true)] == [End([], true)];
    Next(SOME_HOST, Opened(BLANK), run, OpeningMachine(e, state, []), Continue(0, true, true),
         OpeningMachine(Loading(), Running(FEED_LOAD), [End([], true)]));
    run := run + [Continue(0, true, true)];
  }

  lemma TemplateIsShown() returns (run: seq<Event>)
    ensures After(SOME_HOST, Opened(BLANK), run) == Some(OpeningMachine(Shown(), Settled(true), [End([], true), End([], true)]))
  {
    run := TemplateIsLoading();
    LoadEnds();
    OpeningContinues(SOME_HOST, Loading(), Running(FEED_LOAD), [End([], true)], Finished(Shown()));
    assert [End([], true)] + [End([], true)] == [End([], true), End([], true)];
    Next(SOME_HOST, Opened(BLANK), run, OpeningMachine(Loading(), Running(FEED_LOAD), [End([], true)]), Continue(0, true, true),
         OpeningMachine(Shown(), Settled(true), [End([], true), End([], true)]));
    run := run + [Continue(0, true, true)];
  }

  /** The story is about to be shown. */
  function Switching(): Machine {
    Machine(
      Shown().(suppress := true),
      [OpeningTurn(Settled(true)),
       Turn(LoadPlacement(Some(Story)), 1, Running(Load(Story, TemplateScene(Story), PlacementLoaded(Story))))],
      2,
      [Episode([], [End([], true), End([], true)]), Episode([], [])],
      [])
  }

  lemma SwitchBegins()
    ensures Begin(SOME_HOST, Shown(), LoadPlacement(Some(Story)))
      == Waiting(Shown().(suppress := true), Load(Story, TemplateScene(Story), PlacementLoaded(Story)))
  {
    TemplateIsCanonical(Feed);
    TemplateBelongs(Story);
    assert Shown().scenes[Feed := TemplateScene(Feed)] == Shown().scenes;
  }

  lemma StoryIsLoading() returns (run: seq<Event>)
    ensures After(SOME_HOST, Opened(BLANK), run) == Some(Switching())
  {
    run := TemplateIsShown();
    var m := OpeningMachine(Shown(), Settled(true), [End([], true), End([], true)]);
    var arrived := m.(turns := m.turns + [Turn(LoadPlacement(Some(Story)), 1, Queued)], operation := 2);
    Next(SOME_HOST, Opened(BLANK), run, m, Arrive(LoadPlacement(Some(Story))), arrived);
    run := run + [Arrive(LoadPlacement(Some(Story)))];
    SwitchBegins();
    Next(SOME_HOST, Opened(BLANK), run, arrived, React(1, true), Switching());
    run := run + [React(1, true)];
  }

  lemma SwitchingIsSteady()
    ensures Steady(SOME_HOST, Switching()) && LoadUnderWay(Switching()) && RelativeSettles(SOME_HOST)
  {
    TemplateIsCanonical(Feed);
    TemplateIsCanonical(Story);
    TemplateBelongs(Feed);
    TemplateBelongs(Story);
  }

  /** The template with a note on it. */
  function Noted(): Scene {
    TemplateScene(Feed).(items := TemplateScene(Feed).items + [Plain("note", 2)])
  }

  lemma NotedIsFramed()
    ensures Framed(Feed, Noted()) && |Noted().items| != |TemplateScene(Feed).items|
  {
    assert Noted().items[0].id == "workspace";
  }

  /**
    A run in which the user edits the feed while the story is being loaded: the edit is on the
    canvas, and when the load completes neither the canvas nor a stored scene has it.
   */
  lemma EditIsLost() returns (before: seq<Event>)
    ensures After(SOME_HOST, Opened(BLANK), before) == Some(Switching())
    ensures var run := before + [Outer(Change(Noted())), Continue(1, true, true)];
      var m := After(SOME_HOST, Opened(BLANK), run);
      && m.Some? && Feed in m.value.editor.scenes
      && Document(SOME_HOST, Edited(SOME_HOST, Switching(), Noted()).editor, Feed) != TemplateScene(Feed)
      && Document(SOME_HOST, m.value.editor, Feed) == TemplateScene(Feed)
  {
    before := StoryIsLoading();
    LostInOneStep();
    TwoStepsOn(SOME_HOST, Opened(BLANK), before, Switching(), Outer(Change(Noted())), Continue(1, true, true));
  }

  lemma TwoStepsOn(h: Host, e: Editor, before: seq<Event>, m: Machine, first: Event, second: Event)
    requires After(h, e, before) == Some(m) && Enabled(m, first)
    ensures After(h, e, before + [first, second]) == Onward(h, Apply(h, m, first), [second])
  {
    OnwardIsAfter(h, e, before, [first]);
    OneStepOn(h, m, first);
    OnwardIsAfter(h, e, before + [first], [second]);
    assert before + [first] + [second] == before + [first, second];
  }

  lemma LostInOneStep()
    ensures var m := Onward(SOME_HOST, Edited(SOME_HOST, Switching(), Noted()), [Continue(1, true, true)]);
      && m.Some? && Feed in m.value.editor.scenes
      && Document(SOME_HOST, Edited(SOME_HOST, Switching(), Noted()).editor, Feed) != TemplateScene(Feed)
      && Document(SOME_HOST, m.value.editor, Feed) == TemplateScene(Feed)
  {
    var h, m, last := SOME_HOST, Switching(), Continue(1, true, true);
    SwitchingIsSteady();
    NotedIsFramed();
    NotedDiffers();
    OneStepOn(h, Edited(h, m, Noted()), last);
    EditSurvivesExactly(h, m, Noted(), [last]);
    TemplateIsCanonical(Feed);
  }

  lemma NotedDiffers()
    ensures Document(SOME_HOST, Edited(SOME_HOST, Switching(), Noted()).editor, Feed) != TemplateScene(Feed)
  {
    NotedIsFramed();
    assert Edited(SOME_HOST, Switching(), Noted()).editor.canvas == Noted();
  }

  lemma OneStepOn(h: Host, m: Machine, ev: Event)
    requires Enabled(m, ev)
    ensures Onward(h, m, [ev]) == Some(Apply(h, m, ev))
    ensures NoEdit(m, ev) ==> NoEditsFrom(h, m, [ev])
    ensures ev.Continue? ==> FirstEnd([ev]) == Some(ev.ok)
  {
    assert [ev][..0] == [];
  }
}
