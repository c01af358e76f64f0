/** What the editor tells its host: every scene in an answer is its placement's own, as it was when the handler began. */
module EditorAnswers {
  import opened Prelude
  import opened Placements
  import opened EditorBridge
  import opened EditorQueue
  import opened EditorRuns
  import FitText

  // ----- a placement's own scene

  function PixelHeight(p: Placement): int {
    match p
    case Feed => 1350
    case Story => 1920
  }

  /** What the canvas holds, serialised for a placement. */
  predicate Serialised(h: Host, canvas: Scene, p: Placement, s: Scene) {
    && s.width == 1080 && s.height == PixelHeight(p) && s.version == canvas.version
    && |s.items| == |canvas.items|
    && forall i :: 0 <= i < |s.items| ==> s.items[i] == canvas.items[i].(src := h.relative(canvas.items[i].src))
  }

  /** The scene is the placement's own: on the canvas when the placement is shown, and otherwise stored. */
  predicate IsOwn(h: Host, e: Editor, p: Placement, s: Scene) {
    if p == e.active then Serialised(h, e.canvas, p, s) else p in e.scenes && s == e.scenes[p]
  }

  lemma SerialisedOnce(h: Host, canvas: Scene, p: Placement, a: Scene, b: Scene)
    requires Serialised(h, canvas, p, a) && Serialised(h, canvas, p, b)
    ensures a == b
  {
    assert a.items == b.items;
  }

  /** After a snapshot everything stored is its placement's own. */
  lemma SnapshotIsOwn(h: Host, e: Editor, p: Placement)
    ensures IsOwn(h, e, e.active, SceneFromCanvas(h, e))
    ensures p in SnapshotCurrent(h, e).scenes <==> p == e.active || p in e.scenes
    ensures p in SnapshotCurrent(h, e).scenes ==> IsOwn(h, e, p, SnapshotCurrent(h, e).scenes[p])
  {
  }

  // ----- what an answer tells

  /** The event starts the handling of this message. */
  predicate Starts(m: Machine, ev: Event, message: Message) {
    ev.React? && ev.turn < |m.turns| && m.turns[ev.turn].message == message
  }

  /** What the output says was so when this event came. */
  predicate Told(h: Host, m: Machine, ev: Event, o: Output) {
    var e := m.editor;
    match o
    case Snapshot(feed, story) => Starts(m, ev, TakeSnapshot) && IsOwn(h, e, Feed, feed) && IsOwn(h, e, Story, story)
    case Saved(p, scene) =>
      (Starts(m, ev, Save(None)) || Starts(m, ev, Save(Some(p)))) && p == e.active && IsOwn(h, e, p, scene)
    case Exported(p, scene) =>
      (Starts(m, ev, Export(Some(p))) || (Starts(m, ev, Export(None)) && p == e.active)) && IsOwn(h, e, p, scene)
    case Changed(p, scene) =>
      ev == Outer(Tick) && !e.suppress && p == e.active && IsOwn(h, e, p, scene) && e.lastNotified != Some(scene)
    case PlacementLoaded(p) => Starts(m, ev, LoadPlacement(Some(p))) && p in e.scenes
    case SceneLoaded(p) =>
      ev.React? && ev.turn < |m.turns| && m.turns[ev.turn].message.LoadScene? && m.turns[ev.turn].message.placement == Some(p)
    case Initialized(p) =>
      && ev.React? && ev.turn < |m.turns| && m.turns[ev.turn].message.Initialize?
      && (m.turns[ev.turn].message.requested == Some(p) || (m.turns[ev.turn].message.requested.None? && p == Feed))
    case Error => true
  }

  /** The answer that a handler under way will send if all goes well. */
  function DoneOf(a: Await): Output {
    match a
    case Load(_, _, done) => done
    case Images(done) => done
    case Fonts(requested) => Initialized(requested)
  }

  lemma ReactTells(h: Host, m: Machine, k: nat, fulfilled: bool)
    requires Enabled(m, React(k, fulfilled))
    ensures var ev, s := React(k, fulfilled), Begin(h, m.editor, m.turns[k].message);
      && (forall o :: o in s.editor.outbox ==> o in m.editor.outbox || Told(h, m, ev, o))
      && (s.Waiting? ==> Told(h, m, ev, DoneOf(s.await)))
  {
    var message := m.turns[k].message;
    if message.Initialize? {
      InitializeTells(h, m, k, fulfilled);
    } else if message.Export? {
      ExportTells(h, m, k, fulfilled);
    } else if message.Save? {
      SaveTells(h, m, k, fulfilled);
    } else if message.TakeSnapshot? {
      SnapshotTells(h, m, k, fulfilled);
    } else if message.LoadPlacement? {
      LoadPlacementTells(h, m, k, fulfilled);
    } else {
      OtherTells(h, m, k, fulfilled);
    }
  }

  lemma SaveTells(h: Host, m: Machine, k: nat, fulfilled: bool)
    requires Enabled(m, React(k, fulfilled)) && m.turns[k].message.Save?
    ensures var ev, s := React(k, fulfilled), Begin(h, m.editor, m.turns[k].message);
      s.Finished? && forall o :: o in s.editor.outbox ==> o in m.editor.outbox || Told(h, m, ev, o)
  {
    var p, placement := m.editor.active, m.turns[k].message.placement;
    SnapshotIsOwn(h, m.editor, p);
    assert m.turns[k].message == Save(placement);
    if placement.None? || placement.value == p {
      assert placement == None || placement == Some(p);
      assert Told(h, m, React(k, fulfilled), Saved(p, SceneFromCanvas(h, m.editor)));
    }
  }

  lemma SnapshotTells(h: Host, m: Machine, k: nat, fulfilled: bool)
    requires Enabled(m, React(k, fulfilled)) && m.turns[k].message.TakeSnapshot?
    ensures var ev, s := React(k, fulfilled), Begin(h, m.editor, m.turns[k].message);
      && (forall o :: o in s.editor.outbox ==> o in m.editor.outbox || Told(h, m, ev, o))
      && (s.Waiting? ==> Told(h, m, ev, DoneOf(s.await)))
  {
    SnapshotIsOwn(h, m.editor, Feed);
    SnapshotIsOwn(h, m.editor, Story);
    assert m.turns[k].message == TakeSnapshot;
  }

  lemma LoadPlacementTells(h: Host, m: Machine, k: nat, fulfilled: bool)
    requires Enabled(m, React(k, fulfilled)) && m.turns[k].message.LoadPlacement?
    ensures var ev, s := React(k, fulfilled), Begin(h, m.editor, m.turns[k].message);
      && (forall o :: o in s.editor.outbox ==> o in m.editor.outbox || Told(h, m, ev, o))
      && (s.Waiting? ==> Told(h, m, ev, DoneOf(s.await)))
  {
    assert m.turns[k].message == LoadPlacement(m.turns[k].message.placement);
  }

  lemma OtherTells(h: Host, m: Machine, k: nat, fulfilled: bool)
    requires Enabled(m, React(k, fulfilled))
    requires var message := m.turns[k].message;
      message.LoadScene? || message.Edit? || message.Unsupported? || message.Foreign?
    ensures var ev, s := React(k, fulfilled), Begin(h, m.editor, m.turns[k].message);
      && (forall o :: o in s.editor.outbox ==> o in m.editor.outbox || Told(h, m, ev, o))
      && (s.Waiting? ==> Told(h, m, ev, DoneOf(s.await)))
  {
  }

  lemma InitializeTells(h: Host, m: Machine, k: nat, fulfilled: bool)
    requires Enabled(m, React(k, fulfilled)) && m.turns[k].message.Initialize?
    ensures var ev, s := React(k, fulfilled), BeginInitialize(m.editor, m.turns[k].message);
      && (forall o :: o in s.editor.outbox ==> o in m.editor.outbox || Told(h, m, ev, o))
      && (s.Waiting? ==> Told(h, m, ev, DoneOf(s.await)))
  {
  }

  lemma ExportTells(h: Host, m: Machine, k: nat, fulfilled: bool)
    requires Enabled(m, React(k, fulfilled)) && m.turns[k].message.Export?
    ensures var ev, s := React(k, fulfilled), Begin(h, m.editor, m.turns[k].message);
      && (forall o :: o in s.editor.outbox ==> o in m.editor.outbox || Told(h, m, ev, o))
      && (s.Waiting? ==> Told(h, m, ev, DoneOf(s.await)))
  {
    var message := m.turns[k].message;
    var p := if message.placement.Some? then message.placement.value else m.editor.active;
    SnapshotIsOwn(h, m.editor, p);
    assert message == Export(message.placement);
  }

  /** A handler that goes on sends what it was going to, or an error, and nothing else. */
  lemma ResumeTells(h: Host, e: Editor, a: Await, ok: bool)
    ensures var s := Resume(h, e, a, ok);
      && (forall o :: o in s.editor.outbox ==> o in e.outbox || o == Error || o == DoneOf(a))
      && (s.Waiting? ==> DoneOf(s.await) == DoneOf(a))
  {
  }

  lemma TickTells(h: Host, m: Machine)
    ensures forall o :: o in TimerFires(h, m.editor).outbox ==> o in m.editor.outbox || Told(h, m, Outer(Tick), o)
  {
    SnapshotIsOwn(h, m.editor, m.editor.active);
  }

  // ----- on every run

  ghost predicate ToldAt(h: Host, e: Editor, run: seq<Event>, k: nat, o: Output) {
    && k < |run| && After(h, e, run[..k]).Some?
    && Told(h, After(h, e, run[..k]).value, run[k], o)
  }

  ghost predicate ToldIn(h: Host, e: Editor, run: seq<Event>, o: Output) {
    exists k: nat :: ToldAt(h, e, run, k, o)
  }

  lemma ToldBefore(h: Host, e: Editor, run: seq<Event>, o: Output)
    requires run != [] && ToldIn(h, e, run[..|run| - 1], o)
    ensures ToldIn(h, e, run, o)
  {
    var shorter := run[..|run| - 1];
    var k: nat :| ToldAt(h, e, shorter, k, o);
    assert shorter[..k] == run[..k];
    assert ToldAt(h, e, run, k, o);
  }

  lemma ToldNow(h: Host, e: Editor, run: seq<Event>, o: Output)
    requires run != [] && After(h, e, run[..|run| - 1]).Some?
    requires Told(h, After(h, e, run[..|run| - 1]).value, run[|run| - 1], o)
    ensures ToldIn(h, e, run, o)
  {
    assert ToldAt(h, e, run, |run| - 1, o);
  }

  ghost predicate AllTold(h: Host, e: Editor, run: seq<Event>, m: Machine) {
    && (forall o :: o in m.editor.outbox ==> ToldIn(h, e, run, o))
    && (Current(m).Some? ==> ToldIn(h, e, run, DoneOf(Current(m).value)))
  }

  /** What was told, or is told by this event, was told in the whole run. */
  lemma TellsOn(h: Host, e: Editor, run: seq<Event>, m: Machine, m': Machine)
    requires run != [] && After(h, e, run[..|run| - 1]) == Some(m) && AllTold(h, e, run[..|run| - 1], m)
    requires forall o :: o in m'.editor.outbox ==>
      || o in m.editor.outbox || Told(h, m, run[|run| - 1], o)
      || (Current(m).Some? && o == DoneOf(Current(m).value))
    requires Current(m').Some? ==>
      || Told(h, m, run[|run| - 1], DoneOf(Current(m').value))
      || (Current(m).Some? && DoneOf(Current(m').value) == DoneOf(Current(m).value))
    ensures AllTold(h, e, run, m')
  {
    forall o | o in m.editor.outbox || (Current(m).Some? && o == DoneOf(Current(m).value))
      ensures ToldIn(h, e, run, o)
    {
      ToldBefore(h, e, run, o);
    }
    forall o | Told(h, m, run[|run| - 1], o)
      ensures ToldIn(h, e, run, o)
    {
      ToldNow(h, e, run, o);
    }
  }

  /** What React leaves of the queue. */
  lemma ReactBegins(h: Host, m: Machine, k: nat, fulfilled: bool)
    requires InTurn(m) && Enabled(m, React(k, fulfilled))
    ensures Current(m).None?
    ensures var step, m' := Begin(h, m.editor, m.turns[k].message), Apply(h, m, React(k, fulfilled));
      m'.editor == step.editor && Current(m') == if step.Waiting? then Some(step.await) else None
  {
    EventKeepsTurn(h, m, React(k, fulfilled));
  }

  lemma EventTells(h: Host, e: Editor, run: seq<Event>, m: Machine)
    requires run != [] && After(h, e, run[..|run| - 1]) == Some(m) && Enabled(m, run[|run| - 1])
    requires InTurn(m) && AllTold(h, e, run[..|run| - 1], m)
    ensures AllTold(h, e, run, Apply(h, m, run[|run| - 1]))
  {
    var ev := run[|run| - 1];
    var m' := Apply(h, m, ev);
    match ev {
      case Arrive(_) => assert Current(m') == Current(m);
      case React(k, fulfilled) =>
        ReactBegins(h, m, k, fulfilled);
        ReactTells(h, m, k, fulfilled);
      case Continue(k, ok, fulfilled) =>
        ContinueEndsTurn(h, m, k, ok, fulfilled);
        ResumeTells(h, m.editor, m.turns[k].state.await, ok);
      case Outer(what) =>
        assert Current(m') == Current(m);
        TickTells(h, m);
    }
    TellsOn(h, e, run, m, m');
  }

  /**
    On every run each answer was true when the handler of its message began, and each change when the
    timer fired: a snapshot holds the feed's and the story's own scenes, and what was saved, exported or
    changed is the own scene of the placement it is said to be of.
   */
  lemma {:induction false} AnswersAreTrue(h: Host, e: Editor, run: seq<Event>)
    requires e.outbox == [] && After(h, e, run).Some?
    ensures AllTold(h, e, run, After(h, e, run).value)
  {
    if run != [] {
      AnswersAreTrue(h, e, run[..|run| - 1]);
      RunKeepsTurn(h, e, run[..|run| - 1]);
      EventTells(h, e, run, After(h, e, run[..|run| - 1]).value);
    }
  }

  /** The scene goes out as that placement's. */
  predicate Carries(o: Output, p: Placement, s: Scene) {
    match o
    case Snapshot(feed, story) => s == if p == Feed then feed else story
    case Saved(q, scene) => p == q && s == scene
    case Exported(q, scene) => p == q && s == scene
    case Changed(q, scene) => p == q && s == scene
    case _ => false
  }

  lemma OwnBelongs(h: Host, e: Editor, t: Trail, p: Placement, s: Scene)
    requires Tracks(e, t) && IsOwn(h, e, p, s)
    ensures Belongs(p, s) <==> if p == e.active then t.framed else p !in t.raw
  {
    SnapshotBelongs(h, e);
    if p == e.active {
      SnapshotIsOwn(h, e, p);
      SerialisedOnce(h, e.canvas, p, s, SceneFromCanvas(h, e));
    }
  }

  /** The canvas had the workspace, if the placement was shown, or else the stored scene was not raw. */
  predicate InPlace(e: Editor, t: Trail, p: Placement) {
    if p == e.active then t.framed else p !in t.raw
  }

  /**
    So every scene that goes out belongs to its placement exactly when, at that moment, the canvas had the
    workspace, if the placement was shown, or else the stored scene was no snapshot of a canvas without it.
   */
  lemma AnswersBelongExactly(h: Host, canvas: Scene, run: seq<Event>, o: Output, p: Placement, s: Scene) returns (k: nat)
    requires After(h, Opened(canvas), run).Some? && o in After(h, Opened(canvas), run).value.editor.outbox && Carries(o, p, s)
    ensures ToldAt(h, Opened(canvas), run, k, o)
    ensures Belongs(p, s) <==> InPlace(After(h, Opened(canvas), run[..k]).value.editor, RunTrail(h, Opened(canvas), run[..k]), p)
  {
    AnswersAreTrue(h, Opened(canvas), run);
    k :| ToldAt(h, Opened(canvas), run, k, o);
    RunTracks(h, canvas, run[..k]);
    OwnBelongs(h, After(h, Opened(canvas), run[..k]).value.editor, RunTrail(h, Opened(canvas), run[..k]), p, s);
  }

  // ----- one answer for each message

  /** Answers, as distinct from the changes that the timer reports. */
  function AnswerCount(outbox: seq<Output>): nat {
    if outbox == [] then 0
    else AnswerCount(outbox[..|outbox| - 1]) + if outbox[|outbox| - 1].Changed? then 0 else 1
  }

  /** The message gets an answer: it is not foreign, nor an edit that can be made. */
  predicate Expects(message: Message) {
    !message.Foreign? && !(message.Edit? && message.canvas.Some?)
  }

  function AnsweredTurns(turns: seq<Turn>): nat {
    if turns == [] then 0
    else AnsweredTurns(turns[..|turns| - 1]) + if turns[|turns| - 1].state.Settled? && Expects(turns[|turns| - 1].message) then 1 else 0
  }

  lemma OneMoreAnswer(outbox: seq<Output>, o: Output)
    ensures AnswerCount(outbox + [o]) == AnswerCount(outbox) + if o.Changed? then 0 else 1
  {
    assert (outbox + [o])[..|outbox|] == outbox;
  }

  lemma {:induction false} TurnChanges(turns: seq<Turn>, k: nat, state: TurnState)
    requires k < |turns| && !turns[k].state.Settled?
    ensures AnsweredTurns(turns[k := turns[k].(state := state)])
      == AnsweredTurns(turns) + if state.Settled? && Expects(turns[k].message) then 1 else 0
  {
    var after, n := turns[k := turns[k].(state := state)], |turns| - 1;
    if k == n {
      assert after[..n] == turns[..n];
    } else {
      assert after[..n] == turns[..n][k := turns[..n][k].(state := state)];
      TurnChanges(turns[..n], k, state);
    }
  }

  /** A handler that ends has sent one answer, if its message expects one; one that waits has sent none. */
  lemma BeginCounts(h: Host, e: Editor, message: Message)
    ensures var s := Begin(h, e, message);
      && (s.Waiting? ==> s.editor.outbox == e.outbox && Expects(message))
      && (s.Finished? && !Expects(message) ==> s.editor.outbox == e.outbox)
      && (s.Finished? && Expects(message) ==> exists o: Output :: !o.Changed? && s.editor.outbox == e.outbox + [o])
  {
    var s := Begin(h, e, message);
    if s.Finished? && Expects(message) {
      var o := s.editor.outbox[|s.editor.outbox| - 1];
      assert s.editor.outbox == e.outbox + [o];
    }
  }

  lemma ResumeCounts(h: Host, e: Editor, a: Await, ok: bool)
    requires !DoneOf(a).Changed?
    ensures var s := Resume(h, e, a, ok);
      && (s.Waiting? ==> s.editor.outbox == e.outbox)
      && (s.Finished? ==> exists o: Output :: !o.Changed? && s.editor.outbox == e.outbox + [o])
  {
    var s := Resume(h, e, a, ok);
    if s.Finished? {
      var o := if ok then DoneOf(a) else Error;
      assert s.editor.outbox == e.outbox + [o] || s.editor.outbox == e.outbox + [Error];
    }
  }

  /** The awaits of the queue are those of messages that expect an answer, and promise one. */
  predicate Promising(m: Machine) {
    forall k :: 0 <= k < |m.turns| && m.turns[k].state.Running? ==>
      Expects(m.turns[k].message) && !DoneOf(m.turns[k].state.await).Changed?
  }

  ghost predicate Counted(m: Machine, initial: nat) {
    AnswerCount(m.editor.outbox) == initial + AnsweredTurns(m.turns) && Promising(m)
  }

  lemma BeginPromises(h: Host, e: Editor, message: Message)
    ensures Begin(h, e, message).Waiting? ==> !DoneOf(Begin(h, e, message).await).Changed?
  {
  }

  /** What one part of a handler sends. */
  ghost predicate SendsRightly(before: seq<Output>, message: Message, step: Step) {
    if step.Waiting? then step.editor.outbox == before && Expects(message) && !DoneOf(step.await).Changed?
    else if !Expects(message) then step.editor.outbox == before
    else exists o: Output :: !o.Changed? && step.editor.outbox == before + [o]
  }

  lemma SentCount(before: seq<Output>, message: Message, step: Step)
    requires SendsRightly(before, message, step)
    ensures AnswerCount(step.editor.outbox) == AnswerCount(before) + if step.Finished? && Expects(message) then 1 else 0
  {
    if step.Finished? && Expects(message) {
      var o: Output :| !o.Changed? && step.editor.outbox == before + [o];
      OneMoreAnswer(before, o);
    }
  }

  lemma TakeCounts(m: Machine, k: nat, step: Step, fulfilled: bool, initial: nat)
    requires Counted(m, initial) && k < |m.turns| && !m.turns[k].state.Settled?
    requires SendsRightly(m.editor.outbox, m.turns[k].message, step)
    ensures Counted(Take(m, k, step, fulfilled), initial)
  {
    TurnChanges(m.turns, k, StateOf(step, fulfilled));
    SentCount(m.editor.outbox, m.turns[k].message, step);
  }

  lemma EventCounts(h: Host, m: Machine, ev: Event, initial: nat)
    requires Counted(m, initial) && Enabled(m, ev)
    ensures Counted(Apply(h, m, ev), initial)
  {
    match ev
    case Arrive(message) =>
      assert (m.turns + [Turn(message, m.operation, Queued)])[..|m.turns|] == m.turns;
    case React(k, fulfilled) =>
      BeginCounts(h, m.editor, m.turns[k].message);
      BeginPromises(h, m.editor, m.turns[k].message);
      TakeCounts(m, k, Begin(h, m.editor, m.turns[k].message), fulfilled, initial);
    case Continue(k, ok, fulfilled) =>
      ResumeCounts(h, m.editor, m.turns[k].state.await, ok);
      ResumeTells(h, m.editor, m.turns[k].state.await, ok);
      TakeCounts(m, k, Resume(h, m.editor, m.turns[k].state.await, ok), fulfilled, initial);
    case Outer(what) =>
      if what.Tick? && !m.editor.suppress {
        OneMoreAnswer(m.editor.outbox, Changed(m.editor.active, SceneFromCanvas(h, m.editor)));
      }
  }

  /** On every run as many answers went out as messages that expect one have been handled. */
  lemma {:induction false} OneAnswerEach(h: Host, e: Editor, run: seq<Event>)
    requires After(h, e, run).Some?
    ensures Counted(After(h, e, run).value, AnswerCount(e.outbox))
  {
    if run != [] {
      OneAnswerEach(h, e, run[..|run| - 1]);
      EventCounts(h, After(h, e, run[..|run| - 1]).value, run[|run| - 1], AnswerCount(e.outbox));
    }
  }
}
