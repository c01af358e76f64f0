/** The editor bridge's message queue: a chain of promises, and what it computes. */
module EditorQueue {
  import opened Prelude
  import opened Placements
  import opened EditorBridge

  datatype TurnState = Queued | Running(await: Await) | Settled(fulfilled: bool)

  /**
    One call of the listener. It chains the handling of its message to the promise in `operation`
    and stores the promise it gets. Promise 0 is Promise.resolve(); promise k + 1 is that of turn k.
   */
  datatype Turn = Turn(message: Message, after: nat, state: TurnState)

  /** What comes in from outside the queue: the change timer, and the user. */
  datatype Outside = Tick | Change(canvas: Scene)

  /** How an await of a handler ended, and what came in while it lasted. */
  datatype End = End(during: seq<Outside>, ok: bool)

  /** What came in before a handler began, and how each of its awaits ended. */
  datatype Episode = Episode(before: seq<Outside>, ends: seq<End>)

  datatype Machine = Machine(
    editor: Editor,
    turns: seq<Turn>,
    operation: nat,
    // history: one episode for each handler begun, and what came in since the last step
    history: seq<Episode>,
    since: seq<Outside>)

  /** A handler's promise settles when the handler ends; it may be rejected even then. */
  datatype Event =
    | Arrive(message: Message)
    | React(turn: nat, fulfilled: bool)
    | Continue(turn: nat, ok: bool, fulfilled: bool)
    | Outer(what: Outside)

  predicate IsSettled(m: Machine, promise: nat) {
    promise == 0 || (promise <= |m.turns| && m.turns[promise - 1].state.Settled?)
  }

  /** then(f, f): a handler begins once the promise it is chained to has settled either way. */
  predicate Enabled(m: Machine, ev: Event) {
    match ev
    case Arrive(_) => true
    case React(k, _) => k < |m.turns| && m.turns[k].state.Queued? && IsSettled(m, m.turns[k].after)
    case Continue(k, _, _) => k < |m.turns| && m.turns[k].state.Running?
    case Outer(_) => true
  }

  function Meet(h: Host, e: Editor, o: Outside): Editor {
    match o
    case Tick => TimerFires(h, e)
    case Change(canvas) => e.(canvas := canvas)
  }

  function StateOf(step: Step, fulfilled: bool): TurnState {
    if step.Waiting? then Running(step.await) else Settled(fulfilled)
  }

  function Take(m: Machine, k: nat, step: Step, fulfilled: bool): Machine
    requires k < |m.turns|
  {
    m.(editor := step.editor, turns := m.turns[k := m.turns[k].(state := StateOf(step, fulfilled))], since := [])
  }

  function WithEnd(history: seq<Episode>, k: nat, end: End): seq<Episode> {
    if k < |history| then history[k := history[k].(ends := history[k].ends + [end])] else history
  }

  function Apply(h: Host, m: Machine, ev: Event): Machine
    requires Enabled(m, ev)
  {
    match ev
    case Arrive(message) => m.(turns := m.turns + [Turn(message, m.operation, Queued)], operation := |m.turns| + 1)
    case React(k, fulfilled) =>
      Take(m, k, Begin(h, m.editor, m.turns[k].message), fulfilled).(history := m.history + [Episode(m.since, [])])
    case Continue(k, ok, fulfilled) =>
      Take(m, k, Resume(h, m.editor, m.turns[k].state.await, ok), fulfilled).(history := WithEnd(m.history, k, End(m.since, ok)))
    case Outer(what) => m.(editor := Meet(h, m.editor, what), since := m.since + [what])
  }

  function Start(e: Editor): Machine {
    Machine(e, [], 0, [], [])
  }

  function After(h: Host, e: Editor, run: seq<Event>): Option<Machine> {
    if run == [] then Some(Start(e))
    else
      var before := After(h, e, run[..|run| - 1]);
      if before.Some? && Enabled(before.value, run[|run| - 1]) then Some(Apply(h, before.value, run[|run| - 1])) else None
  }

  // ----- one message at a time, in order of arrival

  /** Handlers begun are those of the first turns, and all of them but perhaps the last have ended. */
  ghost predicate InTurn(m: Machine) {
    && m.operation == |m.turns| && |m.history| <= |m.turns|
    && (forall k :: 0 <= k < |m.turns| ==> m.turns[k].after == k)
    && (forall k :: 0 <= k < |m.history| - 1 ==> m.turns[k].state.Settled?)
    && (m.history != [] ==> !m.turns[|m.history| - 1].state.Queued?)
    && (forall k :: |m.history| <= k < |m.turns| ==> m.turns[k].state.Queued?)
  }

  lemma EventKeepsTurn(h: Host, m: Machine, ev: Event)
    requires InTurn(m) && Enabled(m, ev)
    ensures InTurn(Apply(h, m, ev))
    ensures ev.React? ==> ev.turn == |m.history|
    ensures ev.Continue? ==> ev.turn == |m.history| - 1
  {
  }

  /** What Continue leaves of the queue. */
  lemma ContinueEndsTurn(h: Host, m: Machine, k: nat, ok: bool, fulfilled: bool)
    requires InTurn(m) && Enabled(m, Continue(k, ok, fulfilled))
    ensures k == |m.history| - 1 && Current(m) == Some(m.turns[k].state.await)
    ensures var step, m' := Resume(h, m.editor, m.turns[k].state.await, ok), Apply(h, m, Continue(k, ok, fulfilled));
      m'.editor == step.editor && Current(m') == if step.Waiting? then Some(step.await) else None
  {
  }

  lemma NothingBeginsMeanwhile(m: Machine, ev: Event)
    requires InTurn(m) && Current(m).Some? && Enabled(m, ev)
    ensures !ev.React?
  {
  }

  lemma {:induction false} RunKeepsTurn(h: Host, e: Editor, run: seq<Event>)
    ensures After(h, e, run).Some? ==> InTurn(After(h, e, run).value)
  {
    if run != [] {
      RunKeepsTurn(h, e, run[..|run| - 1]);
      if After(h, e, run).Some? {
        EventKeepsTurn(h, After(h, e, run[..|run| - 1]).value, run[|run| - 1]);
      }
    }
  }

  /**
    On every run of the chain: a handler has begun only if those of all earlier messages have
    ended, so that no two ever interleave; and while none is running, the handler of the first
    message not yet begun, and no other, can begin, however the earlier ones ended.
   */
  lemma MessagesTakeTurns(h: Host, e: Editor, run: seq<Event>)
    requires After(h, e, run).Some?
    ensures var turns := After(h, e, run).value.turns;
      forall j, k :: 0 <= j < k < |turns| && !turns[k].state.Queued? ==> turns[j].state.Settled?
    ensures var m := After(h, e, run).value;
      forall k: nat, fulfilled :: Enabled(m, React(k, fulfilled)) <==>
        k < |m.turns| && m.turns[k].state.Queued? && forall j :: 0 <= j < k ==> m.turns[j].state.Settled?
  {
    RunKeepsTurn(h, e, run);
    var m := After(h, e, run).value;
    forall k: nat, fulfilled
      ensures Enabled(m, React(k, fulfilled)) <==>
        k < |m.turns| && m.turns[k].state.Queued? && forall j :: 0 <= j < k ==> m.turns[j].state.Settled?
    {
      if k < |m.turns| && m.turns[k].state.Queued? && k > 0 {
        assert m.turns[k].after == k;
        assert m.turns[k - 1].state.Settled? ==> k <= |m.history|;
      }
    }
  }

  // ----- the queue computes what handling the messages one by one computes

  function Met(h: Host, e: Editor, outs: seq<Outside>): Editor {
    if outs == [] then e else Meet(h, Met(h, e, outs[..|outs| - 1]), outs[|outs| - 1])
  }

  /** One message carried on through as many awaits as have ended. */
  function Carry(h: Host, step: Step, ends: seq<End>): Step {
    if ends == [] then step
    else
      var before, end := Carry(h, step, ends[..|ends| - 1]), ends[|ends| - 1];
      if before.Finished? then before else Resume(h, Met(h, before.editor, end.during), before.await, end.ok)
  }

  /** Handling the messages one after the other, each to its end before the next is looked at. */
  function InSequence(h: Host, e: Editor, messages: seq<Message>, history: seq<Episode>): Step
    requires |messages| == |history|
  {
    if messages == [] then Finished(e)
    else
      var n := |messages| - 1;
      var before := InSequence(h, e, messages[..n], history[..n]).editor;
      Carry(h, Begin(h, Met(h, before, history[n].before), messages[n]), history[n].ends)
  }

  function Messages(turns: seq<Turn>): (messages: seq<Message>)
    ensures |messages| == |turns|
    ensures forall i :: 0 <= i < |turns| ==> messages[i] == turns[i].message
  {
    if turns == [] then [] else Messages(turns[..|turns| - 1]) + [turns[|turns| - 1].message]
  }

  /** What the handler under way waits for, if there is one. */
  function Current(m: Machine): Option<Await> {
    if m.history != [] && |m.history| <= |m.turns| && m.turns[|m.history| - 1].state.Running?
    then Some(m.turns[|m.history| - 1].state.await) else None
  }

  function StepReached(h: Host, e: Editor, m: Machine): Step
    requires |m.history| <= |m.turns|
  {
    InSequence(h, e, Messages(m.turns)[..|m.history|], m.history)
  }

  ghost predicate Sequential(h: Host, e: Editor, m: Machine) {
    && InTurn(m)
    && var s := StepReached(h, e, m);
       m.editor == Met(h, s.editor, m.since) && Current(m) == if s.Waiting? then Some(s.await) else None
  }

  /**
    On every run, the editor is where handling the messages one by one leaves it, with the timer
    and the user coming in at the recorded points between and during the messages.
   */
  lemma {:induction false} QueueIsSequential(h: Host, e: Editor, run: seq<Event>)
    requires After(h, e, run).Some?
    ensures Sequential(h, e, After(h, e, run).value)
  {
    if run == [] {
      assert Sequential(h, e, Start(e));
    } else {
      QueueIsSequential(h, e, run[..|run| - 1]);
      EventIsSequential(h, e, After(h, e, run[..|run| - 1]).value, run[|run| - 1]);
    }
  }

  lemma ReactIsSequential(h: Host, e: Editor, m: Machine, k: nat, fulfilled: bool)
    requires Sequential(h, e, m) && Enabled(m, React(k, fulfilled))
    ensures Sequential(h, e, Apply(h, m, React(k, fulfilled)))
  {
    EventKeepsTurn(h, m, React(k, fulfilled));
    var m' := Apply(h, m, React(k, fulfilled));
    var all := Messages(m'.turns)[..k + 1];
    assert all[..k] == Messages(m.turns)[..k];
    assert m'.history[..k] == m.history;
    assert all[k] == m.turns[k].message && m'.history[k] == Episode(m.since, []);
  }

  lemma ContinueIsSequential(h: Host, e: Editor, m: Machine, k: nat, ok: bool, fulfilled: bool)
    requires Sequential(h, e, m) && Enabled(m, Continue(k, ok, fulfilled))
    ensures Sequential(h, e, Apply(h, m, Continue(k, ok, fulfilled)))
  {
    EventKeepsTurn(h, m, Continue(k, ok, fulfilled));
    var m' := Apply(h, m, Continue(k, ok, fulfilled));
    assert Messages(m'.turns)[..k + 1] == Messages(m.turns)[..k + 1];
    var all := Messages(m.turns)[..k + 1];
    assert m'.history[..k] == m.history[..k];
    var end := End(m.since, ok);
    assert m'.history[k].ends == m.history[k].ends + [end];
    assert m'.history[k].ends[..|m.history[k].ends|] == m.history[k].ends;
    var begun := Begin(h, Met(h, InSequence(h, e, all[..k], m.history[..k]).editor, m.history[k].before), all[k]);
    assert StepReached(h, e, m) == Carry(h, begun, m.history[k].ends);
    assert StepReached(h, e, m') == Carry(h, begun, m.history[k].ends + [end]);
  }

  lemma ArriveIsSequential(h: Host, e: Editor, m: Machine, message: Message)
    requires Sequential(h, e, m)
    ensures Sequential(h, e, Apply(h, m, Arrive(message)))
  {
    var m' := Apply(h, m, Arrive(message));
    EventKeepsTurn(h, m, Arrive(message));
    assert Messages(m'.turns)[..|m.history|] == Messages(m.turns)[..|m.history|];
    assert StepReached(h, e, m') == StepReached(h, e, m);
  }

  lemma MetOne(h: Host, e: Editor, outs: seq<Outside>, o: Outside)
    ensures Met(h, e, outs + [o]) == Meet(h, Met(h, e, outs), o)
  {
    assert (outs + [o])[..|outs|] == outs;
  }

  lemma OuterIsSequential(h: Host, e: Editor, m: Machine, what: Outside)
    requires Sequential(h, e, m)
    ensures Sequential(h, e, Apply(h, m, Outer(what)))
  {
    EventKeepsTurn(h, m, Outer(what));
    var m' := Apply(h, m, Outer(what));
    assert StepReached(h, e, m') == StepReached(h, e, m);
    MetOne(h, StepReached(h, e, m).editor, m.since, what);
  }

  lemma EventIsSequential(h: Host, e: Editor, m: Machine, ev: Event)
    requires Sequential(h, e, m) && Enabled(m, ev)
    ensures Sequential(h, e, Apply(h, m, ev))
  {
    match ev
    case Arrive(message) => ArriveIsSequential(h, e, m, message);
    case React(k, fulfilled) => ReactIsSequential(h, e, m, k, fulfilled);
    case Continue(k, ok, fulfilled) => ContinueIsSequential(h, e, m, k, ok, fulfilled);
    case Outer(what) => OuterIsSequential(h, e, m, what);
  }
}
