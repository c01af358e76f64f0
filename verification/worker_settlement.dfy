/** How a job is settled: as its race was decided, which is read off the run and not off the worker. */
module WorkerSettlement {
  import opened Prelude
  import opened JobQueue
  import opened LeaseHeartbeat
  import opened WorkerProtocol
  import opened WorkerSafety

  // ----- what decided a race, read off the run

  function First(earlier: Option<Winner>, later: Winner): Option<Winner> {
    if earlier.Some? then earlier else Some(later)
  }

  /** A new answer starts afresh; after that the first of handler, lease loss and timeout decides. */
  function Decided(earlier: Option<Winner>, step: Step, lost: bool): Option<Winner> {
    match step
    case CallAnswered => None
    case HandlerSettles(result) => First(earlier, if result.Threw? then HandlerFailed(result.message) else HandlerDone)
    case ExecutionTimeout => First(earlier, TimedOut)
    case BeatAnswered => if lost then First(earlier, LeaseWasLost) else earlier
    case BeatFailed => if lost then First(earlier, LeaseWasLost) else earlier
    case _ => earlier
  }

  function Decision(c: Config, start: Time, run: seq<Event>, w: WorkerId): Option<Winner>
    requires After(c, start, run).Some?
  {
    if run == [] then None
    else
      var ev, earlier := run[|run| - 1], Decision(c, start, run[..|run| - 1], w);
      if ev.Local? && ev.worker == w
      then Decided(earlier, ev.step, After(c, start, run).value.workers[w].hb.failure.Some?)
      else earlier
  }

  // ----- what every reachable state keeps

  /** What a decision has to say to the database when the lease was not lost. */
  predicate FailsWith(d: Option<Winner>, error: string) {
    d == Some(HandlerFailed(error)) || (d == Some(TimedOut) && error == "Job execution timed out.")
  }

  /** The handler is as the decision found it. */
  predicate HandlerAgrees(wk: Worker, d: Option<Winner>) {
    && (d == Some(HandlerDone) ==> wk.handler == Succeeded)
    && (d.Some? && d.value.HandlerFailed? ==> wk.handler == Threw(d.value.message))
    && (d == Some(LeaseWasLost) ==> wk.hb.failure.Some?)
    && (d == Some(TimedOut) ==> wk.timedOut)
  }

  predicate DecisionKept(wk: Worker, d: Option<Winner>) {
    && (Held(wk) || Settling(wk) ==> HandlerAgrees(wk, d))
    && match wk.phase
       case Racing(winner) => winner == d
       case Stopping(outcome) =>
         && d.Some?
         && (outcome.None? <==> d == Some(HandlerDone))
         && (outcome.Some? ==> FailsWith(d, outcome.value) || d == Some(LeaseWasLost))
       case LeaseDrain => d.Some?
       case TimeoutDrain(error) => FailsWith(d, error)
       case Completing => d == Some(HandlerDone)
       case Failing(error) => FailsWith(d, error)
       case _ => true
  }

  lemma StepKeepsDecision(c: Config, wk: Worker, step: Step, now: Time, d: Option<Winner>)
    requires CanStep(wk, step) && PhaseOk(wk) && DecisionKept(wk, d)
    ensures var wk' := StepWorker(c, wk, step, now); DecisionKept(wk', Decided(d, step, wk'.hb.failure.Some?))
  {
  }

  lemma WaitingKeepsDecision(wk: Worker, wk': Worker, d: Option<Winner>)
    requires AtMostAnswered(wk, wk') && DecisionKept(wk, d)
    ensures DecisionKept(wk', d)
  {
  }

  /** A worker and the decision about it after one more event. */
  lemma EventKeepsDecision(c: Config, s: System, ev: Event, w: WorkerId, d: Option<Winner>)
    requires Inv(s) && Enabled(c, s, ev) && w in Apply(c, s, ev).workers
    requires w in s.workers ==> DecisionKept(s.workers[w], d)
    ensures var wk' := Apply(c, s, ev).workers[w];
      DecisionKept(wk', if ev.Local? && ev.worker == w then Decided(d, ev.step, wk'.hb.failure.Some?) else d)
  {
    if ev.Local? {
      assert Apply(c, s, ev).workers == s.workers[ev.worker := StepWorker(c, s.workers[ev.worker], ev.step, s.now)];
      if ev.worker == w {
        assert WorkerOk(s, w, s.workers[w]);
        StepKeepsDecision(c, s.workers[w], ev.step, s.now, d);
      }
    } else {
      EventWaits(c, s, ev);
      if w in s.workers {
        WaitingKeepsDecision(s.workers[w], Apply(c, s, ev).workers[w], d);
      }
    }
  }

  lemma {:induction false} RunKeepsDecision(c: Config, start: Time, run: seq<Event>, w: WorkerId)
    requires After(c, start, run).Some? && w in After(c, start, run).value.workers
    ensures DecisionKept(After(c, start, run).value.workers[w], Decision(c, start, run, w))
  {
    if run != [] {
      var shorter, ev := run[..|run| - 1], run[|run| - 1];
      var s := After(c, start, shorter).value;
      RunKeepsInv(c, start, shorter);
      if w in s.workers {
        RunKeepsDecision(c, start, shorter, w);
      }
      EventKeepsDecision(c, s, ev, w, Decision(c, start, shorter, w));
    }
  }

  // ----- results

  /** The worker has put this settlement to the database and has no answer yet. */
  predicate Asks(s: System, w: WorkerId, request: Request) {
    w in s.workers && s.workers[w].call == Sent(request)
  }

  /**
    On every run: of the two settlements a worker asks for completion exactly when its handler's
    success decided the race, and for failure only with the message its handler threw, when that
    decided it, or with the timeout's, when the timeout did.
   */
  lemma SettlementsFollowTheRace(c: Config, start: Time, run: seq<Event>, w: WorkerId, request: Request)
    requires After(c, start, run).Some? && Asks(After(c, start, run).value, w, request)
    requires request.CompleteRequest? || request.FailRequest?
    ensures var wk, d := After(c, start, run).value.workers[w], Decision(c, start, run, w);
      && wk.claim == Some(request.claim) && !wk.handler.Running? && wk.hb.failure.None?
      && (request.CompleteRequest? <==> d == Some(HandlerDone))
      && (request.CompleteRequest? ==> wk.handler == Succeeded)
      && (request.FailRequest? ==>
            || (d == Some(HandlerFailed(request.error)) && wk.handler == Threw(request.error))
            || (d == Some(TimedOut) && request.error == "Job execution timed out."))
  {
    RunKeepsInv(c, start, run);
    RunKeepsDecision(c, start, run, w);
    assert WorkerOk(After(c, start, run).value, w, After(c, start, run).value.workers[w]);
  }

  /** What a worker does with a job it gives up holding. */
  predicate EndsAs(wk: Worker, step: Step, d: Option<Winner>, wk': Worker) {
    || (step.Crash? && wk'.phase.Crashed?)
    || (wk'.phase.RestartRequired? && wk.handler.Running?)
    || (wk'.phase.Idle? && wk.hb.failure.Some? && !wk.handler.Running?)
    || (&& wk.hb.failure.None? && !wk.handler.Running? && wk.claim.Some?
        && ((d == Some(HandlerDone) && wk'.call == Sent(CompleteRequest(wk.claim.value)))
            || (d.Some? && d.value.HandlerFailed? && wk'.call == Sent(FailRequest(wk.claim.value, d.value.message)))
            || (d == Some(TimedOut) && wk'.call == Sent(FailRequest(wk.claim.value, "Job execution timed out.")))))
  }

  lemma StepEndsAs(c: Config, wk: Worker, step: Step, now: Time, d: Option<Winner>)
    requires CanStep(wk, step) && PhaseOk(wk) && DecisionKept(wk, d)
    requires Held(wk) && !Held(StepWorker(c, wk, step, now))
    ensures EndsAs(wk, step, d, StepWorker(c, wk, step, now))
  {
  }

  /**
    On every run a worker ends a job in one of four ways: it crashes; it stops for good because the
    handler would not stop; it drops a job whose lease was lost, once the handler has stopped; or it
    asks for the settlement that the race decided.
   */
  lemma JobsEndAsDecided(c: Config, start: Time, run: seq<Event>, w: WorkerId, step: Step)
    requires After(c, start, run).Some? && Enabled(c, After(c, start, run).value, Local(w, step))
    requires var s := After(c, start, run).value;
      Held(s.workers[w]) && !Held(Apply(c, s, Local(w, step)).workers[w])
    ensures var s := After(c, start, run).value;
      EndsAs(s.workers[w], step, Decision(c, start, run, w), Apply(c, s, Local(w, step)).workers[w])
  {
    var s := After(c, start, run).value;
    RunKeepsInv(c, start, run);
    RunKeepsDecision(c, start, run, w);
    assert WorkerOk(s, w, s.workers[w]);
    assert Apply(c, s, Local(w, step)).workers[w] == StepWorker(c, s.workers[w], step, s.now);
    StepEndsAs(c, s.workers[w], step, s.now, Decision(c, start, run, w));
  }

  /** How a worker goes from one job to the next, and when it stops for good. */
  predicate GoesOn(wk: Worker, step: Step, wk': Worker)
    requires CanStep(wk, step)
  {
    && (wk'.call == Sent(ClaimRequest) && wk.call != wk'.call ==>
          !wk.shutdown && wk.phase.Idle? && !wk.handler.Running? && wk'.phase.Claiming?)
    && (Held(wk') && !Held(wk) <==>
          step.CallAnswered? && wk.phase.Claiming? && wk.call.reply.found.Some? && wk.call.reply.found.value.kind != "")
    && (Held(wk') && !Held(wk) ==>
          && wk'.claim == wk.call.reply.found && wk'.phase == Racing(None) && wk'.handler.Running?
          && !wk'.timedOut && wk'.beats == 0 && wk'.beat.NoCall?)
    && ((step.CallAnswered? || step.CallFailed?) && !Held(wk') ==> wk'.phase.Idle? && wk'.claim == wk.claim)
    && (!Live(wk') <==> step.Crash? || step.LoopExit? || step.DrainExpired?)
  }

  /**
    A worker asks for a job only when it has none and was not told to shut down, and starts exactly
    the job it is then answered with, unless the answer is malformed. A call that fails ends nothing
    but the job: only a crash, a shutdown or a handler that would not stop ends the worker.
   */
  lemma JobsStart(c: Config, s: System, w: WorkerId, step: Step)
    requires Reachable(c, s) && Enabled(c, s, Local(w, step))
    ensures GoesOn(s.workers[w], step, Apply(c, s, Local(w, step)).workers[w])
  {
    ReachableInv(c, s);
    assert WorkerOk(s, w, s.workers[w]);
    assert Apply(c, s, Local(w, step)).workers[w] == StepWorker(c, s.workers[w], step, s.now);
    StepStarts(c, s.workers[w], step, s.now);
  }

  lemma StepStarts(c: Config, wk: Worker, step: Step, now: Time)
    requires CanStep(wk, step) && PhaseOk(wk)
    ensures GoesOn(wk, step, StepWorker(c, wk, step, now))
  {
  }

  /** The heartbeat state of a worker is that of the interval and its callbacks, one step at a time. */
  lemma HeartbeatFollows(c: Config, s: System, w: WorkerId, step: Step)
    requires Reachable(c, s) && Enabled(c, s, Local(w, step))
    ensures var wk, wk' := s.workers[w], Apply(c, s, Local(w, step)).workers[w];
      match step
      case TimerFires => wk'.hb == Tick(wk.hb, s.now) && (wk'.beat.Sent? && wk.beat.NoCall? <==> Sends(wk.hb, s.now))
      case BeatAnswered =>
        wk'.beat.NoCall? && wk'.hb == if wk.beat.reply == Flag(true) then Resolved(c, wk.hb, s.now) else Rejected(c, wk.hb, LeaseLost, s.now)
      case BeatFailed => wk'.beat.NoCall? && wk'.hb == Rejected(c, wk.hb, TransportFailed, s.now)
      case RaceContinues => wk'.hb == Stop(wk.hb)
      case CallAnswered => wk'.hb == if Held(wk') then Start(c, s.now) else wk.hb
      case _ => wk'.hb == wk.hb
  {
    ReachableInv(c, s);
    assert WorkerOk(s, w, s.workers[w]);
    assert Apply(c, s, Local(w, step)).workers[w] == StepWorker(c, s.workers[w], step, s.now);
    StepHeartbeat(c, s.workers[w], step, s.now);
  }

  lemma StepHeartbeat(c: Config, wk: Worker, step: Step, now: Time)
    requires CanStep(wk, step) && PhaseOk(wk)
    ensures var wk' := StepWorker(c, wk, step, now);
      match step
      case TimerFires => wk'.hb == Tick(wk.hb, now) && (wk'.beat.Sent? && wk.beat.NoCall? <==> Sends(wk.hb, now))
      case BeatAnswered =>
        wk'.beat.NoCall? && wk'.hb == if wk.beat.reply == Flag(true) then Resolved(c, wk.hb, now) else Rejected(c, wk.hb, LeaseLost, now)
      case BeatFailed => wk'.beat.NoCall? && wk'.hb == Rejected(c, wk.hb, TransportFailed, now)
      case RaceContinues => wk'.hb == Stop(wk.hb)
      case CallAnswered => wk'.hb == if Held(wk') then Start(c, now) else wk.hb
      case _ => wk'.hb == wk.hb
  {
  }

  /** What a live worker can do next when nobody answers it. */
  function NextStep(wk: Worker): Step {
    match wk.phase
    case Idle => if wk.shutdown then LoopExit else Poll
    case Racing(winner) => if winner.None? then HandlerSettles(Succeeded) else RaceContinues
    case Stopping(_) => if wk.hb.inFlight then BeatFailed else HeartbeatStopped
    case LeaseDrain => if wk.handler.Running? then DrainExpired else DrainDone
    case TimeoutDrain(_) => if wk.handler.Running? then DrainExpired else DrainDone
    case _ => CallFailed
  }

  /** No live worker is ever left waiting for something that cannot happen. */
  lemma NeverStuck(c: Config, s: System, w: WorkerId)
    requires Reachable(c, s) && w in s.workers && Live(s.workers[w])
    ensures Enabled(c, s, Local(w, NextStep(s.workers[w])))
  {
    ReachableInv(c, s);
    assert WorkerOk(s, w, s.workers[w]);
  }
}
