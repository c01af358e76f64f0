/**
  Heartbeats on the network. A worker waits for one at a time; but one it gave up can still be on
  its way, and here is exactly when a second one joins it.
 */
module WorkerBeats {
  import opened Prelude
  import opened JobQueue
  import opened LeaseHeartbeat
  import opened WorkerProtocol
  import opened WorkerSafety
  import opened WorkerWire

  /** A heartbeat of the claim that is on its way to the database. */
  predicate OnItsWay(s: System, claim: Claim, r: Request) {
    && r.HeartbeatRequest? && r.claim == claim
    && (r in s.stray || exists w :: w in s.workers && s.workers[w].beat == Sent(r))
  }

  ghost predicate TwoBeats(s: System, claim: Claim) {
    exists a, b :: OnItsWay(s, claim, a) && OnItsWay(s, claim, b) && a != b
  }

  // ----- what is known of the heartbeats under a claim

  /** Serials count up; a heartbeat given up and not tolerated is the last one of its claim. */
  predicate StrayBeatOk(wk: Worker, tolerated: set<Request>, r: Request) {
    r.HeartbeatRequest? && wk.claim == Some(r.claim) ==>
      && r.serial < wk.beats
      && (!wk.beat.NoCall? ==> r.serial + 1 < wk.beats)
      && (r in tolerated || (r.serial + 1 == wk.beats && (wk.hb.failure.Some? || !Live(wk))))
  }

  predicate AwaitedBeatOk(wk: Worker) {
    wk.beat.Sent? && wk.claim.Some? ==>
      wk.beats > 0 && wk.beat.request == HeartbeatRequest(wk.claim.value, wk.beats - 1)
  }

  predicate BeatsInv(s: System) {
    forall w :: w in s.workers ==>
      && AwaitedBeatOk(s.workers[w])
      && forall r :: r in s.stray ==> StrayBeatOk(s.workers[w], s.tolerated, r)
  }

  /** One worker step, for the heartbeats it leaves on the network and those already there. */
  lemma StepKeepsStray(c: Config, wk: Worker, step: Step, now: Time, tolerated: set<Request>, r: Request)
    requires CanStep(wk, step) && PhaseOk(wk) && AwaitedBeatOk(wk)
    requires StrayBeatOk(wk, tolerated, r)
    requires r.HeartbeatRequest? && Promised(wk).Some? ==> r.claim != Promised(wk).value
    ensures var wk' := StepWorker(c, wk, step, now);
      StrayBeatOk(wk', tolerated + Tolerates(wk, wk', step), r)
  {
  }

  lemma StepLeavesStray(c: Config, wk: Worker, step: Step, now: Time, r: Request)
    requires CanStep(wk, step) && PhaseOk(wk) && AwaitedBeatOk(wk) && r in Abandons(wk, step)
    requires wk.call.Sent? ==> !wk.call.request.HeartbeatRequest?
    ensures var wk' := StepWorker(c, wk, step, now);
      StrayBeatOk(wk', Tolerates(wk, wk', step), r)
  {
  }

  lemma StepKeepsAwaited(c: Config, wk: Worker, step: Step, now: Time)
    requires CanStep(wk, step) && PhaseOk(wk) && AwaitedBeatOk(wk)
    ensures AwaitedBeatOk(StepWorker(c, wk, step, now))
  {
  }

  lemma MoreTolerated(wk: Worker, few: set<Request>, many: set<Request>, r: Request)
    requires few <= many && StrayBeatOk(wk, few, r)
    ensures StrayBeatOk(wk, many, r)
  {
  }

  lemma CallIsNoBeat(s: System, w: WorkerId)
    requires Inv(s) && w in s.workers
    ensures s.workers[w].call.Sent? ==> !s.workers[w].call.request.HeartbeatRequest?
  {
    assert WorkerOk(s, w, s.workers[w]);
  }

  lemma LocalKeepsBeats(c: Config, s: System, w: WorkerId, step: Step)
    requires Inv(s) && UseInv(s) && BeatsInv(s) && Enabled(c, s, Local(w, step))
    ensures BeatsInv(ApplyLocal(c, s, w, step))
  {
    var s' := ApplyLocal(c, s, w, step);
    var wk := s.workers[w];
    var wk' := StepWorker(c, wk, step, s.now);
    assert WorkerOk(s, w, wk);
    CallIsNoBeat(s, w);
    StepKeepsAwaited(c, wk, step, s.now);
    assert s'.stray == s.stray + Abandons(wk, step) && s'.tolerated == s.tolerated + Tolerates(wk, wk', step);
    forall v, r | v in s'.workers && r in s'.stray
      ensures StrayBeatOk(s'.workers[v], s'.tolerated, r)
    {
      if v == w && r in Abandons(wk, step) {
        StepLeavesStray(c, wk, step, s.now, r);
        MoreTolerated(wk', Tolerates(wk, wk', step), s'.tolerated, r);
      } else if v == w {
        if Promised(wk).Some? {
          assert Unused(s, Promised(wk).value.token);
        }
        StepKeepsStray(c, wk, step, s.now, s.tolerated, r);
      } else if r in s.stray {
        MoreTolerated(s.workers[v], s.tolerated, s'.tolerated, r);
      } else {
        OthersBeat(s, w, v, r, step);
      }
    }
  }

  /** What one worker gives up is no heartbeat of another worker's claim. */
  lemma OthersBeat(s: System, w: WorkerId, v: WorkerId, r: Request, step: Step)
    requires Inv(s) && UseInv(s) && v != w && v in s.workers && w in s.workers && r in Abandons(s.workers[w], step)
    ensures r.HeartbeatRequest? ==> s.workers[v].claim != Some(r.claim)
  {
    assert WorkerOk(s, w, s.workers[w]);
    CallIsNoBeat(s, w);
    AbandonedBeats(s.workers[w], step);
    if r.HeartbeatRequest? && s.workers[v].claim.Some? {
      assert ClaimOk(s, v, s.workers[v].claim.value) && ClaimOk(s, w, s.workers[w].claim.value);
    }
  }

  lemma AnsweredStaysOk(wk: Worker, wk': Worker, tolerated: set<Request>, r: Request)
    requires AtMostAnswered(wk, wk') && AwaitedBeatOk(wk) && StrayBeatOk(wk, tolerated, r)
    ensures AwaitedBeatOk(wk') && StrayBeatOk(wk', tolerated, r)
  {
  }

  lemma WaitingKeepsBeats(s: System, s': System)
    requires BeatsInv(s) && WorkersWait(s, s')
    ensures BeatsInv(s')
  {
    forall w | w in s'.workers
      ensures AwaitedBeatOk(s'.workers[w])
    {
      assert w in s.workers ==> AwaitedBeatOk(s.workers[w]);
    }
    forall w, r | w in s'.workers && r in s'.stray
      ensures StrayBeatOk(s'.workers[w], s'.tolerated, r)
    {
      if w in s.workers {
        AnsweredStaysOk(s.workers[w], s'.workers[w], s.tolerated, r);
      }
    }
  }

  lemma EventKeepsBeats(c: Config, s: System, ev: Event)
    requires Inv(s) && UseInv(s) && BeatsInv(s) && Enabled(c, s, ev)
    ensures BeatsInv(Apply(c, s, ev))
  {
    if ev.Local? {
      LocalKeepsBeats(c, s, ev.worker, ev.step);
    } else {
      EventWaits(c, s, ev);
      WaitingKeepsBeats(s, Apply(c, s, ev));
    }
  }

  /** Of two heartbeats of a claim that nobody waits for any more, the earlier one was tolerated. */
  predicate EarlierTolerated(s: System) {
    forall a, b :: a in s.stray && b in s.stray && Earlier(a, b) ==> a in s.tolerated
  }

  predicate Earlier(a: Request, b: Request) {
    a.HeartbeatRequest? && b.HeartbeatRequest? && a.claim == b.claim && a.serial < b.serial
  }

  /** A worker leaves behind at most the heartbeat it was waiting for, the last of its claim. */
  lemma LeftIsLast(wk: Worker, step: Step, tolerated: set<Request>, left: Request, other: Request)
    requires PhaseOk(wk) && AwaitedBeatOk(wk) && (wk.call.Sent? ==> !wk.call.request.HeartbeatRequest?)
    requires left in Abandons(wk, step) && (other in Abandons(wk, step) || StrayBeatOk(wk, tolerated, other))
    ensures !Earlier(left, other)
    ensures other !in Abandons(wk, step) && Earlier(other, left) ==> other in tolerated
    ensures other in Abandons(wk, step) ==> !Earlier(other, left)
  {
  }

  lemma LocalKeepsTolerated(c: Config, s: System, w: WorkerId, step: Step)
    requires Inv(s) && BeatsInv(s) && EarlierTolerated(s) && Enabled(c, s, Local(w, step))
    ensures EarlierTolerated(ApplyLocal(c, s, w, step))
  {
    var wk := s.workers[w];
    assert WorkerOk(s, w, wk);
    CallIsNoBeat(s, w);
    forall a, b | a in s.stray + Abandons(wk, step) && b in s.stray + Abandons(wk, step) && Earlier(a, b)
      ensures a in s.tolerated
    {
      if a in Abandons(wk, step) {
        LeftIsLast(wk, step, s.tolerated, a, b);
      } else if b in Abandons(wk, step) {
        LeftIsLast(wk, step, s.tolerated, b, a);
      }
    }
  }

  lemma EventKeepsTolerated(c: Config, s: System, ev: Event)
    requires Inv(s) && BeatsInv(s) && EarlierTolerated(s) && Enabled(c, s, ev)
    ensures EarlierTolerated(Apply(c, s, ev))
  {
    if ev.Local? {
      LocalKeepsTolerated(c, s, ev.worker, ev.step);
    } else {
      EventWaits(c, s, ev);
    }
  }

  lemma {:induction false} RunKeepsBeats(c: Config, start: Time, run: seq<Event>)
    ensures After(c, start, run).Some? ==> BeatsInv(After(c, start, run).value) && EarlierTolerated(After(c, start, run).value)
  {
    if run != [] {
      RunKeepsBeats(c, start, run[..|run| - 1]);
      RunKeepsUse(c, start, run[..|run| - 1]);
      if After(c, start, run).Some? {
        EventKeepsBeats(c, After(c, start, run[..|run| - 1]).value, run[|run| - 1]);
        EventKeepsTolerated(c, After(c, start, run[..|run| - 1]).value, run[|run| - 1]);
      }
    }
  }

  /** A heartbeat somebody waits for is the last of the sender's claim. */
  lemma AwaitedIsLast(s: System, w: WorkerId, r: Request)
    requires Inv(s) && BeatsInv(s) && w in s.workers && s.workers[w].beat == Sent(r)
    ensures var wk := s.workers[w];
      && wk.claim.Some? && wk.beats > 0 && r == HeartbeatRequest(wk.claim.value, wk.beats - 1)
      && ClaimOk(s, w, wk.claim.value)
  {
    assert WorkerOk(s, w, s.workers[w]) && AwaitedBeatOk(s.workers[w]);
  }

  lemma NoneAfterAwaited(s: System, w: WorkerId, awaited: Request, other: Request)
    requires Inv(s) && BeatsInv(s) && w in s.workers && s.workers[w].beat == Sent(awaited)
    requires other in s.stray || exists v :: v in s.workers && s.workers[v].beat == Sent(other)
    ensures !Earlier(awaited, other)
    ensures Earlier(other, awaited) ==> other in s.stray && other in s.tolerated
  {
    AwaitedIsLast(s, w, awaited);
    if other in s.stray {
      assert StrayBeatOk(s.workers[w], s.tolerated, other);
    } else {
      var v :| v in s.workers && s.workers[v].beat == Sent(other);
      AwaitedIsLast(s, v, other);
    }
  }

  lemma EarlierOfTwo(s: System, claim: Claim, a: Request, b: Request)
    requires Inv(s) && BeatsInv(s) && EarlierTolerated(s)
    requires OnItsWay(s, claim, a) && OnItsWay(s, claim, b) && a.serial < b.serial
    ensures a in s.stray && a in s.tolerated
  {
    assert Earlier(a, b);
    if w :| w in s.workers && s.workers[w].beat == Sent(b) {
      NoneAfterAwaited(s, w, b, a);
    } else if v :| v in s.workers && s.workers[v].beat == Sent(a) {
      NoneAfterAwaited(s, v, a, b);
    }
  }

  /**
    On every run, of any two heartbeats of one claim that are on their way, the earlier one was
    given up and tolerated, and the other is a retry sent after it.
   */
  lemma EarlierBeatWasTolerated(c: Config, s: System, claim: Claim, a: Request, b: Request)
    requires Reachable(c, s) && OnItsWay(s, claim, a) && OnItsWay(s, claim, b) && a != b
    ensures a.serial != b.serial
    ensures var earlier := if a.serial < b.serial then a else b; earlier in s.stray && earlier in s.tolerated
  {
    var start, run :| After(c, start, run) == Some(s);
    RunKeepsBeats(c, start, run);
    RunKeepsInv(c, start, run);
    if a.serial < b.serial {
      EarlierOfTwo(s, claim, a, b);
    } else {
      assert b.serial < a.serial;
      EarlierOfTwo(s, claim, b, a);
    }
  }

  /** So that is exactly how two come to be there; the other direction only names them. */
  lemma TwoBeatsExactly(c: Config, s: System, claim: Claim)
    requires Reachable(c, s)
    ensures TwoBeats(s, claim) <==>
      exists a, b :: OnItsWay(s, claim, a) && a in s.stray && a in s.tolerated && OnItsWay(s, claim, b) && a.serial < b.serial
  {
    if TwoBeats(s, claim) {
      var a, b :| OnItsWay(s, claim, a) && OnItsWay(s, claim, b) && a != b;
      EarlierBeatWasTolerated(c, s, claim, a, b);
      if b.serial < a.serial {
        assert OnItsWay(s, claim, b) && b in s.stray && b in s.tolerated && OnItsWay(s, claim, a) && b.serial < a.serial;
      }
    }
  }

  // ----- for which configurations that happens

  /** A heartbeat of the worker is sent too late for a failure to be tolerated. */
  predicate LateBeat(c: Config, wk: Worker, now: Time) {
    Held(wk) && wk.hb.failure.None? ==>
      wk.hb.leaseDeadline == wk.hb.nextAttemptAt - c.everyMs + c.LeaseMs() && (wk.hb.inFlight ==> wk.hb.nextAttemptAt <= now)
  }

  predicate LateBeats(c: Config, s: System) {
    s.tolerated == {} && forall w :: w in s.workers ==> LateBeat(c, s.workers[w], s.now)
  }

  lemma StepStaysLate(c: Config, wk: Worker, step: Step, now: Time)
    requires c.LeaseMs() <= c.everyMs + c.timeoutMs && CanStep(wk, step) && PhaseOk(wk) && LateBeat(c, wk, now)
    ensures var wk' := StepWorker(c, wk, step, now);
      Tolerates(wk, wk', step) == {} && LateBeat(c, wk', now)
  {
  }

  lemma LocalStaysLate(c: Config, s: System, w: WorkerId, step: Step)
    requires c.LeaseMs() <= c.everyMs + c.timeoutMs && Inv(s) && LateBeats(c, s) && Enabled(c, s, Local(w, step))
    ensures LateBeats(c, ApplyLocal(c, s, w, step))
  {
    assert WorkerOk(s, w, s.workers[w]);
    StepStaysLate(c, s.workers[w], step, s.now);
    var s' := ApplyLocal(c, s, w, step);
    assert s'.now == s.now && s'.workers == s.workers[w := StepWorker(c, s.workers[w], step, s.now)];
  }

  lemma EventStaysLate(c: Config, s: System, ev: Event)
    requires c.LeaseMs() <= c.everyMs + c.timeoutMs && Inv(s) && LateBeats(c, s) && Enabled(c, s, ev)
    ensures LateBeats(c, Apply(c, s, ev))
  {
    if ev.Local? {
      LocalStaysLate(c, s, ev.worker, ev.step);
    } else {
      EventWaits(c, s, ev);
      WaitingStaysLate(c, s, Apply(c, s, ev));
    }
  }

  lemma WaitingStaysLate(c: Config, s: System, s': System)
    requires LateBeats(c, s) && WorkersWait(s, s')
    ensures LateBeats(c, s')
  {
    forall w | w in s'.workers
      ensures LateBeat(c, s'.workers[w], s'.now)
    {
      assert w in s.workers ==> LateBeat(c, s.workers[w], s.now);
    }
  }

  lemma {:induction false} RunStaysLate(c: Config, start: Time, run: seq<Event>)
    requires c.LeaseMs() <= c.everyMs + c.timeoutMs
    ensures After(c, start, run).Some? ==> LateBeats(c, After(c, start, run).value)
  {
    if run != [] {
      RunStaysLate(c, start, run[..|run| - 1]);
      RunKeepsInv(c, start, run[..|run| - 1]);
      if After(c, start, run).Some? {
        EventStaysLate(c, After(c, start, run[..|run| - 1]).value, run[|run| - 1]);
      }
    }
  }

  ghost predicate BeatsCanOverlap(c: Config) {
    exists s, claim :: Reachable(c, s) && TwoBeats(s, claim)
  }

  /** Some run has two heartbeats of one claim on the network exactly when a failed first one can still be tolerated. */
  lemma BeatsOverlapExactly(c: Config)
    requires c.Accepted()
    ensures BeatsCanOverlap(c) <==> c.everyMs + c.timeoutMs < c.LeaseMs()
  {
    if c.everyMs + c.timeoutMs < c.LeaseMs() {
      RetryOverlaps(c);
    } else if BeatsCanOverlap(c) {
      var s, claim :| Reachable(c, s) && TwoBeats(s, claim);
      TwoBeatsExactly(c, s, claim);
      var start, run :| After(c, start, run) == Some(s);
      RunStaysLate(c, start, run);
      assert false;
    }
  }

  // ----- such a run

  const JOB_KIND := "deliver.lead"

  const FIRST_CLAIM := Claim(0, 0, JOB_KIND, 0)

  function QueuedRow(): Row {
    NewRow(0, JOB_KIND, 2, 0, 0)
  }

  /** Worker 0 has just started the job, at time zero. */
  function FirstWorker(c: Config): Worker {
    FRESH_WORKER.(phase := Racing(None), claim := Some(FIRST_CLAIM), handler := Running, hb := Start(c, 0))
  }

  function Claimed(c: Config): System {
    Init(0).(
      rows := map[0 := ClaimRow(QueuedRow(), 0, c.leaseSeconds, 0)],
      workers := map[0 := FirstWorker(c)],
      grants := map[0 := Grant(0, Some(0), LeaseMillis(c.leaseSeconds))])
  }

  /** A step of the run. */
  lemma ReachableTo(c: Config, s: System, ev: Event, next: System)
    requires Reachable(c, s) && Enabled(c, s, ev) && Apply(c, s, ev) == next
    ensures Reachable(c, next)
  {
    ReachableNext(c, s, ev);
  }

  const ASKING := FRESH_WORKER.(phase := Claiming, call := Sent(ClaimRequest))

  /** The job is queued and worker 0 asks for one. */
  function Queued(): System {
    Init(0).(rows := map[0 := QueuedRow()], workers := map[0 := ASKING])
  }

  lemma QueuedIsReachable(c: Config)
    ensures Reachable(c, Queued())
  {
    ReachableStart(c, 0);
    var s1 := Init(0).(workers := map[0 := FRESH_WORKER]);
    ReachableTo(c, Init(0), Spawn(0), s1);
    var s2 := s1.(rows := map[0 := QueuedRow()]);
    ReachableTo(c, s1, Enqueue(0, 0, JOB_KIND, 2, 0), s2);
    ReachableTo(c, s2, Local(0, Poll), Queued());
  }

  lemma ClaimedIsReachable(c: Config)
    ensures Reachable(c, Claimed(c))
  {
    QueuedIsReachable(c);
    var answered := Claimed(c).(workers := map[0 := ASKING.(call := Answered(ClaimReply(Some(FIRST_CLAIM))))]);
    ReachableTo(c, Queued(), ServeCall(0, PickRow(0, 0, {})), answered);
    assert answered.workers[0].call.reply.found == Some(FIRST_CLAIM);
    ReachableTo(c, answered, Local(0, CallAnswered), Claimed(c));
  }

  const FIRST_BEAT := HeartbeatRequest(FIRST_CLAIM, 0)
  const SECOND_BEAT := HeartbeatRequest(FIRST_CLAIM, 1)

  /** Worker 0 when it has sent its first heartbeat. */
  function BeatingWorker(c: Config): Worker {
    var wk := FirstWorker(c);
    wk.(hb := wk.hb.(inFlight := true), beat := Sent(FIRST_BEAT), beats := 1, lastTick := c.everyMs, beatSentAt := c.everyMs)
  }

  /** Worker 0 when that heartbeat has failed and was tolerated. */
  function WaitingWorker(c: Config): Worker {
    var wk := BeatingWorker(c);
    wk.(hb := wk.hb.(inFlight := false, nextAttemptAt := c.everyMs + c.RetryMs()), beat := NoCall)
  }

  function RetryingWorker(c: Config): Worker {
    var wk, now := WaitingWorker(c), c.everyMs + c.RetryMs();
    wk.(hb := wk.hb.(inFlight := true), beat := Sent(SECOND_BEAT), beats := 2, lastTick := now, beatSentAt := now)
  }

  function Beating(c: Config): System {
    Claimed(c).(now := c.everyMs, workers := map[0 := BeatingWorker(c)])
  }

  function Waiting(c: Config): System {
    Beating(c).(workers := map[0 := WaitingWorker(c)], stray := {FIRST_BEAT}, tolerated := {FIRST_BEAT})
  }

  function Retrying(c: Config): System {
    Waiting(c).(now := c.everyMs + c.RetryMs(), workers := map[0 := RetryingWorker(c)])
  }

  lemma BeatingIsReachable(c: Config)
    requires c.Accepted()
    ensures Reachable(c, Beating(c))
  {
    ClaimedIsReachable(c);
    var due := Claimed(c).(now := c.everyMs);
    ReachableTo(c, Claimed(c), Advance(c.everyMs), due);
    ReachableTo(c, due, Local(0, TimerFires), Beating(c));
  }

  lemma WaitingIsReachable(c: Config)
    requires c.Accepted() && c.everyMs + c.timeoutMs < c.LeaseMs()
    ensures Reachable(c, Waiting(c))
  {
    BeatingIsReachable(c);
    assert StepWorker(c, BeatingWorker(c), BeatFailed, c.everyMs) == WaitingWorker(c);
    ReachableTo(c, Beating(c), Local(0, BeatFailed), Waiting(c));
  }

  /** The first heartbeat fails at once and is tolerated, and its retry is sent while it is still on its way. */
  lemma RetryOverlaps(c: Config)
    requires c.Accepted() && c.everyMs + c.timeoutMs < c.LeaseMs()
    ensures Reachable(c, Retrying(c)) && TwoBeats(Retrying(c), FIRST_CLAIM)
    ensures var wk := Retrying(c).workers[0]; wk.phase == Racing(None) && wk.hb.failure.None?
  {
    WaitingIsReachable(c);
    var due := Waiting(c).(now := c.everyMs + c.RetryMs());
    ReachableTo(c, Waiting(c), Advance(c.RetryMs()), due);
    ReachableTo(c, due, Local(0, TimerFires), Retrying(c));
    assert Retrying(c).workers[0].beat == Sent(SECOND_BEAT);
    assert OnItsWay(Retrying(c), FIRST_CLAIM, FIRST_BEAT) && OnItsWay(Retrying(c), FIRST_CLAIM, SECOND_BEAT) && FIRST_BEAT != SECOND_BEAT;
  }
}
