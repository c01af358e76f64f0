/** Two workers on one job: when a second one can be given it, and a run in which both run it. */
module WorkerOverlap {
  import opened Prelude
  import opened JobQueue
  import opened LeaseHeartbeat
  import opened WorkerProtocol
  import opened WorkerSafety
  import opened WorkerBeats
  import opened WorkerTiming

  // ----- when a job can be given to a second worker

  /** A lease leaves its row by a settlement or by the reaper. */
  predicate LeasesAccounted(s: System) {
    forall t :: t in s.grants ==>
      || t in s.settlements
      || t in s.reaped
      || (s.grants[t].job in s.rows && s.rows[s.grants[t].job].lease.Some? && s.rows[s.grants[t].job].lease.value.token == t)
  }

  lemma ServeKeepsAccounts(c: Config, s: System, owner: Option<WorkerId>, request: Request, pick: Pick)
    requires Inv(s) && LeasesAccounted(s) && CanServe(s, request, pick) && RequestOk(s, request)
    ensures LeasesAccounted(Serve(c, s, owner, request, pick))
  {
  }

  lemma ReapKeepsAccounts(c: Config, s: System, locked: set<JobId>)
    requires Inv(s) && LeasesAccounted(s)
    ensures LeasesAccounted(Apply(c, s, Reap(locked)))
  {
    var s' := Apply(c, s, Reap(locked));
    forall t | t in s'.grants
      ensures t in s'.settlements || t in s'.reaped
        || (s'.grants[t].job in s'.rows && s'.rows[s'.grants[t].job].lease.Some? && s'.rows[s'.grants[t].job].lease.value.token == t)
    {
      var id := s.grants[t].job;
      if t !in s.settlements && t !in s.reaped && s'.rows[id] != s.rows[id] {
        assert t in Revoked(s, c, locked);
      }
    }
  }

  /** The leases, the jobs and what settled or took them stay. */
  lemma AccountsStay(s: System, s': System)
    requires LeasesAccounted(s) && s'.grants == s.grants && s'.settlements == s.settlements && s'.reaped == s.reaped
    requires forall id :: id in s.rows && s.rows[id].lease.Some? ==> id in s'.rows && s'.rows[id].lease == s.rows[id].lease
    ensures LeasesAccounted(s')
  {
  }

  lemma ServedEventKeepsAccounts(c: Config, s: System, ev: Event)
    requires Inv(s) && LeasesAccounted(s) && Enabled(c, s, ev) && (ev.ServeCall? || ev.ServeBeat? || ev.ServeStray?)
    ensures LeasesAccounted(Apply(c, s, ev))
  {
    if ev.ServeCall? {
      assert WorkerOk(s, ev.worker, s.workers[ev.worker]);
      ServeKeepsAccounts(c, s, Some(ev.worker), s.workers[ev.worker].call.request, ev.pick);
    } else if ev.ServeBeat? {
      assert WorkerOk(s, ev.worker, s.workers[ev.worker]);
      ServeKeepsAccounts(c, s, Some(ev.worker), s.workers[ev.worker].beat.request, NoRow);
    } else {
      ServeKeepsAccounts(c, s, None, ev.request, ev.pick);
    }
  }

  lemma TableEventKeepsAccounts(c: Config, s: System, ev: Event)
    requires LeasesAccounted(s) && Enabled(c, s, ev) && (ev.Enqueue? || ev.Cancel?)
    requires TableOk(s)
    ensures LeasesAccounted(Apply(c, s, ev))
  {
    AccountsStay(s, Apply(c, s, ev));
  }

  lemma LocalKeepsAccounts(c: Config, s: System, w: WorkerId, step: Step)
    requires LeasesAccounted(s) && Enabled(c, s, Local(w, step))
    ensures LeasesAccounted(ApplyLocal(c, s, w, step))
  {
    assert s.settlements <= ApplyLocal(c, s, w, step).settlements;
  }

  lemma EventKeepsAccounts(c: Config, s: System, ev: Event)
    requires Inv(s) && LeasesAccounted(s) && Enabled(c, s, ev)
    ensures LeasesAccounted(Apply(c, s, ev))
  {
    if ev.ServeCall? || ev.ServeBeat? || ev.ServeStray? {
      ServedEventKeepsAccounts(c, s, ev);
    } else if ev.Reap? {
      ReapKeepsAccounts(c, s, ev.locked);
    } else if ev.Enqueue? || ev.Cancel? {
      TableEventKeepsAccounts(c, s, ev);
    } else if ev.Local? {
      LocalKeepsAccounts(c, s, ev.worker, ev.step);
    }
  }

  lemma {:induction false} RunKeepsAccounts(c: Config, start: Time, run: seq<Event>)
    ensures After(c, start, run).Some? ==> LeasesAccounted(After(c, start, run).value)
  {
    if run != [] {
      RunKeepsAccounts(c, start, run[..|run| - 1]);
      RunKeepsInv(c, start, run[..|run| - 1]);
      if After(c, start, run).Some? {
        EventKeepsAccounts(c, After(c, start, run[..|run| - 1]).value, run[|run| - 1]);
      }
    }
  }

  /** The database can answer a claim with this job. */
  ghost predicate CanBeGranted(s: System, id: JobId) {
    exists token, locked :: CanServe(s, ClaimRequest, PickRow(id, token, locked))
  }

  lemma {:induction false} BoundOf(tokens: set<Token>) returns (bound: Token)
    ensures forall t :: t in tokens ==> t < bound
  {
    bound := 0;
    if tokens != {} {
      var t :| t in tokens;
      var below := BoundOf(tokens - {t});
      bound := if t < below then below else t + 1;
      assert forall u :: u in tokens ==> u == t || u in tokens - {t};
    }
  }

  /**
    A job that one worker still holds unsettled can be given out again exactly when the reaper took
    that worker's lease, nobody holds another lease on the job, it was not finished since, it has
    attempts left and its backoff is over; and then the first lease has run out.
   */
  lemma SecondGrantExactly(c: Config, s: System, w: WorkerId)
    requires Reachable(c, s) && w in s.workers && Held(s.workers[w])
    ensures s.workers[w].claim.Some? && s.workers[w].claim.value.token in s.grants && s.workers[w].claim.value.job in s.rows
    ensures var claim := s.workers[w].claim.value;
      var row := s.rows[claim.job];
      CanBeGranted(s, claim.job) <==>
        && claim.token in s.reaped && row.lease.None? && !Terminal(row)
        && row.attempts < row.maxAttempts && row.runAfter <= s.now
    ensures CanBeGranted(s, s.workers[w].claim.value.job) ==> s.grants[s.workers[w].claim.value.token].expiry <= s.now
  {
    ReachableInv(c, s);
    var start, run :| After(c, start, run) == Some(s);
    RunKeepsAccounts(c, start, run);
    assert WorkerOk(s, w, s.workers[w]);
    var claim := s.workers[w].claim.value;
    var t := BoundOf(s.grants.Keys);
    if Claimable(s.rows[claim.job], s.now) {
      assert CanServe(s, ClaimRequest, PickRow(claim.job, t, {}));
    }
  }

  // ----- a run in which two workers run one job

  const SECOND_CLAIM := Claim(0, 0, JOB_KIND, 1)

  function Becomes(s: System, w: WorkerId, wk: Worker): System {
    s.(workers := s.workers[w := wk])
  }

  /** What the reaper leaves of the job. */
  function ReapedRow(leaseSeconds: int): Row {
    ReapRow(ClaimRow(QueuedRow(), 0, leaseSeconds, 0), LeaseMillis(leaseSeconds))
  }

  /** The lease ran out unnoticed by worker 0, the reaper put the job back, and its backoff is over. */
  function Reaped(c: Config): System {
    Claimed(c).(
      now := LeaseMillis(c.leaseSeconds) + 2000,
      rows := map[0 := ReapedRow(c.leaseSeconds)],
      reaped := {0})
  }

  /** Worker 1 asks for a job. */
  function AskingAt(now: Time): Worker {
    ASKING.(callSentAt := now)
  }

  /** The job is given to worker 1. */
  function Granted(c: Config, s: System): System
    requires 0 in s.rows && 1 in s.workers
  {
    s.(rows := s.rows[0 := ClaimRow(s.rows[0], 1, c.leaseSeconds, s.now)],
       grants := s.grants[1 := Grant(0, Some(1), s.now + LeaseMillis(c.leaseSeconds))],
       workers := s.workers[1 := s.workers[1].(call := Answered(ClaimReply(Some(SECOND_CLAIM))))])
  }

  function RunningFrom(c: Config, now: Time): Worker {
    FRESH_WORKER.(
      phase := Racing(None), claim := Some(SECOND_CLAIM), handler := Running, hb := Start(c, now),
      lastTick := now, callSentAt := now)
  }

  /** From `s` on, worker 1 joins, asks, and runs the job beside worker 0. */
  function JoinedTo(s: System): System {
    Becomes(s, 1, FRESH_WORKER)
  }

  function AskedIn(s: System): System {
    Becomes(JoinedTo(s), 1, AskingAt(s.now))
  }

  function GrantedIn(c: Config, s: System): System
    requires 0 in s.rows
  {
    Granted(c, AskedIn(s))
  }

  function BothRun(c: Config, s: System): System
    requires 0 in s.rows
  {
    Becomes(GrantedIn(c, s), 1, RunningFrom(c, s.now))
  }

  /** The only lease of the table ran out. */
  lemma RevokesOne(c: Config, s: System)
    requires s.rows == map[0 := ClaimRow(QueuedRow(), 0, c.leaseSeconds, 0)] && s.now == LeaseMillis(c.leaseSeconds)
    ensures Revoked(s, c, {}) == {0}
    ensures ReapStaleJobs(s.rows, c.leaseSeconds, s.now, {}) == map[0 := ReapedRow(c.leaseSeconds)]
  {
    assert s.rows[0].lease == Some(Lease(0, s.now));
    assert Stale(s.rows[0], c.leaseSeconds, s.now);
    var revoked := Revoked(s, c, {});
    assert s.rows[0].lease.value.token in revoked;
    assert forall t :: t in revoked ==> t == 0;
  }

  lemma ReapedIsReachable(c: Config)
    ensures Reachable(c, Reaped(c))
  {
    ClaimedIsReachable(c);
    var lease := LeaseMillis(c.leaseSeconds);
    var late := Claimed(c).(now := lease);
    ReachableTo(c, Claimed(c), Advance(lease), late);
    RevokesOne(c, late);
    var back := late.(rows := map[0 := ReapedRow(c.leaseSeconds)], reaped := {0});
    ReachableTo(c, late, Reap({}), back);
    ReachableTo(c, back, Advance(2000), Reaped(c));
  }

  lemma ReapedRowWaits(leaseSeconds: int)
    ensures var row := ReapedRow(leaseSeconds);
      && row.status == Pending && row.attempts == 1 && row.maxAttempts == 2
      && row.runAfter == LeaseMillis(leaseSeconds) + 2000
      && row.workspace == 0 && row.kind == JOB_KIND
  {
    assert Power2(1) == 2;
  }

  /** A worker's step that leaves nothing behind but the worker. */
  lemma PlainStep(c: Config, s: System, w: WorkerId, step: Step, wk: Worker)
    requires Enabled(c, s, Local(w, step)) && StepWorker(c, s.workers[w], step, s.now) == wk
    requires step.TimerFires? || step.Poll? || (step.CallAnswered? && s.workers[w].phase.Claiming?)
    requires wk.hb.failure.None? || !Held(s.workers[w])
    requires s.workers[w].claim.None? || wk.claim == s.workers[w].claim
    ensures Apply(c, s, Local(w, step)) == Becomes(s, w, wk)
  {
    assert !(Held(s.workers[w]) && Settling(wk));
  }

  /** Before the second worker: the job waits, and nobody has the second token. */
  predicate Waits(c: Config, s: System) {
    s.rows == map[0 := ReapedRow(c.leaseSeconds)] && s.now == LeaseMillis(c.leaseSeconds) + 2000
    && 1 !in s.grants && 1 !in s.workers
  }

  lemma Joins(c: Config, s: System)
    requires Waits(c, s)
    ensures Enabled(c, s, Spawn(1)) && Apply(c, s, Spawn(1)) == JoinedTo(s)
  {
  }

  lemma Asks(c: Config, s: System)
    ensures Enabled(c, JoinedTo(s), Local(1, Poll)) && Apply(c, JoinedTo(s), Local(1, Poll)) == AskedIn(s)
  {
    PlainStep(c, JoinedTo(s), 1, Poll, AskingAt(s.now));
  }

  lemma IsGranted(c: Config, s: System)
    requires Waits(c, s)
    ensures Enabled(c, AskedIn(s), ServeCall(1, PickRow(0, 1, {})))
    ensures Apply(c, AskedIn(s), ServeCall(1, PickRow(0, 1, {}))) == GrantedIn(c, s)
  {
    var asked, pick := AskedIn(s), PickRow(0, 1, {});
    ReapedRowWaits(c.leaseSeconds);
    assert Claimable(asked.rows[0], asked.now);
    assert Issued(asked, pick) == SECOND_CLAIM;
    assert ReplyTo(asked, ClaimRequest, pick) == ClaimReply(Some(SECOND_CLAIM));
    assert Serve(c, asked, Some(1), ClaimRequest, pick).rows == asked.rows[0 := ClaimRow(asked.rows[0], 1, c.leaseSeconds, asked.now)];
  }

  lemma Begins(c: Config, s: System)
    requires 0 in s.rows
    ensures Enabled(c, GrantedIn(c, s), Local(1, CallAnswered))
    ensures Apply(c, GrantedIn(c, s), Local(1, CallAnswered)) == BothRun(c, s)
  {
    PlainStep(c, GrantedIn(c, s), 1, CallAnswered, RunningFrom(c, s.now));
  }

  /** For every configuration two workers can run one job, neither told to stop. */
  lemma OverlapHappens(c: Config)
    ensures Reachable(c, BothRun(c, Reaped(c)))
    ensures var v, w := BothRun(c, Reaped(c)).workers[0], BothRun(c, Reaped(c)).workers[1];
      && v.phase == Racing(None) && v.handler.Running? && !Aborted(v)
      && w.phase == Racing(None) && w.handler.Running? && !Aborted(w)
      && v.claim.Some? && w.claim.Some? && v.claim.value.job == w.claim.value.job
  {
    var s := Reaped(c);
    ReapedIsReachable(c);
    Joins(c, s);
    ReachableTo(c, s, Spawn(1), JoinedTo(s));
    Asks(c, s);
    ReachableTo(c, JoinedTo(s), Local(1, Poll), AskedIn(s));
    IsGranted(c, s);
    ReachableTo(c, AskedIn(s), ServeCall(1, PickRow(0, 1, {})), GrantedIn(c, s));
    Begins(c, s);
    ReachableTo(c, GrantedIn(c, s), Local(1, CallAnswered), BothRun(c, s));
  }

  // ----- and with every timer on time

  /** A lease of thirty seconds with the timeout the worker chooses by itself. */
  const SLOW: Config := Config(29_999, 30, 7_500)

  /** Worker 0, answered as late as can be, ticks every second and has no heartbeat due yet. */
  function TickingWorker(now: Time): Worker {
    FRESH_WORKER.(phase := Racing(None), claim := Some(FIRST_CLAIM), handler := Running, hb := Start(SLOW, 7_500), lastTick := now)
  }

  function Ticking(now: Time): System {
    Claimed(SLOW).(now := now, workers := map[0 := TickingWorker(now)])
  }

  function TickingReaped(now: Time): System {
    Ticking(now).(rows := map[0 := ReapedRow(30)], reaped := {0})
  }

  lemma OnTimeTo(c: Config, s: System, ev: Event, next: System)
    requires ReachableOnTime(c, s) && Enabled(c, s, ev) && Apply(c, s, ev) == next && OnTime(c, next)
    ensures ReachableOnTime(c, next)
  {
    var start, run :| OnTimeRun(c, start, run) && After(c, start, run) == Some(s);
    var longer := run + [ev];
    assert longer[..|longer| - 1] == run;
    assert After(c, start, longer) == Some(next);
    assert OnTimeRun(c, start, longer);
  }

  /** Worker 0 has started, and the job may be there for it. */
  function Idling(rows: Table): System {
    Init(0).(workers := map[0 := FRESH_WORKER], rows := rows)
  }

  lemma IdlingOnTime()
    ensures ReachableOnTime(SLOW, Idling(map[]))
  {
    assert After(SLOW, 0, []) == Some(Init(0));
    assert OnTimeRun(SLOW, 0, []);
    OnTimeTo(SLOW, Init(0), Spawn(0), Idling(map[]));
  }

  lemma QueuedOnTime()
    ensures ReachableOnTime(SLOW, Queued())
  {
    IdlingOnTime();
    var s := Idling(map[0 := QueuedRow()]);
    OnTimeTo(SLOW, Idling(map[]), Enqueue(0, 0, JOB_KIND, 2, 0), s);
    OnTimeTo(SLOW, s, Local(0, Poll), Queued());
  }

  /** The job is given to worker 0. */
  function Given(now: Time): System {
    Claimed(SLOW).(now := now, workers := map[0 := ASKING.(call := Answered(ClaimReply(Some(FIRST_CLAIM))))])
  }

  lemma GivenOnTime()
    ensures ReachableOnTime(SLOW, Given(7_500))
  {
    QueuedOnTime();
    OnTimeTo(SLOW, Queued(), ServeCall(0, PickRow(0, 0, {})), Given(0));
    OnTimeTo(SLOW, Given(0), Advance(7_500), Given(7_500));
  }

  lemma TickingStarts()
    ensures ReachableOnTime(SLOW, Ticking(7_500))
  {
    GivenOnTime();
    assert Given(7_500).workers[0].call.reply.found == Some(FIRST_CLAIM);
    OnTimeTo(SLOW, Given(7_500), Local(0, CallAnswered), Ticking(7_500));
  }

  /** The timer fires without sending. */
  lemma TicksInVain(was: Time, now: Time)
    requires now < 37_499
    ensures CanStep(TickingWorker(was), TimerFires)
    ensures StepWorker(SLOW, TickingWorker(was), TimerFires, now) == TickingWorker(now)
  {
    assert !Sends(TickingWorker(was).hb, now);
  }

  /** Up to a second passes, and the timer fires. */
  lemma TickOnce(s: System, duration: nat)
    requires ReachableOnTime(SLOW, s) && s.workers == map[0 := TickingWorker(s.now)]
    requires duration <= 1_000 && 7_500 <= s.now && s.now + duration < 37_499
    ensures var now := s.now + duration;
      ReachableOnTime(SLOW, s.(now := now, workers := map[0 := TickingWorker(now)]))
  {
    var now := s.now + duration;
    var later := s.(now := now);
    OnTimeTo(SLOW, s, Advance(duration), later);
    TicksInVain(s.now, now);
    PlainStep(SLOW, later, 0, TimerFires, TickingWorker(now));
    assert s.workers[0 := TickingWorker(now)] == map[0 := TickingWorker(now)];
    OnTimeTo(SLOW, later, Local(0, TimerFires), s.(now := now, workers := map[0 := TickingWorker(now)]));
  }

  lemma {:induction false} TicksPass(k: nat)
    requires k <= 22
    ensures ReachableOnTime(SLOW, Ticking(7_500 + 1_000 * k))
  {
    if k == 0 {
      TickingStarts();
    } else {
      TicksPass(k - 1);
      TickOnce(Ticking(7_500 + 1_000 * (k - 1)), 1_000);
    }
  }

  lemma ReapedOnTime()
    ensures ReachableOnTime(SLOW, TickingReaped(32_000))
  {
    TicksPass(22);
    TickOnce(Ticking(29_500), 500);
    RevokesOne(SLOW, Ticking(30_000));
    OnTimeTo(SLOW, Ticking(30_000), Reap({}), TickingReaped(30_000));
    TickOnce(TickingReaped(30_000), 1_000);
    TickOnce(TickingReaped(31_000), 1_000);
  }

  /** Worker 1 is on time too, whatever it has come to. */
  lemma BothOnTime(s: System, second: Worker)
    requires s.workers == map[0 := TickingWorker(s.now), 1 := second] && WorkerOnTime(SLOW, second, s.now)
    ensures OnTime(SLOW, s)
  {
  }

  lemma JoinedOnTime(s: System)
    requires s.workers == map[0 := TickingWorker(s.now)]
    ensures OnTime(SLOW, JoinedTo(s)) && OnTime(SLOW, AskedIn(s))
  {
    BothOnTime(JoinedTo(s), FRESH_WORKER);
    BothOnTime(AskedIn(s), AskingAt(s.now));
  }

  lemma RunningOnTime(s: System)
    requires s.workers == map[0 := TickingWorker(s.now)] && 0 in s.rows
    ensures OnTime(SLOW, GrantedIn(SLOW, s)) && OnTime(SLOW, BothRun(SLOW, s))
  {
    BothOnTime(GrantedIn(SLOW, s), AskingAt(s.now).(call := Answered(ClaimReply(Some(SECOND_CLAIM)))));
    BothOnTime(BothRun(SLOW, s), RunningFrom(SLOW, s.now));
  }

  lemma AskedOnTime(s: System)
    requires ReachableOnTime(SLOW, s) && Waits(SLOW, s) && s.workers == map[0 := TickingWorker(s.now)]
    ensures ReachableOnTime(SLOW, AskedIn(s))
  {
    JoinedOnTime(s);
    Joins(SLOW, s);
    OnTimeTo(SLOW, s, Spawn(1), JoinedTo(s));
    Asks(SLOW, s);
    OnTimeTo(SLOW, JoinedTo(s), Local(1, Poll), AskedIn(s));
  }

  lemma GrantedOnTime(s: System)
    requires ReachableOnTime(SLOW, s) && Waits(SLOW, s) && s.workers == map[0 := TickingWorker(s.now)]
    ensures ReachableOnTime(SLOW, GrantedIn(SLOW, s))
  {
    AskedOnTime(s);
    IsGranted(SLOW, s);
    RunningOnTime(s);
    OnTimeTo(SLOW, AskedIn(s), ServeCall(1, PickRow(0, 1, {})), GrantedIn(SLOW, s));
  }

  lemma BothRunOnTime(s: System)
    requires ReachableOnTime(SLOW, s) && Waits(SLOW, s) && s.workers == map[0 := TickingWorker(s.now)]
    ensures ReachableOnTime(SLOW, BothRun(SLOW, s))
  {
    GrantedOnTime(s);
    Begins(SLOW, s);
    RunningOnTime(s);
    OnTimeTo(SLOW, GrantedIn(SLOW, s), Local(1, CallAnswered), BothRun(SLOW, s));
  }

  /** Neither is told to stop. */
  lemma BothGoOn(s: System)
    requires 0 in s.rows && s.workers == map[0 := TickingWorker(s.now)]
    ensures var v, w := BothRun(SLOW, s).workers[0], BothRun(SLOW, s).workers[1];
      && v.phase == Racing(None) && v.handler.Running? && !Aborted(v)
      && w.phase == Racing(None) && w.handler.Running? && !Aborted(w)
      && v.claim == Some(FIRST_CLAIM) && w.claim == Some(SECOND_CLAIM)
  {
  }

  /** Timers on time do not rule it out, so the bound on the overlap is not empty. */
  lemma OverlapHappensOnTime()
    ensures SLOW.Accepted() && SLOW.timeoutMs == DefaultTimeoutMs(SLOW.everyMs, SLOW.leaseSeconds)
    ensures ReachableOnTime(SLOW, BothRun(SLOW, TickingReaped(32_000)))
    ensures var v, w := BothRun(SLOW, TickingReaped(32_000)).workers[0], BothRun(SLOW, TickingReaped(32_000)).workers[1];
      && v.phase == Racing(None) && v.handler.Running? && !Aborted(v)
      && w.phase == Racing(None) && w.handler.Running? && !Aborted(w)
      && v.claim.Some? && w.claim.Some? && v.claim.value.job == w.claim.value.job
  {
    ReapedOnTime();
    BothRunOnTime(TickingReaped(32_000));
    BothGoOn(TickingReaped(32_000));
  }
}
