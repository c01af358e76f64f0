/**
  The heartbeat deadlines, on runs where timers fire on time and a claim is answered within
  the heartbeat timeout. Worker and database read clocks that run at the same rate.
 */
module WorkerTiming {
  import opened Prelude
  import opened JobQueue
  import opened LeaseHeartbeat
  import opened WorkerProtocol
  import opened WorkerSafety
  import opened WorkerResults

  /** How long after the lease ran out a worker can at most go on without noticing. */
  function NoticeMs(c: Config): int {
    c.timeoutMs + c.TickMs() + SlackMs(c)
  }

  function SlackMs(c: Config): int {
    Max(c.RetryMs(), c.everyMs + c.timeoutMs - c.LeaseMs())
  }

  predicate HeartbeatOn(wk: Worker) {
    (wk.phase.Racing? || wk.phase.Stopping?) && wk.hb.failure.None?
  }

  // ----- runs on time

  predicate WorkerOnTime(c: Config, wk: Worker, now: Time) {
    && (wk.phase.Racing? && wk.hb.failure.None? ==> now <= wk.lastTick + c.TickMs())
    && (HeartbeatOn(wk) && wk.hb.inFlight ==> now <= wk.beatSentAt + c.timeoutMs)
    && (wk.phase.Claiming? ==> now <= wk.callSentAt + c.timeoutMs)
  }

  ghost predicate OnTime(c: Config, s: System) {
    forall w :: w in s.workers ==> WorkerOnTime(c, s.workers[w], s.now)
  }

  ghost predicate OnTimeRun(c: Config, start: Time, run: seq<Event>) {
    && After(c, start, run).Some?
    && OnTime(c, After(c, start, run).value)
    && (run == [] || OnTimeRun(c, start, run[..|run| - 1]))
  }

  ghost predicate ReachableOnTime(c: Config, s: System) {
    exists start, run :: OnTimeRun(c, start, run) && After(c, start, run) == Some(s)
  }

  // ----- the invariant

  predicate GrantsFresh(c: Config, s: System) {
    forall t :: t in s.grants ==> s.grants[t].expiry <= s.now + c.LeaseMs()
  }

  /** The worker's deadlines against the instant at which the database lets the lease go. */
  predicate BeatTimed(c: Config, wk: Worker, now: Time, expiry: Time) {
    && wk.hb.leaseDeadline - c.timeoutMs <= expiry
    && (wk.hb.inFlight ==> wk.beatSentAt <= now)
    && (wk.beat.Answered? && wk.beat.reply == Flag(true) ==> wk.beatSentAt + c.LeaseMs() <= expiry)
    && (wk.phase.Racing? ==>
          && wk.lastTick <= now
          && wk.hb.nextAttemptAt <= expiry + SlackMs(c)
          && (!wk.hb.inFlight ==> wk.lastTick < wk.hb.nextAttemptAt)
          && (wk.hb.inFlight ==> wk.beatSentAt <= wk.hb.nextAttemptAt + c.TickMs()))
  }

  predicate TimedOk(c: Config, s: System, wk: Worker) {
    && (wk.phase.Claiming? ==>
          && wk.callSentAt <= s.now
          && (wk.call.Answered? && wk.call.reply.ClaimReply? && wk.call.reply.found.Some? ==>
                var t := wk.call.reply.found.value.token;
                t in s.grants && wk.callSentAt + c.LeaseMs() <= s.grants[t].expiry))
    && (HeartbeatOn(wk) && wk.claim.Some? && wk.claim.value.token in s.grants ==>
          BeatTimed(c, wk, s.now, s.grants[wk.claim.value.token].expiry))
  }

  ghost predicate TimedInv(c: Config, s: System) {
    && GrantsFresh(c, s)
    && forall w :: w in s.workers ==> TimedOk(c, s, s.workers[w])
  }

  /** Leases are only ever prolonged. */
  predicate Prolongs(s: System, s': System) {
    && s.now <= s'.now
    && forall t :: t in s.grants ==> t in s'.grants && s.grants[t].expiry <= s'.grants[t].expiry
  }

  lemma ProlongsKeepsTimed(c: Config, s: System, s': System, w: WorkerId, wk: Worker)
    requires WorkerOk(s, w, wk) && TimedOk(c, s, wk) && Prolongs(s, s')
    ensures TimedOk(c, s', wk)
  {
  }

  lemma ServeProlongs(c: Config, s: System, owner: Option<WorkerId>, request: Request, pick: Pick)
    requires c.Accepted() && GrantsFresh(c, s) && CanServe(s, request, pick)
    ensures GrantsFresh(c, Serve(c, s, owner, request, pick))
    ensures Prolongs(s, Serve(c, s, owner, request, pick))
  {
    AcceptedLeaseIsNotClamped(c);
  }

  /** A lease is issued for its full length, after it was asked for. */
  lemma ClaimAnswerIsTimed(c: Config, s: System, w: WorkerId, pick: Pick)
    requires c.Accepted() && Inv(s) && TimedInv(c, s) && Enabled(c, s, ServeCall(w, pick))
    ensures var s' := Apply(c, s, ServeCall(w, pick)); TimedOk(c, s', s'.workers[w])
  {
    assert WorkerOk(s, w, s.workers[w]) && TimedOk(c, s, s.workers[w]);
    ServeProlongs(c, s, Some(w), s.workers[w].call.request, pick);
    AcceptedLeaseIsNotClamped(c);
  }

  /** And a heartbeat that succeeds prolongs it so, after it was sent. */
  lemma BeatAnswerIsTimed(c: Config, s: System, w: WorkerId)
    requires c.Accepted() && Inv(s) && TimedInv(c, s) && Enabled(c, s, ServeBeat(w))
    ensures var s' := Apply(c, s, ServeBeat(w)); TimedOk(c, s', s'.workers[w])
  {
    assert WorkerOk(s, w, s.workers[w]) && TimedOk(c, s, s.workers[w]);
    ServeProlongs(c, s, Some(w), s.workers[w].beat.request, NoRow);
    AcceptedLeaseIsNotClamped(c);
  }

  /** For the worker that did not change. */
  lemma OthersStayTimed(c: Config, s: System, s': System, v: WorkerId)
    requires Inv(s) && TimedInv(c, s) && Prolongs(s, s') && v in s.workers && v in s'.workers && s'.workers[v] == s.workers[v]
    ensures TimedOk(c, s', s'.workers[v])
  {
    assert WorkerOk(s, v, s.workers[v]);
    ProlongsKeepsTimed(c, s, s', v, s.workers[v]);
  }

  lemma ServeCallKeepsTimed(c: Config, s: System, w: WorkerId, pick: Pick)
    requires c.Accepted() && Inv(s) && TimedInv(c, s) && Enabled(c, s, ServeCall(w, pick))
    ensures TimedInv(c, Apply(c, s, ServeCall(w, pick)))
  {
    var s' := Apply(c, s, ServeCall(w, pick));
    ServeProlongs(c, s, Some(w), s.workers[w].call.request, pick);
    ClaimAnswerIsTimed(c, s, w, pick);
    forall v | v in s'.workers && v != w
      ensures TimedOk(c, s', s'.workers[v])
    {
      OthersStayTimed(c, s, s', v);
    }
  }

  lemma ServeBeatKeepsTimed(c: Config, s: System, w: WorkerId)
    requires c.Accepted() && Inv(s) && TimedInv(c, s) && Enabled(c, s, ServeBeat(w))
    ensures TimedInv(c, Apply(c, s, ServeBeat(w)))
  {
    var s' := Apply(c, s, ServeBeat(w));
    ServeProlongs(c, s, Some(w), s.workers[w].beat.request, NoRow);
    BeatAnswerIsTimed(c, s, w);
    forall v | v in s'.workers && v != w
      ensures TimedOk(c, s', s'.workers[v])
    {
      OthersStayTimed(c, s, s', v);
    }
  }

  /** The deadline arithmetic of one worker step under a claim. */
  lemma StepKeepsDeadlines(c: Config, wk: Worker, step: Step, now: Time, expiry: Time)
    requires c.Accepted() && CanStep(wk, step) && PhaseOk(wk) && HeartbeatOn(wk)
    requires WorkerOnTime(c, wk, now) && BeatTimed(c, wk, now, expiry)
    ensures var wk' := StepWorker(c, wk, step, now);
      HeartbeatOn(wk') ==> wk'.claim == wk.claim && BeatTimed(c, wk', now, expiry)
  {
  }

  /** A job starts within the heartbeat timeout of the moment its lease was issued. */
  lemma ClaimStartsDeadlines(c: Config, wk: Worker, now: Time, expiry: Time)
    requires c.Accepted() && CanStep(wk, CallAnswered) && PhaseOk(wk) && wk.phase.Claiming?
    requires WorkerOnTime(c, wk, now) && wk.callSentAt + c.LeaseMs() <= expiry
    ensures var wk' := StepWorker(c, wk, CallAnswered, now);
      HeartbeatOn(wk') ==> wk'.claim == wk.call.reply.found && BeatTimed(c, wk', now, expiry)
  {
  }

  lemma HeartbeatStarts(c: Config, wk: Worker, step: Step, now: Time)
    requires CanStep(wk, step) && PhaseOk(wk)
    ensures var wk' := StepWorker(c, wk, step, now);
      && (HeartbeatOn(wk') && !HeartbeatOn(wk) ==>
            wk.phase.Claiming? && step.CallAnswered? && wk.call.reply.ClaimReply? && wk.call.reply.found.Some?)
      && (wk'.phase.Claiming? ==>
            (wk'.call == wk.call && wk'.callSentAt == wk.callSentAt && wk.phase.Claiming?)
            || (wk'.call.Sent? && wk'.callSentAt == now))
  {
  }

  lemma StepKeepsTimed(c: Config, s: System, w: WorkerId, step: Step)
    requires c.Accepted() && Inv(s) && TimedInv(c, s)
    requires Enabled(c, s, Local(w, step)) && WorkerOnTime(c, s.workers[w], s.now)
    ensures TimedOk(c, s, StepWorker(c, s.workers[w], step, s.now))
  {
    var wk := s.workers[w];
    assert WorkerOk(s, w, wk) && TimedOk(c, s, wk);
    HeartbeatStarts(c, wk, step, s.now);
    if HeartbeatOn(wk) {
      StepKeepsDeadlines(c, wk, step, s.now, s.grants[wk.claim.value.token].expiry);
    } else if HeartbeatOn(StepWorker(c, wk, step, s.now)) {
      ClaimStartsDeadlines(c, wk, s.now, s.grants[wk.call.reply.found.value.token].expiry);
    }
  }

  lemma LocalKeepsTimed(c: Config, s: System, w: WorkerId, step: Step)
    requires c.Accepted() && Inv(s) && TimedInv(c, s) && OnTime(c, s)
    requires Enabled(c, s, Local(w, step))
    ensures TimedInv(c, Apply(c, s, Local(w, step)))
  {
    var s' := ApplyLocal(c, s, w, step);
    StepKeepsTimed(c, s, w, step);
    assert s'.grants == s.grants && s'.now == s.now;
    forall v | v in s'.workers
      ensures TimedOk(c, s', s'.workers[v])
    {
      if v != w {
        assert TimedOk(c, s, s.workers[v]);
      }
    }
  }

  lemma ServeStrayKeepsTimed(c: Config, s: System, request: Request, pick: Pick, again: bool)
    requires c.Accepted() && Inv(s) && TimedInv(c, s) && Enabled(c, s, ServeStray(request, pick, again))
    ensures TimedInv(c, Apply(c, s, ServeStray(request, pick, again)))
  {
    ServeProlongs(c, s, None, request, pick);
    ServeWrites(c, s, None, request, pick);
    WaitingStaysTimed(c, s, Apply(c, s, ServeStray(request, pick, again)));
  }

  /** No worker has moved. */
  lemma WaitingStaysTimed(c: Config, s: System, s': System)
    requires Inv(s) && TimedInv(c, s) && Prolongs(s, s') && GrantsFresh(c, s')
    requires forall w :: w in s'.workers ==> (w in s.workers && s'.workers[w] == s.workers[w]) || s'.workers[w] == FRESH_WORKER
    ensures TimedInv(c, s')
  {
    forall w | w in s'.workers
      ensures TimedOk(c, s', s'.workers[w])
    {
      if w in s.workers && s'.workers[w] == s.workers[w] {
        OthersStayTimed(c, s, s', w);
      }
    }
  }

  lemma OtherEventKeepsTimed(c: Config, s: System, ev: Event)
    requires c.Accepted() && Inv(s) && TimedInv(c, s) && Enabled(c, s, ev)
    requires !ev.ServeCall? && !ev.ServeBeat? && !ev.ServeStray? && !ev.Local?
    ensures TimedInv(c, Apply(c, s, ev))
  {
    OtherEventGrants(c, s, ev);
    WaitingStaysTimed(c, s, Apply(c, s, ev));
  }

  lemma OtherEventGrants(c: Config, s: System, ev: Event)
    requires Enabled(c, s, ev) && !ev.ServeCall? && !ev.ServeBeat? && !ev.ServeStray? && !ev.Local?
    ensures var s' := Apply(c, s, ev);
      && s'.grants == s.grants && s.now <= s'.now
      && forall w :: w in s'.workers ==> (w in s.workers && s'.workers[w] == s.workers[w]) || s'.workers[w] == FRESH_WORKER
  {
  }

  lemma {:induction false} OnTimeRunInv(c: Config, start: Time, run: seq<Event>)
    requires c.Accepted() && OnTimeRun(c, start, run)
    ensures Inv(After(c, start, run).value) && TimedInv(c, After(c, start, run).value)
  {
    RunKeepsInv(c, start, run);
    if run == [] {
    } else {
      var shorter, ev := run[..|run| - 1], run[|run| - 1];
      OnTimeRunInv(c, start, shorter);
      var s := After(c, start, shorter).value;
      match ev {
        case ServeCall(w, pick) => ServeCallKeepsTimed(c, s, w, pick);
        case ServeBeat(w) => ServeBeatKeepsTimed(c, s, w);
        case ServeStray(request, pick, again) => ServeStrayKeepsTimed(c, s, request, pick, again);
        case Local(w, step) => LocalKeepsTimed(c, s, w, step);
        case _ => OtherEventKeepsTimed(c, s, ev);
      }
    }
  }

  lemma OnTimeInv(c: Config, s: System)
    requires c.Accepted() && ReachableOnTime(c, s)
    ensures Inv(s) && TimedInv(c, s) && OnTime(c, s)
  {
    var start, run :| OnTimeRun(c, start, run) && After(c, start, run) == Some(s);
    OnTimeRunInv(c, start, run);
  }

  // ----- results

  /** A failed heartbeat is tolerated only at an instant when the database still holds the lease live. */
  lemma ToleratedOnlyWhileLive(c: Config, s: System, w: WorkerId)
    requires c.Accepted() && ReachableOnTime(c, s)
    requires Enabled(c, s, Local(w, BeatFailed)) && s.workers[w].hb.failure.None?
    requires Apply(c, s, Local(w, BeatFailed)).workers[w].hb.failure.None?
    ensures s.workers[w].claim.Some?
    ensures var claim := s.workers[w].claim.value;
      && claim.job in s.rows
      && s.rows[claim.job].status == Processing
      && s.rows[claim.job].lease.Some?
      && s.rows[claim.job].lease.value.token == claim.token
      && s.now < s.rows[claim.job].lease.value.expiresAt
  {
    OnTimeInv(c, s);
    assert WorkerOk(s, w, s.workers[w]) && TimedOk(c, s, s.workers[w]);
  }

  /** A worker that has not noticed yet cannot be further past its lease than the notice time. */
  lemma LossNoticedInTime(c: Config, s: System, w: WorkerId)
    requires c.Accepted() && 0 <= c.timeoutMs && ReachableOnTime(c, s)
    requires w in s.workers && s.workers[w].phase.Racing? && s.workers[w].hb.failure.None?
    ensures s.workers[w].claim.Some? && s.workers[w].claim.value.token in s.grants
    ensures s.now <= s.grants[s.workers[w].claim.value.token].expiry + NoticeMs(c)
  {
    OnTimeInv(c, s);
    assert WorkerOk(s, w, s.workers[w]) && TimedOk(c, s, s.workers[w]);
    assert WorkerOnTime(c, s.workers[w], s.now);
  }

  /** Two handlers run on one job, neither told to stop, for no longer than the notice time. */
  lemma OverlapIsBounded(c: Config, s: System, v: WorkerId, w: WorkerId)
    requires c.Accepted() && 0 <= c.timeoutMs && ReachableOnTime(c, s) && v in s.workers && w in s.workers && v != w
    requires s.workers[v].phase.Racing? && s.workers[v].hb.failure.None? && s.workers[v].claim.Some?
    requires s.workers[w].phase.Racing? && s.workers[w].hb.failure.None? && s.workers[w].claim.Some?
    requires s.workers[v].claim.value.job == s.workers[w].claim.value.job
    ensures s.workers[v].claim.value.token in s.grants && s.workers[w].claim.value.token in s.grants
    ensures
      var a, b := s.grants[s.workers[v].claim.value.token].expiry, s.grants[s.workers[w].claim.value.token].expiry;
      a <= s.now <= a + NoticeMs(c) || b <= s.now <= b + NoticeMs(c)
  {
    LossNoticedInTime(c, s, v);
    LossNoticedInTime(c, s, w);
    assert Reachable(c, s);
    OneLiveHolder(c, s, v, w);
  }

  /** With the default interval and timeout a lost lease is noticed within twelve seconds. */
  lemma DefaultNotice(c: Config)
    requires c.Accepted()
    requires c.everyMs == Max(1000, c.leaseSeconds * 1000 / 3)
    requires c.timeoutMs == DefaultTimeoutMs(c.everyMs, c.leaseSeconds)
    ensures NoticeMs(c) <= 12_000
  {
  }

  /** The worker waits for one heartbeat at a time. */
  lemma OneBeatAwaited(c: Config, s: System, w: WorkerId)
    requires Reachable(c, s) && Enabled(c, s, Local(w, TimerFires)) && Sends(s.workers[w].hb, s.now)
    ensures s.workers[w].beat.NoCall?
    ensures Apply(c, s, Local(w, TimerFires)).workers[w].beat == Sent(HeartbeatRequest(s.workers[w].claim.value, s.workers[w].beats))
  {
    ReachableInv(c, s);
    assert WorkerOk(s, w, s.workers[w]);
  }
}
