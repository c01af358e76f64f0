/** The promises of the lease protocol, for every reachable state and every event. */
module WorkerResults {
  import opened Prelude
  import opened JobQueue
  import opened LeaseHeartbeat
  import opened WorkerProtocol
  import opened WorkerSafety
  import GuardedFetch

  /** No lease is settled twice, and none is settled that was ever declared lost. */
  lemma SettledAtMostOnce(c: Config, s: System)
    requires Reachable(c, s)
    ensures NoDuplicates(s.settlements)
    ensures forall t :: t in s.settlements ==> t !in s.lost
  {
    ReachableInv(c, s);
  }

  /**
    A worker asks for the next job, or sends a settlement, only when no handler of its own is
    running; when a drain expires on a running handler it stops for good.
   */
  lemma HandlerStopsFirst(c: Config, s: System, w: WorkerId, step: Step)
    requires Reachable(c, s) && Enabled(c, s, Local(w, step))
    ensures step.Poll? ==> !s.workers[w].handler.Running?
    ensures var wk' := Apply(c, s, Local(w, step)).workers[w];
      && (Settling(wk') && !Settling(s.workers[w]) ==>
            !wk'.handler.Running? && wk'.hb.stopped && !wk'.hb.inFlight && wk'.hb.failure.None?)
      && (Held(s.workers[w]) && wk'.handler.Running? && !Held(wk') ==> !Live(wk'))
  {
    ReachableInv(c, s);
    assert WorkerOk(s, w, s.workers[w]);
    StepStopsHandler(c, s.workers[w], step, s.now);
    assert Apply(c, s, Local(w, step)).workers[w] == StepWorker(c, s.workers[w], step, s.now);
  }

  lemma StepStopsHandler(c: Config, wk: Worker, step: Step, now: Time)
    requires CanStep(wk, step) && PhaseOk(wk)
    ensures step.Poll? ==> !wk.handler.Running?
    ensures var wk' := StepWorker(c, wk, step, now);
      && (Settling(wk') && !Settling(wk) ==>
            !wk'.handler.Running? && wk'.hb.stopped && !wk'.hb.inFlight && wk'.hb.failure.None?)
      && (Held(wk) && wk'.handler.Running? && !Held(wk') ==> !Live(wk'))
  {
    StepKeepsPhase(c, wk, step, now);
  }

  lemma StoppedForGood(c: Config, s: System, w: WorkerId, ev: Event)
    requires Reachable(c, s) && Enabled(c, s, ev) && w in s.workers && !Live(s.workers[w])
    ensures w in Apply(c, s, ev).workers && Apply(c, s, ev).workers[w] == s.workers[w]
  {
    if ev.Local? {
      assert ev.worker != w;
    } else {
      ReachableInv(c, s);
      assert WorkerOk(s, w, s.workers[w]);
      EventWaits(c, s, ev);
    }
  }

  /** The request an event puts to the database, and the worker known to have sent it. */
  function Served(s: System, ev: Event): Option<Request>
  {
    match ev
    case ServeCall(w, _) => if w in s.workers && s.workers[w].call.Sent? then Some(s.workers[w].call.request) else None
    case ServeBeat(w) => if w in s.workers && s.workers[w].beat.Sent? then Some(s.workers[w].beat.request) else None
    case ServeStray(request, _, _) => Some(request)
    case _ => None
  }

  /** The rows a served request can change. */
  lemma ServeTouches(c: Config, s: System, owner: Option<WorkerId>, request: Request, pick: Pick, id: JobId)
    requires CanServe(s, request, pick) && id in s.rows
    ensures id in Serve(c, s, owner, request, pick).rows
    ensures Serve(c, s, owner, request, pick).rows[id] != s.rows[id]
      ==> if request.ClaimRequest? then s.rows[id].status == Pending
          else request.claim.job == id && Fenced(s, request.claim)
  {
  }

  lemma EventTouches(c: Config, s: System, ev: Event, id: JobId)
    requires TableOk(s) && Enabled(c, s, ev) && id in s.rows
    ensures id in Apply(c, s, ev).rows
    ensures Apply(c, s, ev).rows[id] != s.rows[id]
      ==> || s.rows[id].status == Pending
          || (ev.Reap? && s.rows[id].lease.Some? && s.rows[id].lease.value.expiresAt <= s.now)
          || (Served(s, ev).Some? && !Served(s, ev).value.ClaimRequest?
              && Served(s, ev).value.claim.job == id && Fenced(s, Served(s, ev).value.claim))
  {
    match ev
    case ServeCall(w, pick) => ServeTouches(c, s, Some(w), s.workers[w].call.request, pick, id);
    case ServeBeat(w) => ServeTouches(c, s, Some(w), s.workers[w].beat.request, NoRow, id);
    case ServeStray(request, pick, _) => ServeTouches(c, s, None, request, pick, id);
    case Local(w, step) => assert ApplyLocal(c, s, w, step).rows == s.rows;
    case _ =>
  }

  /** The current token is held only by the worker it was issued to. */
  lemma SenderIsHolder(c: Config, s: System, ev: Event)
    requires Inv(s) && Enabled(c, s, ev) && (ev.ServeCall? || ev.ServeBeat?)
    requires Served(s, ev).Some? && !Served(s, ev).value.ClaimRequest?
    ensures ClaimOk(s, ev.worker, Served(s, ev).value.claim)
  {
    assert WorkerOk(s, ev.worker, s.workers[ev.worker]);
  }

  /**
    A leased row changes only at the hands of its lease: by a request that carries the current
    token while it is live, from the worker the token was issued to, or by the reaper once
    the lease has run out.
   */
  lemma OnlyHolderTouchesJob(c: Config, s: System, ev: Event, id: JobId)
    requires Reachable(c, s) && Enabled(c, s, ev)
    requires id in s.rows && s.rows[id].lease.Some?
    ensures id in Apply(c, s, ev).rows
    ensures Apply(c, s, ev).rows[id] != s.rows[id]
      ==> var lease := s.rows[id].lease.value;
          || (ev.Reap? && lease.expiresAt <= s.now)
          || (&& Served(s, ev).Some?
              && !Served(s, ev).value.ClaimRequest?
              && Served(s, ev).value.claim.token == lease.token
              && s.now < lease.expiresAt
              && (ev.ServeCall? || ev.ServeBeat? ==> ClaimOk(s, ev.worker, Served(s, ev).value.claim)))
  {
    ReachableInv(c, s);
    EventTouches(c, s, ev, id);
    if (ev.ServeCall? || ev.ServeBeat?) && Served(s, ev).Some? && !Served(s, ev).value.ClaimRequest? {
      SenderIsHolder(c, s, ev);
    }
  }

  /** A success that was reported happened, once, under the reporter's own live lease. */
  lemma ReportedSuccessIsReal(c: Config, s: System, w: WorkerId, t: Token)
    requires Reachable(c, s) && ReportedCompleted(w, t) in s.reports
    ensures t in s.grants && s.grants[t].owner == Some(w) && s.grants[t].job in s.rows
    ensures s.rows[s.grants[t].job].status == Completed
    ensures t !in s.reaped && t !in s.lost
    ensures forall u :: u in s.completions && s.completions[u] == s.grants[t].job ==> u == t
  {
    ReachableInv(c, s);
  }

  /** Once the reaper has taken a lease, no request carrying its token is accepted again. */
  lemma ReapedLeaseIsDead(c: Config, s: System, claim: Claim)
    requires Reachable(c, s) && claim.token in s.reaped
    ensures !Fenced(s, claim) && claim.token !in s.completions
    ensures forall w :: ReportedCompleted(w, claim.token) !in s.reports
  {
    ReachableInv(c, s);
  }

  /** Every lease ever issued for a job. */
  function IssuedFor(s: System, id: JobId): set<Token> {
    set t | t in s.grants && s.grants[t].job == id
  }

  /** A finished job never changes again and is never claimed again. */
  lemma FinishedJobStaysFinished(c: Config, s: System, ev: Event, id: JobId)
    requires Reachable(c, s) && Enabled(c, s, ev)
    requires id in s.rows && Terminal(s.rows[id])
    ensures id in Apply(c, s, ev).rows && Apply(c, s, ev).rows[id] == s.rows[id]
    ensures IssuedFor(Apply(c, s, ev), id) == IssuedFor(s, id)
  {
    ReachableInv(c, s);
    EventTouches(c, s, ev, id);
    SameGrants(c, s, ev);
  }

  /** Leases stay with their jobs, and a new one is for a job that waited. */
  predicate LeasesGrow(s: System, s': System) {
    && (forall t :: t in s.grants ==> t in s'.grants && s'.grants[t].job == s.grants[t].job)
    && forall t :: t in s'.grants && t !in s.grants ==>
         s'.grants[t].job in s.rows && s.rows[s'.grants[t].job].status == Pending
  }

  lemma ServeGrants(c: Config, s: System, owner: Option<WorkerId>, request: Request, pick: Pick)
    requires CanServe(s, request, pick)
    ensures LeasesGrow(s, Serve(c, s, owner, request, pick))
  {
  }

  lemma SameGrants(c: Config, s: System, ev: Event)
    requires Enabled(c, s, ev)
    ensures LeasesGrow(s, Apply(c, s, ev))
  {
    if ev.ServeCall? {
      ServeGrants(c, s, Some(ev.worker), s.workers[ev.worker].call.request, ev.pick);
    } else if ev.ServeBeat? {
      ServeGrants(c, s, Some(ev.worker), s.workers[ev.worker].beat.request, NoRow);
    } else if ev.ServeStray? {
      ServeGrants(c, s, None, ev.request, ev.pick);
    }
  }

  lemma {:induction false} FinishedOverRun(c: Config, start: Time, run: seq<Event>, more: seq<Event>, id: JobId)
    requires After(c, start, run).Some? && After(c, start, run + more).Some?
    requires id in After(c, start, run).value.rows && Terminal(After(c, start, run).value.rows[id])
    ensures
      var s, s' := After(c, start, run).value, After(c, start, run + more).value;
      id in s'.rows && s'.rows[id] == s.rows[id] && IssuedFor(s', id) == IssuedFor(s, id)
  {
    if more == [] {
      assert run + more == run;
    } else {
      var all, shorter := run + more, more[..|more| - 1];
      assert all[..|all| - 1] == run + shorter;
      FinishedOverRun(c, start, run, shorter, id);
      var before := After(c, start, run + shorter).value;
      assert Reachable(c, before);
      FinishedJobStaysFinished(c, before, all[|all| - 1], id);
    }
  }

  // ----- a job is claimed once per attempt

  ghost predicate AttemptsCounted(s: System) {
    && (forall t :: t in s.grants ==> s.grants[t].job in s.rows)
    && forall id :: id in s.rows ==> |IssuedFor(s, id)| == s.rows[id].attempts
  }

  lemma AttemptsUnchanged(s: System, s': System)
    requires AttemptsCounted(s)
    requires s'.grants.Keys == s.grants.Keys && forall t :: t in s.grants ==> s'.grants[t].job == s.grants[t].job
    requires forall id :: id in s.rows ==> id in s'.rows && s'.rows[id].attempts == s.rows[id].attempts
    requires forall id :: id in s'.rows && id !in s.rows ==> s'.rows[id].attempts == 0
    ensures AttemptsCounted(s')
  {
    forall id | id in s'.rows
      ensures |IssuedFor(s', id)| == s'.rows[id].attempts
    {
      assert IssuedFor(s', id) == IssuedFor(s, id);
      if id !in s.rows {
        assert IssuedFor(s, id) == {};
      }
    }
  }

  lemma ClaimCounted(c: Config, s: System, owner: Option<WorkerId>, pick: Pick)
    requires AttemptsCounted(s) && CanServe(s, ClaimRequest, pick)
    ensures AttemptsCounted(Serve(c, s, owner, ClaimRequest, pick))
  {
    if pick.PickRow? {
      var row := ClaimRow(s.rows[pick.id], pick.token, c.leaseSeconds, s.now);
      GrantCounted(s, pick.id, row, pick.token, Grant(pick.id, owner, s.now + LeaseMillis(c.leaseSeconds)));
    }
  }

  /** One more lease and one more attempt for one job. */
  lemma GrantCounted(s: System, job: JobId, row: Row, t: Token, grant: Grant)
    requires AttemptsCounted(s) && t !in s.grants && grant.job == job && job in s.rows
    requires row.attempts == s.rows[job].attempts + 1
    ensures AttemptsCounted(s.(rows := s.rows[job := row], grants := s.grants[t := grant]))
  {
    var s' := s.(rows := s.rows[job := row], grants := s.grants[t := grant]);
    forall id | id in s'.rows
      ensures |IssuedFor(s', id)| == s'.rows[id].attempts
    {
      IssuedAfterGrant(s, s', t, grant, id);
    }
  }

  lemma IssuedAfterGrant(s: System, s': System, t: Token, grant: Grant, id: JobId)
    requires t !in s.grants && s'.grants == s.grants[t := grant]
    ensures |IssuedFor(s', id)| == |IssuedFor(s, id)| + if id == grant.job then 1 else 0
  {
    if id == grant.job {
      assert IssuedFor(s', id) == IssuedFor(s, id) + {t};
    } else {
      assert IssuedFor(s', id) == IssuedFor(s, id);
    }
  }

  lemma BeatCounted(c: Config, s: System, owner: Option<WorkerId>, claim: Claim, serial: nat, pick: Pick)
    requires AttemptsCounted(s)
    ensures AttemptsCounted(Serve(c, s, owner, HeartbeatRequest(claim, serial), pick))
  {
    AttemptsUnchanged(s, Serve(c, s, owner, HeartbeatRequest(claim, serial), pick));
  }

  lemma SettlementCounted(c: Config, s: System, owner: Option<WorkerId>, request: Request, pick: Pick)
    requires AttemptsCounted(s) && (request.CompleteRequest? || request.FailRequest?)
    ensures AttemptsCounted(Serve(c, s, owner, request, pick))
  {
    AttemptsUnchanged(s, Serve(c, s, owner, request, pick));
  }

  lemma ServeCounted(c: Config, s: System, owner: Option<WorkerId>, request: Request, pick: Pick)
    requires AttemptsCounted(s) && CanServe(s, request, pick)
    ensures AttemptsCounted(Serve(c, s, owner, request, pick))
  {
    match request
    case ClaimRequest => ClaimCounted(c, s, owner, pick);
    case HeartbeatRequest(claim, serial) => BeatCounted(c, s, owner, claim, serial, pick);
    case _ => SettlementCounted(c, s, owner, request, pick);
  }

  /** What follows a served request leaves the jobs and the leases alone. */
  lemma CountedStays(s: System, s': System)
    requires AttemptsCounted(s) && s'.rows == s.rows && s'.grants == s.grants
    ensures AttemptsCounted(s')
  {
    AttemptsUnchanged(s, s');
  }

  lemma EventCounted(c: Config, s: System, ev: Event)
    requires AttemptsCounted(s) && Enabled(c, s, ev)
    ensures AttemptsCounted(Apply(c, s, ev))
  {
    if ev.ServeCall? {
      ServeCounted(c, s, Some(ev.worker), s.workers[ev.worker].call.request, ev.pick);
      CountedStays(Serve(c, s, Some(ev.worker), s.workers[ev.worker].call.request, ev.pick), Apply(c, s, ev));
    } else if ev.ServeBeat? {
      ServeCounted(c, s, Some(ev.worker), s.workers[ev.worker].beat.request, NoRow);
      CountedStays(Serve(c, s, Some(ev.worker), s.workers[ev.worker].beat.request, NoRow), Apply(c, s, ev));
    } else if ev.ServeStray? {
      ServeCounted(c, s, None, ev.request, ev.pick);
      CountedStays(Serve(c, s, None, ev.request, ev.pick), Apply(c, s, ev));
    } else {
      OtherEventCounted(c, s, ev);
    }
  }

  lemma OtherEventCounted(c: Config, s: System, ev: Event)
    requires AttemptsCounted(s) && Enabled(c, s, ev) && !ev.ServeCall? && !ev.ServeBeat? && !ev.ServeStray?
    ensures AttemptsCounted(Apply(c, s, ev))
  {
    AttemptsUnchanged(s, Apply(c, s, ev));
  }

  lemma {:induction false} RunCounted(c: Config, start: Time, run: seq<Event>)
    ensures After(c, start, run).Some? ==> AttemptsCounted(After(c, start, run).value)
  {
    if run == [] {
    } else {
      RunCounted(c, start, run[..|run| - 1]);
      if After(c, start, run).Some? {
        EventCounted(c, After(c, start, run[..|run| - 1]).value, run[|run| - 1]);
      }
    }
  }

  /** A job is handed out exactly once per attempt, so never more often than its budget allows. */
  lemma ClaimsAreAttempts(c: Config, s: System, id: JobId)
    requires Reachable(c, s) && id in s.rows
    ensures |IssuedFor(s, id)| == s.rows[id].attempts <= s.rows[id].maxAttempts
  {
    var start, run :| After(c, start, run) == Some(s);
    RunCounted(c, start, run);
    ReachableInv(c, s);
  }

  // ----- two workers on one job

  /** Of two workers that both hold the same job, at most one has a lease that is still live. */
  lemma OneLiveHolder(c: Config, s: System, v: WorkerId, w: WorkerId)
    requires Reachable(c, s) && v in s.workers && w in s.workers && v != w
    requires Held(s.workers[v]) && Held(s.workers[w])
    requires s.workers[v].claim.Some? && s.workers[w].claim.Some?
    requires s.workers[v].claim.value.job == s.workers[w].claim.value.job
    ensures var a, b := s.workers[v].claim.value.token, s.workers[w].claim.value.token;
      a in s.grants && b in s.grants && (s.grants[a].expiry <= s.now || s.grants[b].expiry <= s.now)
  {
    ReachableInv(c, s);
    assert WorkerOk(s, v, s.workers[v]) && WorkerOk(s, w, s.workers[w]);
  }
}
