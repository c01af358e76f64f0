/** What the database answers a worker, against what the table holds before and after. */
module WorkerAnswers {
  import opened Prelude
  import opened JobQueue
  import opened JobQueueResults
  import opened LeaseHeartbeat
  import opened WorkerProtocol
  import opened WorkerSafety

  /** The row is leased to the claim, and the lease has time left. */
  predicate LeasedTo(rows: Table, claim: Claim, now: Time) {
    && claim.job in rows
    && var r := rows[claim.job];
       r.workspace == claim.workspace && r.status == Processing
       && r.lease.Some? && r.lease.value.token == claim.token && now < r.lease.value.expiresAt
  }

  predicate OthersStay(rows: Table, after: Table, id: JobId) {
    rows.Keys == after.Keys && forall other :: other in rows && other != id ==> after[other] == rows[other]
  }

  /** A claim is answered with a job that waits, which is leased under a fresh token from then on; or with nothing. */
  lemma ClaimIsAnswered(c: Config, s: System, owner: Option<WorkerId>, pick: Pick)
    requires TableOk(s) && CanServe(s, ClaimRequest, pick)
    ensures var s', reply := Serve(c, s, owner, ClaimRequest, pick), ReplyTo(s, ClaimRequest, pick);
      && reply.ClaimReply? && (reply.found.Some? <==> pick.PickRow?)
      && (reply.found.None? ==> s' == s)
      && (reply.found.Some? ==>
            var claim := reply.found.value;
            && claim.job in s.rows && claim.token !in s.grants && OthersStay(s.rows, s'.rows, claim.job)
            && s.rows[claim.job].status == Pending && s.rows[claim.job].runAfter <= s.now
            && claim.workspace == s.rows[claim.job].workspace && claim.kind == s.rows[claim.job].kind
            && s'.rows[claim.job].attempts == s.rows[claim.job].attempts + 1
            && s'.grants == s.grants[claim.token := Grant(claim.job, owner, s.now + LeaseMillis(c.leaseSeconds))]
            && LeasedTo(s'.rows, claim, s.now))
  {
    LeaseLasts(c.leaseSeconds, 30_000);
    if pick.PickRow? {
      ClaimedJobIsLeased(s.rows[pick.id], pick.token, c.leaseSeconds, s.now);
    }
  }

  /** A heartbeat is answered with true exactly when the claim's lease is live; then it runs its full length from now. */
  lemma HeartbeatIsAnswered(c: Config, s: System, owner: Option<WorkerId>, claim: Claim, serial: nat, pick: Pick)
    requires TableOk(s)
    ensures var request := HeartbeatRequest(claim, serial);
      var s', reply := Serve(c, s, owner, request, pick), ReplyTo(s, request, pick);
      && reply == Flag(LeasedTo(s.rows, claim, s.now))
      && (!LeasedTo(s.rows, claim, s.now) ==> s' == s)
      && (LeasedTo(s.rows, claim, s.now) ==>
            && OthersStay(s.rows, s'.rows, claim.job)
            && s'.rows[claim.job].lease == Some(Lease(claim.token, s.now + LeaseMillis(c.leaseSeconds)))
            && s'.rows[claim.job].(lease := s.rows[claim.job].lease) == s.rows[claim.job])
  {
    if LeasedTo(s.rows, claim, s.now) {
      HeartbeatMovesExpiry(s.rows[claim.job], claim.token, c.leaseSeconds, s.now);
    }
  }

  /** A completion is answered with true exactly when the claim's lease is live; then the job is finished. */
  lemma CompletionIsAnswered(c: Config, s: System, owner: Option<WorkerId>, claim: Claim, pick: Pick)
    requires TableOk(s)
    ensures var s', reply := Serve(c, s, owner, CompleteRequest(claim), pick), ReplyTo(s, CompleteRequest(claim), pick);
      && reply == Flag(LeasedTo(s.rows, claim, s.now))
      && (!LeasedTo(s.rows, claim, s.now) ==> s' == s)
      && (LeasedTo(s.rows, claim, s.now) ==>
            && OthersStay(s.rows, s'.rows, claim.job)
            && s'.rows[claim.job].status == Completed && NeverHandedOut(s'.rows[claim.job])
            && s'.completions == s.completions[claim.token := claim.job])
  {
    if LeasedTo(s.rows, claim, s.now) {
      CompletedJobIsFinished(s.rows[claim.job], s.now);
    }
  }

  /**
    A failure is answered exactly when the claim's lease is live, with the status the job then has:
    pending, to be handed out again after its backoff, while it has attempts left, and otherwise failed.
   */
  lemma FailureIsAnswered(c: Config, s: System, owner: Option<WorkerId>, claim: Claim, error: string, pick: Pick)
    requires TableOk(s)
    ensures var s', reply := Serve(c, s, owner, FailRequest(claim, error), pick), ReplyTo(s, FailRequest(claim, error), pick);
      && reply.Outcome?
      && (reply.status.Some? <==> LeasedTo(s.rows, claim, s.now))
      && (reply.status.None? ==> s' == s)
      && (reply.status.Some? ==>
            var r, r' := s.rows[claim.job], s'.rows[claim.job];
            && OthersStay(s.rows, s'.rows, claim.job)
            && reply.status == Some(r'.status) && r'.lastError == Some(error)
            && (r'.status == Pending <==> r.attempts < r.maxAttempts)
            && (r'.status == Pending ==> HandedOutFrom(r', s.now + BackoffMillis(r.attempts)))
            && (r'.status != Pending ==> r'.status == Failed && NeverHandedOut(r')))
  {
    if LeasedTo(s.rows, claim, s.now) {
      FailedJobIsRetried(s.rows[claim.job], error, s.now);
    }
  }

  /** What a served request does to the table, and the answer its sender gets; of a request nobody waits for, nobody hears. */
  lemma AnswersArrive(c: Config, s: System, ev: Event)
    requires Enabled(c, s, ev) && (ev.ServeCall? || ev.ServeBeat? || ev.ServeStray?)
    ensures
      var request :=
        if ev.ServeCall? then s.workers[ev.worker].call.request
        else if ev.ServeBeat? then s.workers[ev.worker].beat.request else ev.request;
      var owner, pick := if ev.ServeStray? then None else Some(ev.worker), if ev.ServeBeat? then NoRow else ev.pick;
      var s', served := Apply(c, s, ev), Serve(c, s, owner, request, pick);
      && s'.rows == served.rows && s'.grants == served.grants && s'.completions == served.completions
      && (ev.ServeCall? ==>
            s'.workers == s.workers[ev.worker := s.workers[ev.worker].(call := Answered(ReplyTo(s, request, pick)))])
      && (ev.ServeBeat? ==>
            s'.workers == s.workers[ev.worker := s.workers[ev.worker].(beat := Answered(ReplyTo(s, request, pick)))])
      && (ev.ServeStray? ==> s'.workers == s.workers)
  {
    if ev.ServeCall? {
      ServeWrites(c, s, Some(ev.worker), s.workers[ev.worker].call.request, ev.pick);
    } else if ev.ServeBeat? {
      ServeWrites(c, s, Some(ev.worker), s.workers[ev.worker].beat.request, NoRow);
    } else {
      ServeWrites(c, s, None, ev.request, ev.pick);
    }
  }

  // ----- requests on their way

  predicate Awaits(wk: Worker, r: Request) {
    wk.call == Sent(r) || wk.beat == Sent(r)
  }

  /** The request has been sent, and may still reach the database. */
  ghost predicate OnItsWay(s: System, r: Request) {
    r in s.stray || exists w :: w in s.workers && Awaits(s.workers[w], r)
  }

  /** The event is the database's answer to the request. */
  predicate Answers(s: System, ev: Event, r: Request) {
    match ev
    case ServeCall(w, _) => w in s.workers && s.workers[w].call == Sent(r)
    case ServeBeat(w) => w in s.workers && s.workers[w].beat == Sent(r)
    case ServeStray(request, _, _) => request == r
    case _ => false
  }

  lemma StepKeepsRequests(c: Config, wk: Worker, step: Step, now: Time, r: Request)
    requires CanStep(wk, step) && PhaseOk(wk) && (wk.call.NoCall? || wk.phase.Claiming? || Settling(wk))
    ensures r in Abandons(wk, step) ==> Awaits(wk, r)
    ensures Awaits(wk, r) ==> Awaits(StepWorker(c, wk, step, now), r) || r in Abandons(wk, step)
  {
  }

  lemma WorkerGoesOn(s: System, s': System, w: WorkerId, abandoned: set<Request>, r: Request)
    requires w in s.workers && s'.workers.Keys == s.workers.Keys && s'.stray == s.stray + abandoned
    requires forall v :: v in s.workers && v != w ==> s'.workers[v] == s.workers[v]
    requires r in abandoned ==> Awaits(s.workers[w], r)
    requires Awaits(s.workers[w], r) ==> Awaits(s'.workers[w], r) || r in abandoned
    ensures OnItsWay(s, r) ==> OnItsWay(s', r)
    ensures OnItsWay(s', r) && !OnItsWay(s, r) ==> Awaits(s'.workers[w], r)
  {
    if v :| v in s.workers && Awaits(s.workers[v], r) {
      assert v != w ==> Awaits(s'.workers[v], r);
    }
    if v :| v in s'.workers && Awaits(s'.workers[v], r) {
      assert v != w ==> Awaits(s.workers[v], r);
    }
  }

  lemma OwnRequestsStay(c: Config, s: System, w: WorkerId, step: Step, r: Request)
    requires Inv(s) && Enabled(c, s, Local(w, step))
    ensures var s' := Apply(c, s, Local(w, step));
      && (OnItsWay(s, r) ==> OnItsWay(s', r))
      && (OnItsWay(s', r) && !OnItsWay(s, r) ==> Awaits(s'.workers[w], r))
  {
    var wk, s' := s.workers[w], Apply(c, s, Local(w, step));
    assert WorkerOk(s, w, wk);
    var wk' := StepWorker(c, wk, step, s.now);
    assert s'.workers == s.workers[w := wk'] && s'.stray == s.stray + Abandons(wk, step);
    StepKeepsRequests(c, wk, step, s.now, r);
    WorkerGoesOn(s, s', w, Abandons(wk, step), r);
  }

  lemma NothingNew(s: System, s': System, r: Request)
    requires WorkersWait(s, s') && OnItsWay(s', r)
    ensures OnItsWay(s, r)
  {
    if v :| v in s'.workers && Awaits(s'.workers[v], r) {
      assert v in s.workers ==> Awaits(s.workers[v], r);
    }
  }

  predicate StillAwaited(s: System, s': System, r: Request) {
    && (r in s.stray ==> r in s'.stray)
    && forall v :: v in s.workers && Awaits(s.workers[v], r) ==> v in s'.workers && Awaits(s'.workers[v], r)
  }

  lemma StillOnItsWay(s: System, s': System, r: Request)
    requires StillAwaited(s, s', r) && OnItsWay(s, r)
    ensures OnItsWay(s', r)
  {
    if v :| v in s.workers && Awaits(s.workers[v], r) {
      assert Awaits(s'.workers[v], r);
    }
  }

  lemma OtherRequestsStay(c: Config, s: System, ev: Event, r: Request)
    requires Enabled(c, s, ev) && !ev.Local?
    ensures var s' := Apply(c, s, ev);
      && (OnItsWay(s, r) && !Answers(s, ev, r) ==> OnItsWay(s', r))
      && (OnItsWay(s', r) ==> OnItsWay(s, r))
  {
    var s' := Apply(c, s, ev);
    EventWaits(c, s, ev);
    if OnItsWay(s', r) {
      NothingNew(s, s', r);
    }
    if OnItsWay(s, r) && !Answers(s, ev, r) {
      if ev.ServeCall? || ev.ServeBeat? || ev.ServeStray? {
        ServedLeavesOthers(c, s, ev, r);
      } else {
        UnservedLeaves(c, s, ev, r);
      }
      StillOnItsWay(s, s', r);
    }
  }

  lemma UnservedLeaves(c: Config, s: System, ev: Event, r: Request)
    requires Enabled(c, s, ev) && !ev.Local? && !(ev.ServeCall? || ev.ServeBeat? || ev.ServeStray?)
    ensures StillAwaited(s, Apply(c, s, ev), r)
  {
  }

  lemma ServedLeavesOthers(c: Config, s: System, ev: Event, r: Request)
    requires Enabled(c, s, ev) && (ev.ServeCall? || ev.ServeBeat? || ev.ServeStray?) && !Answers(s, ev, r)
    ensures StillAwaited(s, Apply(c, s, ev), r)
  {
    AnswersArrive(c, s, ev);
    if ev.ServeCall? {
      ServeWrites(c, s, Some(ev.worker), s.workers[ev.worker].call.request, ev.pick);
    } else if ev.ServeBeat? {
      ServeWrites(c, s, Some(ev.worker), s.workers[ev.worker].beat.request, NoRow);
    } else {
      ServeWrites(c, s, None, ev.request, ev.pick);
    }
  }

  /**
    Nothing but an answer stops a request on its way: giving up waiting for it, crashing and going on to
    another job do not. A new one is on its way only because a worker has just sent it.
   */
  lemma RequestsStayOnTheirWay(c: Config, s: System, ev: Event, r: Request)
    requires Reachable(c, s) && Enabled(c, s, ev)
    ensures var s' := Apply(c, s, ev);
      && (OnItsWay(s, r) && !Answers(s, ev, r) ==> OnItsWay(s', r))
      && (OnItsWay(s', r) && !OnItsWay(s, r) ==>
            ev.Local? && Awaits(s'.workers[ev.worker], r))
  {
    if ev.Local? {
      ReachableInv(c, s);
      OwnRequestsStay(c, s, ev.worker, ev.step, r);
    } else {
      OtherRequestsStay(c, s, ev, r);
    }
  }

  /** What a worker reports of a settlement is the answer it got, and it reports every settlement the database confirms. */
  lemma ReportsTellTheAnswer(c: Config, s: System, w: WorkerId)
    requires Reachable(c, s) && Enabled(c, s, Local(w, CallAnswered)) && !s.workers[w].phase.Claiming?
    ensures s.workers[w].claim.Some?
    ensures var t, reply := s.workers[w].claim.value.token, s.workers[w].call.reply;
      Apply(c, s, Local(w, CallAnswered)).reports == s.reports + (
        match reply
        case Flag(ok) => if ok then {ReportedCompleted(w, t)} else {}
        case Outcome(status) => if status.Some? then {ReportedFailed(w, t, status.value)} else {}
        case ClaimReply(_) => {})
  {
    ReachableInv(c, s);
    assert WorkerOk(s, w, s.workers[w]);
  }
}
