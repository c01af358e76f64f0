/**
  What every reachable state of the lease protocol satisfies, with no assumption on timing:
  any delay, any order, lost and late requests, crashes, shutdowns and reaper passes.
 */
module WorkerSafety {
  import opened Prelude
  import opened JobQueue
  import opened LeaseHeartbeat
  import opened WorkerProtocol
  import GuardedFetch

  // ----- the invariant

  ghost predicate NoDuplicates(tokens: seq<Token>) {
    forall i, j :: 0 <= i < j < |tokens| ==> tokens[i] != tokens[j]
  }

  /** The claim names a lease the database issued to this worker for this job. */
  predicate ClaimOk(s: System, w: WorkerId, claim: Claim) {
    && claim.token in s.grants
    && s.grants[claim.token].job == claim.job
    && s.grants[claim.token].owner == Some(w)
  }

  /** The row still carries the lease, unless the lease has run out. */
  predicate LeaseKept(s: System, claim: Claim)
    requires claim.token in s.grants
  {
    && claim.job in s.rows
    && (s.rows[claim.job].lease == Some(Lease(claim.token, s.grants[claim.token].expiry))
        || s.grants[claim.token].expiry <= s.now)
  }

  /** A claim that has been neither settled nor declared lost. */
  predicate Unsettled(s: System, w: WorkerId, claim: Claim) {
    ClaimOk(s, w, claim) && claim.token !in s.settlements && LeaseKept(s, claim)
  }

  predicate PhaseOk(wk: Worker) {
    && (Held(wk) || Settling(wk) ==> wk.claim.Some?)
    && (!Held(wk) ==> wk.beat.NoCall?)
    && (Live(wk) && !Held(wk) ==> !wk.handler.Running?)
    && (Held(wk) ==>
          && (wk.hb.inFlight <==> !wk.beat.NoCall?)
          && (wk.beat.Sent? ==> wk.beat.request.HeartbeatRequest? && wk.beat.request.claim == wk.claim.value)
          && (wk.beat.Answered? ==> wk.beat.reply.Flag?))
    && match wk.phase
       case Racing(None) => wk.handler.Running? && wk.hb.failure.None? && !wk.timedOut && !wk.hb.stopped
       case Racing(Some(winner)) =>
         && !wk.hb.stopped
         && (winner.HandlerDone? ==> wk.handler.Succeeded?)
         && (winner.HandlerFailed? ==> wk.handler.Threw?)
         && (winner.LeaseWasLost? ==> wk.hb.failure.Some?)
         && (winner.TimedOut? ==> wk.timedOut)
       case Stopping(outcome) =>
         && wk.hb.stopped
         && (outcome.None? ==> wk.handler.Succeeded?)
         && (outcome.Some? ==> wk.handler.Threw? || wk.hb.failure.Some? || wk.timedOut)
       case LeaseDrain => wk.hb.stopped && !wk.hb.inFlight && wk.hb.failure.Some?
       case TimeoutDrain(_) => wk.hb.stopped && !wk.hb.inFlight && wk.hb.failure.None? && wk.timedOut
       case Completing => wk.hb.stopped && !wk.hb.inFlight && wk.hb.failure.None? && wk.handler.Succeeded?
       case Failing(_) => wk.hb.stopped && !wk.hb.inFlight && wk.hb.failure.None?
       case _ => true
  }

  predicate CallOk(s: System, w: WorkerId, wk: Worker) {
    match wk.phase
    case Claiming =>
      && !wk.call.NoCall?
      && (wk.call.Sent? ==> wk.call.request == ClaimRequest)
      && (wk.call.Answered? ==>
            wk.call.reply.ClaimReply?
            && (wk.call.reply.found.Some? ==>
                  Unsettled(s, w, wk.call.reply.found.value) && wk.call.reply.found.value.token !in s.lost))
    case Completing =>
      && wk.claim.Some?
      && !wk.call.NoCall?
      && (wk.call.Sent? ==> wk.call.request == CompleteRequest(wk.claim.value))
      && (wk.call.Answered? ==>
            wk.call.reply.Flag? && (wk.call.reply.ok ==> wk.claim.value.token in s.completions))
    case Failing(error) =>
      && wk.claim.Some?
      && !wk.call.NoCall?
      && (wk.call.Sent? ==> wk.call.request == FailRequest(wk.claim.value, error))
      && (wk.call.Answered? ==> wk.call.reply.Outcome?)
    case _ => wk.call.NoCall?
  }

  predicate WorkerOk(s: System, w: WorkerId, wk: Worker) {
    && PhaseOk(wk)
    && CallOk(s, w, wk)
    && (Held(wk) ==>
          && Unsettled(s, w, wk.claim.value)
          && (wk.hb.failure.Some? <==> wk.claim.value.token in s.lost))
    && (Settling(wk) ==>
          && ClaimOk(s, w, wk.claim.value)
          && wk.claim.value.token in s.settlements)
  }

  predicate RequestOk(s: System, request: Request) {
    match request
    case ClaimRequest => true
    case HeartbeatRequest(claim, _) => claim.token in s.grants && s.grants[claim.token].job == claim.job
    case CompleteRequest(claim) =>
      claim.token in s.grants && s.grants[claim.token].job == claim.job && claim.token in s.settlements
    case FailRequest(claim, _) =>
      claim.token in s.grants && s.grants[claim.token].job == claim.job && claim.token in s.settlements
  }

  predicate TableOk(s: System) {
    forall id :: id in s.rows ==>
      && RowOk(s.rows[id])
      && (s.rows[id].lease.Some? ==>
            var lease := s.rows[id].lease.value;
            && lease.token in s.grants
            && s.grants[lease.token].job == id
            && s.grants[lease.token].expiry == lease.expiresAt
            && lease.token !in s.reaped
            && lease.token !in s.completions)
  }

  ghost predicate HistoryOk(s: System) {
    && NoDuplicates(s.settlements)
    && (forall t :: t in s.settlements ==> t in s.grants && t !in s.lost)
    && (forall t :: t in s.lost ==> t in s.grants)
    && (forall t :: t in s.reaped ==> t in s.grants && t !in s.completions)
    && (forall t :: t in s.completions ==>
          && t in s.grants && s.grants[t].job == s.completions[t] && t in s.settlements
          && s.completions[t] in s.rows && s.rows[s.completions[t]].status == Completed)
    && (forall t, u :: t in s.completions && u in s.completions && s.completions[t] == s.completions[u] ==> t == u)
    && (forall r :: r in s.reports ==>
          && r.token in s.settlements && r.token in s.grants && s.grants[r.token].owner == Some(r.worker)
          && (r.ReportedCompleted? ==> r.token in s.completions))
  }

  ghost predicate Inv(s: System) {
    && TableOk(s)
    && HistoryOk(s)
    && (forall w :: w in s.workers ==> WorkerOk(s, w, s.workers[w]))
    && (forall request :: request in s.stray ==> RequestOk(s, request))
  }

  // ----- events other than a worker's step

  /** Nothing happened to the worker, or one of the answers it waits for came. */
  predicate AtMostAnswered(wk: Worker, wk': Worker) {
    || wk' == wk
    || (wk.call.Sent? && wk'.call.Answered? && wk' == wk.(call := wk'.call))
    || (wk.beat.Sent? && wk'.beat.Answered? && wk' == wk.(beat := wk'.beat))
  }

  /** The workers wait, and nothing joins what they have sent, given up, settled or reported. */
  predicate WorkersWait(s: System, s': System) {
    && s.now <= s'.now
    && s'.stray <= s.stray && s'.tolerated == s.tolerated && s'.past == s.past
    && (forall w :: w in s.workers ==> w in s'.workers && AtMostAnswered(s.workers[w], s'.workers[w]))
    && forall w :: w in s'.workers && w !in s.workers ==> s'.workers[w] == FRESH_WORKER
  }

  /** The database writes its table and what is told of it. */
  lemma ServeWrites(c: Config, s: System, owner: Option<WorkerId>, request: Request, pick: Pick)
    requires CanServe(s, request, pick)
    ensures var s' := Serve(c, s, owner, request, pick);
      s' == s.(rows := s'.rows, grants := s'.grants, completions := s'.completions)
  {
  }

  lemma CallWaits(c: Config, s: System, w: WorkerId, pick: Pick)
    requires Enabled(c, s, ServeCall(w, pick))
    ensures WorkersWait(s, Apply(c, s, ServeCall(w, pick)))
  {
    ServeWrites(c, s, Some(w), s.workers[w].call.request, pick);
  }

  lemma BeatWaits(c: Config, s: System, w: WorkerId)
    requires Enabled(c, s, ServeBeat(w))
    ensures WorkersWait(s, Apply(c, s, ServeBeat(w)))
  {
    ServeWrites(c, s, Some(w), s.workers[w].beat.request, NoRow);
  }

  lemma EventWaits(c: Config, s: System, ev: Event)
    requires Enabled(c, s, ev) && !ev.Local?
    ensures WorkersWait(s, Apply(c, s, ev))
  {
    if ev.ServeCall? {
      CallWaits(c, s, ev.worker, ev.pick);
    } else if ev.ServeBeat? {
      BeatWaits(c, s, ev.worker);
    } else if ev.ServeStray? {
      ServeWrites(c, s, None, ev.request, ev.pick);
    }
  }

  // ----- database steps keep it

  /** A served request disturbs no other claim. */
  lemma ServeKeepsClaims(c: Config, s: System, owner: Option<WorkerId>, request: Request, pick: Pick, w: WorkerId, claim: Claim)
    requires TableOk(s) && CanServe(s, request, pick) && RequestOk(s, request)
    requires Unsettled(s, w, claim)
    ensures Unsettled(Serve(c, s, owner, request, pick), w, claim)
  {
  }

  lemma ServeKeepsTable(c: Config, s: System, owner: Option<WorkerId>, request: Request, pick: Pick)
    requires TableOk(s) && HistoryOk(s) && CanServe(s, request, pick)
    ensures TableOk(Serve(c, s, owner, request, pick))
  {
  }

  lemma CompleteKeepsHistory(c: Config, s: System, owner: Option<WorkerId>, claim: Claim)
    requires TableOk(s) && HistoryOk(s) && RequestOk(s, CompleteRequest(claim))
    ensures HistoryOk(Serve(c, s, owner, CompleteRequest(claim), NoRow))
  {
  }

  lemma OtherRequestKeepsHistory(c: Config, s: System, owner: Option<WorkerId>, request: Request, pick: Pick)
    requires TableOk(s) && HistoryOk(s) && CanServe(s, request, pick) && !request.CompleteRequest?
    ensures HistoryOk(Serve(c, s, owner, request, pick))
  {
  }

  lemma ServeKeepsHistory(c: Config, s: System, owner: Option<WorkerId>, request: Request, pick: Pick)
    requires TableOk(s) && HistoryOk(s) && CanServe(s, request, pick) && RequestOk(s, request)
    ensures HistoryOk(Serve(c, s, owner, request, pick))
  {
    if request.CompleteRequest? {
      CompleteKeepsHistory(c, s, owner, request.claim);
    } else {
      OtherRequestKeepsHistory(c, s, owner, request, pick);
    }
  }

  lemma ServeKeepsWorker(c: Config, s: System, owner: Option<WorkerId>, request: Request, pick: Pick, w: WorkerId, wk: Worker)
    requires TableOk(s) && CanServe(s, request, pick) && RequestOk(s, request)
    requires WorkerOk(s, w, wk)
    ensures WorkerOk(Serve(c, s, owner, request, pick), w, wk)
  {
    if Held(wk) {
      ServeKeepsClaims(c, s, owner, request, pick, w, wk.claim.value);
    }
    if wk.phase.Claiming? && wk.call.Answered? && wk.call.reply.found.Some? {
      ServeKeepsClaims(c, s, owner, request, pick, w, wk.call.reply.found.value);
    }
  }

  lemma ServeKeepsInv(c: Config, s: System, owner: Option<WorkerId>, request: Request, pick: Pick)
    requires Inv(s) && CanServe(s, request, pick) && RequestOk(s, request)
    ensures Inv(Serve(c, s, owner, request, pick))
  {
    ServeKeepsTable(c, s, owner, request, pick);
    ServeKeepsHistory(c, s, owner, request, pick);
    forall w | w in s.workers
      ensures WorkerOk(Serve(c, s, owner, request, pick), w, s.workers[w])
    {
      ServeKeepsWorker(c, s, owner, request, pick, w, s.workers[w]);
    }
  }

  /** The database's part of it. */
  lemma CallIsServed(c: Config, s: System, w: WorkerId, pick: Pick)
    requires Inv(s) && Enabled(c, s, ServeCall(w, pick))
    ensures var mid := Serve(c, s, Some(w), s.workers[w].call.request, pick);
      Inv(mid) && mid.workers == s.workers && WorkerOk(mid, w, s.workers[w])
  {
    var request := s.workers[w].call.request;
    assert WorkerOk(s, w, s.workers[w]);
    assert RequestOk(s, request);
    ServeKeepsInv(c, s, Some(w), request, pick);
    ServeWrites(c, s, Some(w), request, pick);
    ServeKeepsWorker(c, s, Some(w), request, pick, w, s.workers[w]);
  }

  lemma ServeCallKeepsInv(c: Config, s: System, w: WorkerId, pick: Pick)
    requires Inv(s) && Enabled(c, s, ServeCall(w, pick))
    ensures Inv(Apply(c, s, ServeCall(w, pick)))
  {
    var request := s.workers[w].call.request;
    assert WorkerOk(s, w, s.workers[w]);
    CallIsServed(c, s, w, pick);
    AnswerIsOk(c, s, w, pick);
    UpdateWorker(Serve(c, s, Some(w), request, pick), w, s.workers[w].(call := Answered(ReplyTo(s, request, pick))));
  }

  /** A worker may rely on the reply it gets. */
  lemma AnswerIsOk(c: Config, s: System, w: WorkerId, pick: Pick)
    requires TableOk(s) && HistoryOk(s) && Enabled(c, s, ServeCall(w, pick))
    requires var request := s.workers[w].call.request;
      && CallOk(s, w, s.workers[w])
      && WorkerOk(Serve(c, s, Some(w), request, pick), w, s.workers[w])
    ensures var request := s.workers[w].call.request;
      WorkerOk(Serve(c, s, Some(w), request, pick), w, s.workers[w].(call := Answered(ReplyTo(s, request, pick))))
  {
    if pick.PickRow? && s.workers[w].call.request.ClaimRequest? {
      assert pick.token !in s.settlements && pick.token !in s.lost;
    }
  }

  lemma ServeBeatKeepsInv(c: Config, s: System, w: WorkerId)
    requires Inv(s) && Enabled(c, s, ServeBeat(w))
    ensures Inv(Apply(c, s, ServeBeat(w)))
  {
    var request := s.workers[w].beat.request;
    assert WorkerOk(s, w, s.workers[w]);
    assert RequestOk(s, request);
    ServeKeepsInv(c, s, Some(w), request, NoRow);
    var mid := Serve(c, s, Some(w), request, NoRow);
    var reply := ReplyTo(s, request, NoRow);
    BeatAnswerIsOk(mid, w, s.workers[w], reply);
    UpdateWorker(mid, w, s.workers[w].(beat := Answered(reply)));
  }

  lemma BeatAnswerIsOk(s: System, w: WorkerId, wk: Worker, reply: Reply)
    requires WorkerOk(s, w, wk) && wk.beat.Sent? && reply.Flag?
    ensures WorkerOk(s, w, wk.(beat := Answered(reply)))
  {
  }

  lemma ServeStrayKeepsInv(c: Config, s: System, request: Request, pick: Pick, again: bool)
    requires Inv(s) && Enabled(c, s, ServeStray(request, pick, again))
    ensures Inv(Apply(c, s, ServeStray(request, pick, again)))
  {
    ServeKeepsInv(c, s, None, request, pick);
    var mid := Serve(c, s, None, request, pick);
    FewerStray(mid, if again then s.stray else s.stray - {request});
  }

  lemma FewerStray(s: System, stray: set<Request>)
    requires Inv(s) && stray <= s.stray
    ensures Inv(s.(stray := stray))
  {
    var s' := s.(stray := stray);
    forall w | w in s'.workers
      ensures WorkerOk(s', w, s'.workers[w])
    {
      assert WorkerOk(s, w, s.workers[w]);
    }
  }

  /** Only worker `w` changes. */
  lemma UpdateWorker(s: System, w: WorkerId, wk: Worker)
    requires Inv(s) && WorkerOk(s, w, wk)
    ensures Inv(s.(workers := s.workers[w := wk]))
  {
    var s' := s.(workers := s.workers[w := wk]);
    forall v | v in s'.workers
      ensures WorkerOk(s', v, s'.workers[v])
    {
      assert WorkerOk(s, v, s'.workers[v]);
    }
  }

  /** No lease is issued, moved or settled; a lease may leave its row once it has run out. */
  predicate LeasesStay(s: System, s': System) {
    && s'.grants == s.grants && s'.settlements == s.settlements && s'.lost == s.lost && s'.completions == s.completions
    && s'.stray == s.stray && s'.reports == s.reports
    && s.now <= s'.now
    && forall id :: id in s.rows ==>
         && id in s'.rows
         && (s.rows[id].lease.Some? ==>
               s'.rows[id].lease == s.rows[id].lease || s.rows[id].lease.value.expiresAt <= s'.now)
         && (s.rows[id].status == Completed ==> s'.rows[id].status == Completed)
  }

  lemma LeasesStayKeepsWorker(s: System, s': System, w: WorkerId, wk: Worker)
    requires TableOk(s) && LeasesStay(s, s') && WorkerOk(s, w, wk)
    ensures WorkerOk(s', w, wk)
  {
  }

  lemma LeasesStayKeepsInv(s: System, s': System)
    requires Inv(s) && LeasesStay(s, s') && TableOk(s')
    requires forall t :: t in s'.reaped ==> t in s.reaped || (t in s.grants && t !in s.completions)
    requires forall w :: w in s'.workers ==> (w in s.workers && s'.workers[w] == s.workers[w]) || s'.workers[w] == FRESH_WORKER
    ensures Inv(s')
  {
    forall w | w in s'.workers
      ensures WorkerOk(s', w, s'.workers[w])
    {
      if w in s.workers && s'.workers[w] == s.workers[w] {
        LeasesStayKeepsWorker(s, s', w, s.workers[w]);
      }
    }
    assert HistoryOk(s');
    forall request | request in s'.stray
      ensures RequestOk(s', request)
    {
      assert RequestOk(s, request);
    }
  }

  lemma ReapKeepsInv(c: Config, s: System, locked: set<JobId>)
    requires Inv(s)
    ensures Inv(Apply(c, s, Reap(locked)))
  {
    LeasesStayKeepsInv(s, Apply(c, s, Reap(locked)));
  }

  /** Events that touch no lease. */
  lemma TableEventKeepsInv(c: Config, s: System, ev: Event)
    requires Inv(s) && Enabled(c, s, ev)
    requires ev.Advance? || ev.Enqueue? || ev.Cancel? || ev.Spawn?
    ensures Inv(Apply(c, s, ev))
  {
    LeasesStayKeepsInv(s, Apply(c, s, ev));
  }

  lemma FetchKeepsInv(s: System, wire: seq<Wire>)
    requires Inv(s)
    ensures Inv(s.(wire := wire))
  {
    LeasesStayKeepsInv(s, s.(wire := wire));
  }

  // ----- worker steps keep it

  /** The worker's own state stays consistent. */
  lemma StepKeepsPhase(c: Config, wk: Worker, step: Step, now: Time)
    requires CanStep(wk, step) && PhaseOk(wk)
    ensures PhaseOk(StepWorker(c, wk, step, now))
  {
  }

  /**
    The heart of runOnce: a settlement is sent only once the handler has stopped, by a worker
    whose heartbeat has stopped too and never failed; a failed heartbeat is never forgotten.
   */
  lemma StepSettlesCleanly(c: Config, wk: Worker, step: Step, now: Time)
    requires CanStep(wk, step) && PhaseOk(wk)
    ensures var wk' := StepWorker(c, wk, step, now);
      && (Held(wk) && Settling(wk') ==>
            wk.hb.failure.None? && wk'.claim == wk.claim && !wk.handler.Running? && wk.hb.stopped && !wk.hb.inFlight
            && wk'.hb.failure.None?)
      && (Held(wk) && wk.hb.failure.Some? ==> Held(wk') || wk'.phase in {Idle, RestartRequired, Crashed})
      && (Held(wk) && Held(wk') ==> wk'.claim == wk.claim && (wk.hb.failure.Some? ==> wk'.hb.failure.Some?))
      && (Held(wk) && !Held(wk') && !Settling(wk') ==> wk'.hb.failure == wk.hb.failure)
      && (!Held(wk) && Held(wk') ==>
            wk.phase.Claiming? && wk.call.Answered? && wk.call.reply.ClaimReply? && wk.call.reply.found == wk'.claim
            && wk'.hb.failure.None?)
      && (Settling(wk) && Settling(wk') ==> wk' == wk.(shutdown := true))
      && (!Held(wk) && !Settling(wk) ==> !Settling(wk'))
  {
  }

  lemma StepCalls(c: Config, wk: Worker, step: Step, now: Time)
    requires CanStep(wk, step) && PhaseOk(wk)
    ensures var wk' := StepWorker(c, wk, step, now);
      && (wk.phase.Claiming? && wk'.phase.Claiming? ==> wk'.call == wk.call)
      && (!wk.phase.Claiming? && wk'.phase.Claiming? ==> wk'.call == Sent(ClaimRequest))
      && (!Settling(wk) && wk'.phase.Completing? ==> wk'.claim.Some? && wk'.call == Sent(CompleteRequest(wk'.claim.value)))
      && (!Settling(wk) && wk'.phase.Failing? ==>
            wk'.claim.Some? && wk'.call == Sent(FailRequest(wk'.claim.value, wk'.phase.error)))
      && (!wk'.phase.Claiming? && !Settling(wk') && (wk.phase.Claiming? || Settling(wk)) ==> wk'.call.NoCall?)
      && (!wk'.phase.Claiming? && !Settling(wk') && !wk.phase.Claiming? && !Settling(wk) ==>
            wk'.call == wk.call || wk'.call.NoCall?)
  {
  }

  /** What a step of `w` may add to the network and the history. */
  ghost predicate CommitOk(s: System, w: WorkerId, wk: Worker, abandoned: set<Request>, settled: seq<Token>,
                           lost: set<Token>, reports: set<Report>)
  {
    && w in s.workers
    && |settled| <= 1
    && (forall t :: t in settled || t in lost ==>
          && t in s.grants && s.grants[t].owner == Some(w)
          && t !in s.settlements && t !in s.lost && !(t in settled && t in lost))
    && (forall request :: request in abandoned ==> RequestOk(s, request))
    && (forall r :: r in reports ==>
          && r.worker == w && r.token in s.settlements && r.token in s.grants && s.grants[r.token].owner == Some(w)
          && (r.ReportedCompleted? ==> r.token in s.completions))
  }

  lemma CommitKeepsHistory(s: System, w: WorkerId, wk: Worker, abandoned: set<Request>, tolerated: set<Request>,
                           settled: seq<Token>, lost: set<Token>, reports: set<Report>, past: map<Token, Past>)
    requires TableOk(s) && HistoryOk(s) && CommitOk(s, w, wk, abandoned, settled, lost, reports)
    ensures HistoryOk(Commit(s, w, wk, abandoned, tolerated, settled, lost, reports, past))
    ensures TableOk(Commit(s, w, wk, abandoned, tolerated, settled, lost, reports, past))
  {
    var s' := Commit(s, w, wk, abandoned, tolerated, settled, lost, reports, past);
    assert NoDuplicates(s'.settlements) by {
      forall i, j | 0 <= i < j < |s'.settlements|
        ensures s'.settlements[i] != s'.settlements[j]
      {
        if j == |s.settlements| {
          assert s'.settlements[i] in s.settlements && s'.settlements[j] in settled;
        }
      }
    }
  }

  lemma CommitKeepsOthers(s: System, w: WorkerId, wk: Worker, abandoned: set<Request>, tolerated: set<Request>,
                          settled: seq<Token>, lost: set<Token>, reports: set<Report>, past: map<Token, Past>, v: WorkerId)
    requires CommitOk(s, w, wk, abandoned, settled, lost, reports)
    requires v in s.workers && v != w && WorkerOk(s, v, s.workers[v])
    ensures WorkerOk(Commit(s, w, wk, abandoned, tolerated, settled, lost, reports, past), v, s.workers[v])
  {
  }

  lemma StepCommits(c: Config, s: System, w: WorkerId, step: Step)
    requires Inv(s) && Enabled(c, s, Local(w, step))
    ensures
      var wk := s.workers[w];
      var wk' := StepWorker(c, wk, step, s.now);
      CommitOk(s, w, wk', Abandons(wk, step),
           Settles(wk, wk'), Loses(wk, wk'),
           ReportOf(w, wk, step))
  {
    assert WorkerOk(s, w, s.workers[w]);
    StepSettles(c, s, w, step);
    StepReports(s, w, step);
    StepAbandons(s, w, step);
  }

  /** A lease the step settles or declares lost is its own, and neither has happened to it. */
  lemma StepSettles(c: Config, s: System, w: WorkerId, step: Step)
    requires HistoryOk(s) && Enabled(c, s, Local(w, step)) && WorkerOk(s, w, s.workers[w])
    ensures
      var wk := s.workers[w];
      var wk' := StepWorker(c, wk, step, s.now);
      && |Settles(wk, wk')| <= 1
      && forall t :: t in Settles(wk, wk') || t in Loses(wk, wk') ==>
           && t in s.grants && s.grants[t].owner == Some(w)
           && t !in s.settlements && t !in s.lost && !(t in Settles(wk, wk') && t in Loses(wk, wk'))
  {
    StepSettlesCleanly(c, s.workers[w], step, s.now);
  }

  lemma StepReports(s: System, w: WorkerId, step: Step)
    requires HistoryOk(s) && w in s.workers && CanStep(s.workers[w], step) && WorkerOk(s, w, s.workers[w])
    ensures forall r :: r in ReportOf(w, s.workers[w], step) ==>
      && r.worker == w && r.token in s.settlements && r.token in s.grants && s.grants[r.token].owner == Some(w)
      && (r.ReportedCompleted? ==> r.token in s.completions)
  {
  }

  lemma StepAbandons(s: System, w: WorkerId, step: Step)
    requires w in s.workers && WorkerOk(s, w, s.workers[w])
    ensures forall request :: request in Abandons(s.workers[w], step) ==> RequestOk(s, request)
  {
  }

  lemma StepKeepsOwnWorker(c: Config, s: System, w: WorkerId, step: Step)
    requires Inv(s) && Enabled(c, s, Local(w, step))
    ensures WorkerOk(ApplyLocal(c, s, w, step), w, StepWorker(c, s.workers[w], step, s.now))
  {
    var wk := s.workers[w];
    assert WorkerOk(s, w, wk);
    StepKeepsPhase(c, wk, step, s.now);
    StepKeepsOwnClaim(c, s, w, step);
    StepKeepsOwnCall(c, s, w, step);
  }

  lemma StepKeepsOwnClaim(c: Config, s: System, w: WorkerId, step: Step)
    requires HistoryOk(s) && Enabled(c, s, Local(w, step)) && WorkerOk(s, w, s.workers[w])
    ensures var s', wk' := ApplyLocal(c, s, w, step), StepWorker(c, s.workers[w], step, s.now);
      && (Held(wk') ==>
            && wk'.claim.Some? && Unsettled(s', w, wk'.claim.value)
            && (wk'.hb.failure.Some? <==> wk'.claim.value.token in s'.lost))
      && (Settling(wk') ==>
            wk'.claim.Some? && ClaimOk(s', w, wk'.claim.value) && wk'.claim.value.token in s'.settlements)
  {
    StepKeepsPhase(c, s.workers[w], step, s.now);
    StepSettlesCleanly(c, s.workers[w], step, s.now);
  }

  lemma StepKeepsOwnCall(c: Config, s: System, w: WorkerId, step: Step)
    requires HistoryOk(s) && Enabled(c, s, Local(w, step)) && WorkerOk(s, w, s.workers[w])
    ensures CallOk(ApplyLocal(c, s, w, step), w, StepWorker(c, s.workers[w], step, s.now))
  {
    StepSettlesCleanly(c, s.workers[w], step, s.now);
    StepCalls(c, s.workers[w], step, s.now);
  }

  lemma CommitKeepsInv(s: System, w: WorkerId, wk: Worker, abandoned: set<Request>, tolerated: set<Request>,
                       settled: seq<Token>, lost: set<Token>, reports: set<Report>, past: map<Token, Past>)
    requires Inv(s) && CommitOk(s, w, wk, abandoned, settled, lost, reports)
    requires WorkerOk(Commit(s, w, wk, abandoned, tolerated, settled, lost, reports, past), w, wk)
    ensures Inv(Commit(s, w, wk, abandoned, tolerated, settled, lost, reports, past))
  {
    var s' := Commit(s, w, wk, abandoned, tolerated, settled, lost, reports, past);
    CommitKeepsHistory(s, w, wk, abandoned, tolerated, settled, lost, reports, past);
    forall v | v in s'.workers && v != w
      ensures WorkerOk(s', v, s'.workers[v])
    {
      CommitKeepsOthers(s, w, wk, abandoned, tolerated, settled, lost, reports, past, v);
    }
    forall request | request in s'.stray
      ensures RequestOk(s', request)
    {
      assert RequestOk(s, request);
    }
  }

  lemma StepKeepsInv(c: Config, s: System, w: WorkerId, step: Step)
    requires Inv(s) && Enabled(c, s, Local(w, step))
    ensures Inv(ApplyLocal(c, s, w, step))
  {
    var wk := s.workers[w];
    var wk' := StepWorker(c, wk, step, s.now);
    StepCommits(c, s, w, step);
    StepKeepsOwnWorker(c, s, w, step);
    CommitKeepsInv(s, w, wk', Abandons(wk, step), Tolerates(wk, wk', step),
                   Settles(wk, wk'), Loses(wk, wk'),
                   ReportOf(w, wk, step), LeftBehind(w, wk, wk'));
  }

  lemma ServedEventKeepsInv(c: Config, s: System, ev: Event)
    requires Inv(s) && Enabled(c, s, ev) && (ev.ServeCall? || ev.ServeBeat? || ev.ServeStray?)
    ensures Inv(Apply(c, s, ev))
  {
    if ev.ServeCall? {
      ServeCallKeepsInv(c, s, ev.worker, ev.pick);
    } else if ev.ServeBeat? {
      ServeBeatKeepsInv(c, s, ev.worker);
    } else {
      ServeStrayKeepsInv(c, s, ev.request, ev.pick, ev.again);
    }
  }

  lemma EventKeepsInv(c: Config, s: System, ev: Event)
    requires Inv(s) && Enabled(c, s, ev)
    ensures Inv(Apply(c, s, ev))
  {
    if ev.Local? {
      StepKeepsInv(c, s, ev.worker, ev.step);
    } else if ev.ServeCall? || ev.ServeBeat? || ev.ServeStray? {
      ServedEventKeepsInv(c, s, ev);
    } else if ev.Fetch? || ev.FetchLate? {
      FetchKeepsInv(s, Apply(c, s, ev).wire);
    } else if ev.Reap? {
      ReapKeepsInv(c, s, ev.locked);
    } else {
      TableEventKeepsInv(c, s, ev);
    }
  }

  lemma {:induction false} RunKeepsInv(c: Config, start: Time, run: seq<Event>)
    ensures After(c, start, run).Some? ==> Inv(After(c, start, run).value)
  {
    if run != [] {
      RunKeepsInv(c, start, run[..|run| - 1]);
      if After(c, start, run).Some? {
        EventKeepsInv(c, After(c, start, run[..|run| - 1]).value, run[|run| - 1]);
      }
    }
  }

  lemma ReachableInv(c: Config, s: System)
    requires Reachable(c, s)
    ensures Inv(s)
  {
    var start, run :| After(c, start, run) == Some(s);
    RunKeepsInv(c, start, run);
  }

  lemma ReachableStart(c: Config, start: Time)
    ensures Reachable(c, Init(start))
  {
    assert After(c, start, []) == Some(Init(start));
  }

  lemma ReachableNext(c: Config, s: System, ev: Event)
    requires Reachable(c, s) && Enabled(c, s, ev)
    ensures Reachable(c, Apply(c, s, ev))
  {
    var start, run :| After(c, start, run) == Some(s);
    var longer := run + [ev];
    assert longer[..|longer| - 1] == run;
    assert After(c, start, longer) == Some(Apply(c, s, ev));
  }
}
