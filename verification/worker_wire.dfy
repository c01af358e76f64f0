/** What handlers send to providers: an abort is final for the claim it struck. */
module WorkerWire {
  import opened Prelude
  import opened JobQueue
  import opened LeaseHeartbeat
  import opened WorkerProtocol
  import opened WorkerSafety
  import GuardedFetch

  // ----- claims are never taken up twice

  /** The claim a worker was answered and is about to start. */
  function Promised(wk: Worker): Option<Claim> {
    if wk.phase.Claiming? && wk.call.Answered? && wk.call.reply.ClaimReply? then wk.call.reply.found else None
  }

  predicate ClaimsKept(s: System) {
    forall w :: w in s.workers && s.workers[w].claim.Some? ==> ClaimOk(s, w, s.workers[w].claim.value)
  }

  /** No worker has the lease yet, nothing went out under it, and no heartbeat of it is on its way. */
  predicate Unused(s: System, t: Token) {
    && (forall v :: v in s.workers && s.workers[v].claim.Some? ==> s.workers[v].claim.value.token != t)
    && (forall i :: 0 <= i < |s.wire| ==> s.wire[i].token != t)
    && t !in s.past
    && (forall request :: request in s.stray && request.HeartbeatRequest? ==> request.claim.token != t)
  }

  predicate PromisesUnused(s: System) {
    forall w :: w in s.workers && Promised(s.workers[w]).Some? ==> Unused(s, Promised(s.workers[w]).value.token)
  }

  /** Every entry is of a lease issued to its worker. */
  predicate WireOwned(s: System) {
    forall i :: 0 <= i < |s.wire| ==>
      && s.wire[i].worker in s.workers && s.wire[i].token in s.grants
      && s.grants[s.wire[i].token].owner == Some(s.wire[i].worker)
  }

  /** What went out after an abort went out for a claim that is still aborted, if its worker still has it. */
  predicate AbortsStand(s: System) {
    forall i :: 0 <= i < |s.wire| && s.wire[i].aborted && s.wire[i].worker in s.workers ==>
      var wk := s.workers[s.wire[i].worker];
      wk.claim.Some? && wk.claim.value.token == s.wire[i].token ==> Aborted(wk)
  }

  /** So it is with the claims left behind. */
  predicate PastAbortsStand(s: System) {
    forall i :: 0 <= i < |s.wire| && s.wire[i].aborted && s.wire[i].token in s.past ==>
      s.past[s.wire[i].token].worker in s.workers && PastAborted(s, s.wire[i].token)
  }

  /** A claim left behind is of a lease issued to its worker. */
  predicate PastOwned(s: System) {
    forall t :: t in s.past ==>
      s.past[t].worker in s.workers && t in s.grants && s.grants[t].owner == Some(s.past[t].worker)
  }

  /** Nobody's present claim has been left behind. */
  predicate PastIsOver(s: System) {
    forall w :: w in s.workers && s.workers[w].claim.Some? ==> s.workers[w].claim.value.token !in s.past
  }

  predicate AbortsAreFinal(s: System) {
    forall i, j :: 0 <= i < j < |s.wire| && s.wire[i].token == s.wire[j].token && s.wire[i].aborted ==> s.wire[j].aborted
  }

  ghost predicate OnlyPermitted(s: System) {
    forall i :: 0 <= i < |s.wire| ==>
      GuardedFetch.HandlerFetch(s.wire[i].kind, s.wire[i].aborted, s.wire[i].transport, s.wire[i].request).Some?
  }

  ghost predicate UseInv(s: System) {
    ClaimsKept(s) && PromisesUnused(s) && PastOwned(s) && PastIsOver(s)
  }

  ghost predicate WireInv(s: System) {
    WireOwned(s) && AbortsStand(s) && PastAbortsStand(s) && AbortsAreFinal(s) && OnlyPermitted(s)
  }

  // ----- one worker step

  /** A step keeps the claim or takes up the promised one; a kept claim stays aborted. */
  lemma StepKeepsClaim(c: Config, wk: Worker, step: Step, now: Time)
    requires CanStep(wk, step) && PhaseOk(wk)
    ensures var wk' := StepWorker(c, wk, step, now);
      && (wk'.claim == wk.claim || (wk'.claim.Some? && wk'.claim == Promised(wk)))
      && (wk'.claim == wk.claim && wk'.claim != Promised(wk) && Aborted(wk) ==> Aborted(wk'))
      && (wk.shutdown ==> wk'.shutdown)
      && (Promised(wk').Some? ==> Promised(wk') == Promised(wk) && wk'.claim == wk.claim)
  {
  }

  lemma AbandonedBeats(wk: Worker, step: Step)
    requires PhaseOk(wk)
    ensures forall request :: request in Abandons(wk, step) && request.HeartbeatRequest? && (wk.call.Sent? ==> !wk.call.request.HeartbeatRequest?) ==>
      wk.claim.Some? && request.claim == wk.claim.value
  {
  }

  // ----- events that leave the workers' claims alone

  /** The worker has the same claim, aborted or not as before. */
  predicate SameClaim(wk: Worker, wk': Worker) {
    wk'.claim == wk.claim && Aborted(wk') == Aborted(wk) && wk'.shutdown == wk.shutdown
  }

  /** Leases are kept, no worker takes up a claim, and nothing is sent. */
  predicate Quiet(s: System, s': System) {
    && s'.wire == s.wire && s'.stray <= s.stray && s'.past == s.past
    && (forall t :: t in s.grants ==> t in s'.grants && s'.grants[t].owner == s.grants[t].owner && s'.grants[t].job == s.grants[t].job)
    && (forall w :: w in s.workers ==> w in s'.workers && SameClaim(s.workers[w], s'.workers[w]))
    && (forall w :: w in s'.workers && w !in s.workers ==> s'.workers[w] == FRESH_WORKER)
  }

  lemma QuietKeepsUse(s: System, s': System)
    requires UseInv(s) && WireInv(s) && Quiet(s, s')
    requires forall w :: w in s'.workers && Promised(s'.workers[w]).Some? ==>
      (w in s.workers && Promised(s.workers[w]) == Promised(s'.workers[w])) || Unused(s, Promised(s'.workers[w]).value.token)
    ensures UseInv(s') && WireInv(s')
  {
    forall w | w in s'.workers && Promised(s'.workers[w]).Some?
      ensures Unused(s', Promised(s'.workers[w]).value.token)
    {
      assert Unused(s, Promised(s'.workers[w]).value.token);
    }
  }

  /** A token the database makes up has not been used. */
  lemma NewTokenIsUnused(s: System, t: Token)
    requires Inv(s) && ClaimsKept(s) && PastOwned(s) && WireOwned(s) && t !in s.grants
    ensures Unused(s, t)
  {
    forall request | request in s.stray && request.HeartbeatRequest?
      ensures request.claim.token != t
    {
      assert RequestOk(s, request);
    }
  }

  lemma ServeIsQuiet(c: Config, s: System, owner: Option<WorkerId>, request: Request, pick: Pick)
    requires CanServe(s, request, pick)
    ensures Quiet(s, Serve(c, s, owner, request, pick)) && Serve(c, s, owner, request, pick).workers == s.workers
  {
  }

  /** An answer promises at most a claim under the token just made up. */
  lemma AnswerPromises(s: System, w: WorkerId, pick: Pick)
    requires w in s.workers && s.workers[w].call.Sent? && CanServe(s, s.workers[w].call.request, pick)
    ensures var wk' := s.workers[w].(call := Answered(ReplyTo(s, s.workers[w].call.request, pick)));
      Promised(wk').Some? ==> pick.PickRow? && pick.token !in s.grants && Promised(wk').value.token == pick.token
  {
  }

  lemma CallIsQuiet(c: Config, s: System, w: WorkerId, pick: Pick)
    requires Enabled(c, s, ServeCall(w, pick))
    ensures var s' := Apply(c, s, ServeCall(w, pick));
      && Quiet(s, s')
      && s'.workers == s.workers[w := s.workers[w].(call := Answered(ReplyTo(s, s.workers[w].call.request, pick)))]
  {
    ServeIsQuiet(c, s, Some(w), s.workers[w].call.request, pick);
  }

  lemma ServeCallKeepsUse(c: Config, s: System, w: WorkerId, pick: Pick)
    requires Inv(s) && UseInv(s) && WireInv(s) && Enabled(c, s, ServeCall(w, pick))
    ensures var s' := Apply(c, s, ServeCall(w, pick)); UseInv(s') && WireInv(s')
  {
    CallIsQuiet(c, s, w, pick);
    AnswerPromises(s, w, pick);
    if pick.PickRow? && pick.token !in s.grants {
      NewTokenIsUnused(s, pick.token);
    }
    QuietKeepsUse(s, Apply(c, s, ServeCall(w, pick)));
  }

  lemma OtherEventKeepsUse(c: Config, s: System, ev: Event)
    requires Inv(s) && UseInv(s) && WireInv(s) && Enabled(c, s, ev)
    requires !ev.ServeCall? && !ev.Fetch? && !ev.FetchLate? && !ev.Local?
    ensures UseInv(Apply(c, s, ev)) && WireInv(Apply(c, s, ev))
  {
    OtherEventIsQuiet(c, s, ev);
    QuietKeepsUse(s, Apply(c, s, ev));
  }

  lemma OtherEventIsQuiet(c: Config, s: System, ev: Event)
    requires Enabled(c, s, ev) && !ev.ServeCall? && !ev.Fetch? && !ev.FetchLate? && !ev.Local?
    ensures var s' := Apply(c, s, ev);
      && Quiet(s, s')
      && forall w :: w in s'.workers && Promised(s'.workers[w]).Some? ==>
           w in s.workers && Promised(s.workers[w]) == Promised(s'.workers[w])
  {
    if ev.ServeBeat? {
      ServeIsQuiet(c, s, Some(ev.worker), s.workers[ev.worker].beat.request, NoRow);
    } else if ev.ServeStray? {
      ServeIsQuiet(c, s, None, ev.request, ev.pick);
    }
  }

  // ----- a request goes out

  /** An entry joins for a claim, present or past, that is aborted if an earlier entry of it was. */
  lemma SendKeepsUse(s: System, e: Wire)
    requires UseInv(s) && WireInv(s)
    requires e.worker in s.workers && e.token in s.grants && s.grants[e.token].owner == Some(e.worker)
    requires forall i :: 0 <= i < |s.wire| && s.wire[i].token == e.token && s.wire[i].aborted ==> e.aborted
    requires forall v :: v in s.workers && Promised(s.workers[v]).Some? ==> Promised(s.workers[v]).value.token != e.token
    requires e.token in s.past ==> s.past[e.token].worker == e.worker && (e.aborted ==> PastAborted(s, e.token))
    requires e.aborted && s.workers[e.worker].claim.Some? && s.workers[e.worker].claim.value.token == e.token ==> Aborted(s.workers[e.worker])
    requires GuardedFetch.HandlerFetch(e.kind, e.aborted, e.transport, e.request).Some?
    ensures UseInv(s.(wire := s.wire + [e])) && WireInv(s.(wire := s.wire + [e]))
  {
    var s' := s.(wire := s.wire + [e]);
    assert AbortsAreFinal(s');
    forall v | v in s'.workers && Promised(s'.workers[v]).Some?
      ensures Unused(s', Promised(s'.workers[v]).value.token)
    {
      assert Unused(s, Promised(s.workers[v]).value.token);
    }
  }

  lemma AttemptKeepsUse(s: System, e: Wire)
    requires UseInv(s) && WireInv(s)
    requires e.worker in s.workers && e.token in s.grants && s.grants[e.token].owner == Some(e.worker)
    requires forall i :: 0 <= i < |s.wire| && s.wire[i].token == e.token && s.wire[i].aborted ==> e.aborted
    requires forall v :: v in s.workers && Promised(s.workers[v]).Some? ==> Promised(s.workers[v]).value.token != e.token
    requires e.token in s.past ==> s.past[e.token].worker == e.worker && (e.aborted ==> PastAborted(s, e.token))
    requires e.aborted && s.workers[e.worker].claim.Some? && s.workers[e.worker].claim.value.token == e.token ==> Aborted(s.workers[e.worker])
    ensures UseInv(Attempt(s, e)) && WireInv(Attempt(s, e))
  {
    if GuardedFetch.HandlerFetch(e.kind, e.aborted, e.transport, e.request).Some? {
      SendKeepsUse(s, e);
    }
  }

  lemma PromisesDiffer(s: System, t: Token)
    requires PromisesUnused(s)
    requires t in s.past || exists w :: w in s.workers && s.workers[w].claim.Some? && s.workers[w].claim.value.token == t
    ensures forall v :: v in s.workers && Promised(s.workers[v]).Some? ==> Promised(s.workers[v]).value.token != t
  {
    forall v | v in s.workers && Promised(s.workers[v]).Some?
      ensures Promised(s.workers[v]).value.token != t
    {
      assert Unused(s, Promised(s.workers[v]).value.token);
    }
  }

  lemma FetchKeepsUse(c: Config, s: System, w: WorkerId, transport: GuardedFetch.Transport, outgoing: GuardedFetch.Request)
    requires UseInv(s) && WireInv(s) && Enabled(c, s, Fetch(w, transport, outgoing))
    ensures var s' := Apply(c, s, Fetch(w, transport, outgoing)); UseInv(s') && WireInv(s')
  {
    var claim := s.workers[w].claim.value;
    assert ClaimOk(s, w, claim);
    PromisesDiffer(s, claim.token);
    AttemptKeepsUse(s, Wire(w, claim.token, claim.kind, Aborted(s.workers[w]), transport, outgoing));
  }

  lemma FetchLateKeepsUse(c: Config, s: System, t: Token, transport: GuardedFetch.Transport, outgoing: GuardedFetch.Request)
    requires UseInv(s) && WireInv(s) && Enabled(c, s, FetchLate(t, transport, outgoing))
    ensures var s' := Apply(c, s, FetchLate(t, transport, outgoing)); UseInv(s') && WireInv(s')
  {
    PromisesDiffer(s, t);
    AttemptKeepsUse(s, Wire(s.past[t].worker, t, s.past[t].kind, PastAborted(s, t), transport, outgoing));
  }

  // ----- a worker takes a step

  /** Worker `w` becomes `wk`, keeping its claim or taking up the promised one. */
  ghost predicate TakesUp(s: System, w: WorkerId, wk: Worker, abandoned: set<Request>) {
    && w in s.workers
    && (wk.claim == s.workers[w].claim || (wk.claim.Some? && wk.claim == Promised(s.workers[w])))
    && (wk.claim == s.workers[w].claim && wk.claim != Promised(s.workers[w]) && Aborted(s.workers[w]) ==> Aborted(wk))
    && (s.workers[w].shutdown ==> wk.shutdown)
    && (Promised(wk).Some? ==> Promised(wk) == Promised(s.workers[w]) && wk.claim == s.workers[w].claim)
    && forall request :: request in abandoned && request.HeartbeatRequest? ==>
         s.workers[w].claim.Some? && request.claim == s.workers[w].claim.value
  }

  /** A promised claim is nobody's, nor another worker's promise. */
  lemma PromiseIsNew(s: System, v: WorkerId, w: WorkerId)
    requires Inv(s) && UseInv(s) && v in s.workers && Promised(s.workers[v]).Some? && w in s.workers
    ensures s.workers[w].claim.Some? ==> s.workers[w].claim.value.token != Promised(s.workers[v]).value.token
    ensures v != w && Promised(s.workers[w]).Some? ==> Promised(s.workers[w]).value.token != Promised(s.workers[v]).value.token
    ensures ClaimOk(s, v, Promised(s.workers[v]).value)
  {
    assert WorkerOk(s, v, s.workers[v]) && WorkerOk(s, w, s.workers[w]);
    assert Unused(s, Promised(s.workers[v]).value.token);
  }

  /** From `s` to `s'` only worker `w` moves, and what it abandons joins the network. */
  ghost predicate Moves(s: System, s': System, w: WorkerId, wk: Worker, abandoned: set<Request>) {
    && TakesUp(s, w, wk, abandoned)
    && s'.workers == s.workers[w := wk] && s'.stray == s.stray + abandoned
    && s'.grants == s.grants && s'.wire == s.wire && s'.past == s.past + LeftBehind(w, s.workers[w], wk)
  }

  lemma MoveKeepsPromises(s: System, s': System, w: WorkerId, wk: Worker, abandoned: set<Request>)
    requires Inv(s) && UseInv(s) && Moves(s, s', w, wk, abandoned)
    ensures PromisesUnused(s')
  {
    forall v | v in s'.workers && Promised(s'.workers[v]).Some?
      ensures Unused(s', Promised(s'.workers[v]).value.token)
    {
      assert Promised(s'.workers[v]) == Promised(s.workers[v]);
      PromiseStaysUnused(s, s', w, wk, abandoned, v);
    }
  }

  lemma PromiseStaysUnused(s: System, s': System, w: WorkerId, wk: Worker, abandoned: set<Request>, v: WorkerId)
    requires Inv(s) && UseInv(s) && Moves(s, s', w, wk, abandoned)
    requires v in s.workers && Promised(s.workers[v]).Some? && Promised(s'.workers[v]) == Promised(s.workers[v])
    ensures Unused(s', Promised(s.workers[v]).value.token)
  {
    assert Unused(s, Promised(s.workers[v]).value.token);
    PromiseIsNew(s, v, w);
  }

  lemma MoveKeepsClaims(s: System, s': System, w: WorkerId, wk: Worker, abandoned: set<Request>)
    requires Inv(s) && UseInv(s) && Moves(s, s', w, wk, abandoned)
    ensures ClaimsKept(s')
  {
    ClaimsStayApart(s, w, wk);
  }

  lemma MoveKeepsPast(s: System, s': System, w: WorkerId, wk: Worker, abandoned: set<Request>)
    requires ClaimsKept(s) && PastOwned(s) && Moves(s, s', w, wk, abandoned)
    ensures PastOwned(s')
  {
    assert s.workers[w].claim.Some? ==> ClaimOk(s, w, s.workers[w].claim.value);
  }

  lemma MoveEndsPast(s: System, s': System, w: WorkerId, wk: Worker, abandoned: set<Request>)
    requires Inv(s) && UseInv(s) && Moves(s, s', w, wk, abandoned)
    ensures PastIsOver(s')
  {
    ClaimsStayApart(s, w, wk);
  }

  /** Nobody's present claim is one left behind. */
  lemma ClaimsStayApart(s: System, w: WorkerId, wk: Worker)
    requires Inv(s) && UseInv(s) && TakesUp(s, w, wk, {})
    ensures forall v :: v in s.workers && v != w && s.workers[v].claim.Some? ==>
      s.workers[v].claim.value.token !in s.past + LeftBehind(w, s.workers[w], wk)
    ensures wk.claim.Some? ==> wk.claim.value.token !in s.past + LeftBehind(w, s.workers[w], wk)
    ensures wk.claim.Some? ==> ClaimOk(s, w, wk.claim.value)
  {
    if Promised(s.workers[w]).Some? {
      PromiseIsNew(s, w, w);
      assert Unused(s, Promised(s.workers[w]).value.token);
    }
    forall v | v in s.workers && v != w && s.workers[v].claim.Some?
      ensures s.workers[v].claim.value.token !in s.past + LeftBehind(w, s.workers[w], wk)
    {
      assert ClaimOk(s, v, s.workers[v].claim.value);
      assert s.workers[w].claim.Some? ==> ClaimOk(s, w, s.workers[w].claim.value);
    }
  }

  lemma MoveKeepsWire(s: System, s': System, w: WorkerId, wk: Worker, abandoned: set<Request>)
    requires UseInv(s) && WireInv(s) && Moves(s, s', w, wk, abandoned)
    ensures WireInv(s')
  {
    if Promised(s.workers[w]).Some? {
      assert Unused(s, Promised(s.workers[w]).value.token);
    }
    assert AbortsStand(s');
    forall i | 0 <= i < |s'.wire| && s'.wire[i].aborted && s'.wire[i].token in s'.past
      ensures s'.past[s'.wire[i].token].worker in s'.workers && PastAborted(s', s'.wire[i].token)
    {
      var t := s.wire[i].token;
      if t in LeftBehind(w, s.workers[w], wk) {
        assert ClaimOk(s, w, s.workers[w].claim.value);
        assert s.wire[i].worker == w;
      }
    }
  }

  lemma StepTakesUp(c: Config, s: System, w: WorkerId, step: Step)
    requires Inv(s) && Enabled(c, s, Local(w, step))
    ensures TakesUp(s, w, StepWorker(c, s.workers[w], step, s.now), Abandons(s.workers[w], step))
  {
    assert WorkerOk(s, w, s.workers[w]);
    StepKeepsClaim(c, s.workers[w], step, s.now);
    AbandonedBeats(s.workers[w], step);
  }

  lemma LocalMoves(c: Config, s: System, w: WorkerId, step: Step)
    requires Inv(s) && Enabled(c, s, Local(w, step))
    ensures Moves(s, ApplyLocal(c, s, w, step), w, StepWorker(c, s.workers[w], step, s.now), Abandons(s.workers[w], step))
  {
    StepTakesUp(c, s, w, step);
  }

  lemma LocalKeepsUse(c: Config, s: System, w: WorkerId, step: Step)
    requires Inv(s) && UseInv(s) && WireInv(s) && Enabled(c, s, Local(w, step))
    ensures UseInv(ApplyLocal(c, s, w, step)) && WireInv(ApplyLocal(c, s, w, step))
  {
    var s' := ApplyLocal(c, s, w, step);
    var wk', abandoned := StepWorker(c, s.workers[w], step, s.now), Abandons(s.workers[w], step);
    LocalMoves(c, s, w, step);
    MoveKeepsPromises(s, s', w, wk', abandoned);
    MoveKeepsClaims(s, s', w, wk', abandoned);
    MoveKeepsPast(s, s', w, wk', abandoned);
    MoveEndsPast(s, s', w, wk', abandoned);
    MoveKeepsWire(s, s', w, wk', abandoned);
  }

  lemma EventKeepsUse(c: Config, s: System, ev: Event)
    requires Inv(s) && UseInv(s) && WireInv(s) && Enabled(c, s, ev)
    ensures UseInv(Apply(c, s, ev)) && WireInv(Apply(c, s, ev))
  {
    if ev.Local? {
      LocalKeepsUse(c, s, ev.worker, ev.step);
    } else if ev.ServeCall? {
      ServeCallKeepsUse(c, s, ev.worker, ev.pick);
    } else if ev.Fetch? {
      FetchKeepsUse(c, s, ev.worker, ev.transport, ev.outgoing);
    } else if ev.FetchLate? {
      FetchLateKeepsUse(c, s, ev.token, ev.transport, ev.outgoing);
    } else {
      OtherEventKeepsUse(c, s, ev);
    }
  }

  lemma {:induction false} RunKeepsUse(c: Config, start: Time, run: seq<Event>)
    ensures After(c, start, run).Some? ==>
      Inv(After(c, start, run).value) && UseInv(After(c, start, run).value) && WireInv(After(c, start, run).value)
  {
    RunKeepsInv(c, start, run);
    if run != [] {
      RunKeepsUse(c, start, run[..|run| - 1]);
      RunKeepsInv(c, start, run[..|run| - 1]);
      if After(c, start, run).Some? {
        EventKeepsUse(c, After(c, start, run[..|run| - 1]).value, run[|run| - 1]);
      }
    }
  }

  lemma ReachableUse(c: Config, s: System)
    requires Reachable(c, s)
    ensures Inv(s) && UseInv(s) && WireInv(s)
  {
    var start, run :| After(c, start, run) == Some(s);
    RunKeepsUse(c, start, run);
  }

  /**
    On every run: once something has gone out for a claim after its abort, whatever goes out for
    that claim from then on is a pause or its status read, over the compensation transport, from
    a publish job.
   */
  lemma AfterAbortOnlyPausesGoOut(c: Config, s: System, i: nat, j: nat)
    requires Reachable(c, s) && i <= j < |s.wire|
    requires s.wire[i].aborted && s.wire[i].token == s.wire[j].token
    ensures GuardedFetch.Publishes(s.wire[j].kind) && s.wire[j].transport == GuardedFetch.Compensation
    ensures GuardedFetch.PauseWrite(s.wire[j].request) || GuardedFetch.StatusRead(s.wire[j].request)
  {
    ReachableUse(c, s);
    GuardedFetch.AfterAbortOnlyPause(s.wire[j].kind, s.wire[j].transport, s.wire[j].request);
  }

  /** A worker whose claim has aborted stays aborted until it takes up another claim. */
  lemma AbortIsFinal(c: Config, s: System, w: WorkerId, ev: Event)
    requires Reachable(c, s) && Enabled(c, s, ev) && w in s.workers && s.workers[w].claim.Some? && Aborted(s.workers[w])
    ensures w in Apply(c, s, ev).workers
    ensures var wk' := Apply(c, s, ev).workers[w];
      wk'.claim.Some? && wk'.claim.value.token == s.workers[w].claim.value.token ==> Aborted(wk')
  {
    if ev.Local? {
      if ev.worker == w {
        ReachableUse(c, s);
        LocalAbortIsFinal(c, s, w, ev.step);
      }
    } else {
      ClaimsStayTheSame(c, s, w, ev);
    }
  }

  /** Only its own steps change a worker's claim or abort it. */
  lemma ClaimsStayTheSame(c: Config, s: System, w: WorkerId, ev: Event)
    requires Enabled(c, s, ev) && !ev.Local? && w in s.workers
    ensures w in Apply(c, s, ev).workers && SameClaim(s.workers[w], Apply(c, s, ev).workers[w])
  {
    EventWaits(c, s, ev);
  }

  lemma LocalAbortIsFinal(c: Config, s: System, w: WorkerId, step: Step)
    requires Inv(s) && UseInv(s) && Enabled(c, s, Local(w, step)) && s.workers[w].claim.Some? && Aborted(s.workers[w])
    ensures var wk' := StepWorker(c, s.workers[w], step, s.now);
      wk'.claim.Some? && wk'.claim.value.token == s.workers[w].claim.value.token ==> Aborted(wk')
  {
    assert WorkerOk(s, w, s.workers[w]);
    StepKeepsClaim(c, s.workers[w], step, s.now);
    if Promised(s.workers[w]).Some? {
      assert Unused(s, Promised(s.workers[w]).value.token);
    }
  }
}
