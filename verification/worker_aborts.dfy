/** From the moment its execution signal aborts, a claim sends nothing but pauses, along every run. */
module WorkerAborts {
  import opened Prelude
  import opened JobQueue
  import opened LeaseHeartbeat
  import opened WorkerProtocol
  import opened WorkerSafety
  import opened WorkerWire
  import GuardedFetch

  predicate Has(wk: Worker, t: Token) {
    wk.claim.Some? && wk.claim.value.token == t
  }

  /** The execution signal of the claim with this lease has aborted, be it a worker's present claim or one it left behind. */
  ghost predicate SignalAborted(s: System, t: Token) {
    || (exists w :: w in s.workers && Has(s.workers[w], t) && Aborted(s.workers[w]))
    || (t in s.past && s.past[t].worker in s.workers && PastAborted(s, t))
  }

  ghost predicate Pauses(e: Wire) {
    && GuardedFetch.Publishes(e.kind) && e.transport == GuardedFetch.Compensation
    && (GuardedFetch.PauseWrite(e.request) || GuardedFetch.StatusRead(e.request))
  }

  ghost predicate LetsThrough(e: Wire) {
    (e.transport == GuardedFetch.Ordinary && !e.aborted) || Pauses(e)
  }

  /** What the event sends for a claim: as that claim's worker and signal are at that moment. */
  function Sending(s: System, ev: Event): Option<Wire> {
    match ev
    case Fetch(w, transport, r) =>
      if w in s.workers && s.workers[w].claim.Some? then
        var wk, claim := s.workers[w], s.workers[w].claim.value;
        Some(Wire(w, claim.token, claim.kind, wk.hb.failure.Some? || wk.timedOut || wk.shutdown, transport, r))
      else None
    case FetchLate(t, transport, r) =>
      if t in s.past && s.past[t].worker in s.workers then
        var past := s.past[t];
        Some(Wire(past.worker, t, past.kind, past.aborted || s.workers[past.worker].shutdown, transport, r))
      else None
    case _ => None
  }

  /** A request goes out exactly when the handler's transport lets it through, and nothing else does. */
  lemma WireGrowsExactly(c: Config, s: System, ev: Event)
    requires Enabled(c, s, ev)
    ensures var e := Sending(s, ev);
      Apply(c, s, ev).wire == s.wire + if e.Some? && LetsThrough(e.value) then [e.value] else []
  {
    if ev.ServeCall? {
      ServeWrites(c, s, Some(ev.worker), s.workers[ev.worker].call.request, ev.pick);
    } else if ev.ServeBeat? {
      ServeWrites(c, s, Some(ev.worker), s.workers[ev.worker].beat.request, NoRow);
    } else if ev.ServeStray? {
      ServeWrites(c, s, None, ev.request, ev.pick);
    } else if ev.Fetch? || ev.FetchLate? {
      var e := Sending(s, ev).value;
      GuardedFetch.GoesOutExactly(e.kind, e.aborted, e.transport, e.request);
    }
  }

  /** The worker that moves keeps the aborted claim, or leaves it behind aborted. */
  lemma MoverKeepsAbort(s: System, s': System, w: WorkerId, wk': Worker, abandoned: set<Request>, t: Token)
    requires Inv(s) && UseInv(s) && Moves(s, s', w, wk', abandoned)
    requires Has(s.workers[w], t) && Aborted(s.workers[w])
    ensures (Has(wk', t) && Aborted(wk')) || (t in s'.past && s'.past[t].worker == w && s'.past[t].aborted)
  {
    if wk'.claim == s.workers[w].claim && Promised(s.workers[w]).Some? {
      PromiseIsNew(s, w, w);
    }
  }

  lemma MoveKeepsAbort(s: System, s': System, w: WorkerId, wk': Worker, abandoned: set<Request>, t: Token)
    requires Inv(s) && UseInv(s) && Moves(s, s', w, wk', abandoned) && SignalAborted(s, t)
    ensures SignalAborted(s', t)
  {
    if v :| v in s.workers && Has(s.workers[v], t) && Aborted(s.workers[v]) {
      if v == w {
        MoverKeepsAbort(s, s', w, wk', abandoned, t);
      }
      assert (Has(s'.workers[v], t) && Aborted(s'.workers[v])) || (t in s'.past && PastAborted(s', t));
    } else {
      assert PastIsOver(s);
      assert s'.past[t] == s.past[t];
    }
  }

  lemma WaitingKeepsAbort(s: System, s': System, t: Token)
    requires WorkersWait(s, s') && SignalAborted(s, t)
    ensures SignalAborted(s', t)
  {
    if v :| v in s.workers && Has(s.workers[v], t) && Aborted(s.workers[v]) {
      assert Has(s'.workers[v], t) && Aborted(s'.workers[v]);
    }
  }

  lemma EventKeepsAbort(c: Config, s: System, ev: Event, t: Token)
    requires Inv(s) && UseInv(s) && Enabled(c, s, ev) && SignalAborted(s, t)
    ensures SignalAborted(Apply(c, s, ev), t)
  {
    if ev.Local? {
      LocalMoves(c, s, ev.worker, ev.step);
      MoveKeepsAbort(s, Apply(c, s, ev), ev.worker, StepWorker(c, s.workers[ev.worker], ev.step, s.now),
                     Abandons(s.workers[ev.worker], ev.step), t);
    } else {
      EventWaits(c, s, ev);
      WaitingKeepsAbort(s, Apply(c, s, ev), t);
    }
  }

  /** A claim's aborted signal is what is noted with whatever it sends. */
  lemma AbortIsNoted(c: Config, s: System, ev: Event, t: Token)
    requires UseInv(s) && Enabled(c, s, ev) && SignalAborted(s, t)
    requires Sending(s, ev).Some? && Sending(s, ev).value.token == t
    ensures Sending(s, ev).value.aborted
  {
    if v :| v in s.workers && Has(s.workers[v], t) && Aborted(s.workers[v]) {
      assert ClaimOk(s, v, s.workers[v].claim.value);
      if ev.Fetch? {
        assert ClaimOk(s, ev.worker, s.workers[ev.worker].claim.value);
      }
    }
  }

  lemma NextIsPause(c: Config, s: System, ev: Event, t: Token)
    requires UseInv(s) && Enabled(c, s, ev) && SignalAborted(s, t)
    ensures var wire := Apply(c, s, ev).wire;
      && s.wire <= wire
      && forall i :: |s.wire| <= i < |wire| && wire[i].token == t ==> Pauses(wire[i])
  {
    WireGrowsExactly(c, s, ev);
    if Sending(s, ev).Some? && Sending(s, ev).value.token == t {
      AbortIsNoted(c, s, ev, t);
    }
  }

  /**
    On every run: from the moment the signal of a claim has aborted it stays so, and all that goes out
    for that claim from then on is a pause or its status read, over the compensation transport, from a
    publish job.
   */
  lemma {:induction false} AbortedClaimOnlyPauses(c: Config, start: Time, run: seq<Event>, n: nat, t: Token)
    requires After(c, start, run).Some? && n <= |run|
    requires After(c, start, run[..n]).Some? && SignalAborted(After(c, start, run[..n]).value, t)
    ensures SignalAborted(After(c, start, run).value, t)
    ensures var before, wire := |After(c, start, run[..n]).value.wire|, After(c, start, run).value.wire;
      before <= |wire| && forall i :: before <= i < |wire| && wire[i].token == t ==> Pauses(wire[i])
  {
    if n == |run| {
      assert run[..n] == run;
    } else {
      var earlier, ev := run[..|run| - 1], run[|run| - 1];
      assert earlier[..n] == run[..n];
      AbortedClaimOnlyPauses(c, start, earlier, n, t);
      RunKeepsUse(c, start, earlier);
      var s := After(c, start, earlier).value;
      EventKeepsAbort(c, s, ev, t);
      NextIsPause(c, s, ev, t);
    }
  }
}
