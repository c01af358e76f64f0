/**
  Any number of processes verify requests at once. Each reads its clock early and touches the
  nonce table later, in two statements that other processes can come between.
 */
module ReplayProtection {
  import opened Prelude
  import opened InternalAuth

  /**
    How far a run may stray: a process inserts its nonce at most `delay` after it read its
    clock, and the clocks of any two hosts differ by at most `spread` (ms).
   */
  datatype Slack = Slack(delay: nat, spread: nat)

  datatype Stage = Checked | Swept

  /** A request that passed the checks: the clock reading they used, and when it was taken. */
  datatype Process = Process(reading: int, readAt: int, timestamp: real, nonce: string, stage: Stage)

  datatype Acceptance = Acceptance(timestamp: real, nonce: string, reading: int)

  /** `clockBase` is the offset of the slowest host clock; `latestSweep` the latest reading a sweep used. */
  datatype System = System(
    time: int,
    clockBase: int,
    rows: Nonces,
    processes: map<nat, Process>,
    latestSweep: Option<int>,
    accepted: seq<Acceptance>)

  datatype Event =
    | Advance(duration: nat)
    | Begin(pid: nat, reading: int, timestamp: real, nonce: string)
    | SweepExpired(pid: nat)
    | Insert(pid: nat)
    | InsertUnanswered(pid: nat)
    | GiveUp(pid: nat)

  predicate Enabled(k: Slack, s: System, ev: Event) {
    match ev
    case Advance(_) => true
    case Begin(pid, reading, timestamp, _) =>
      && pid !in s.processes
      && s.clockBase <= reading - s.time <= s.clockBase + k.spread
      && WithinSkew(reading, timestamp)
    case SweepExpired(pid) => pid in s.processes && s.processes[pid].stage == Checked
    case Insert(pid) =>
      pid in s.processes && s.processes[pid].stage == Swept && s.time - s.processes[pid].readAt <= k.delay
    case InsertUnanswered(pid) =>
      pid in s.processes && s.processes[pid].stage == Swept && s.time - s.processes[pid].readAt <= k.delay
    case GiveUp(pid) => pid in s.processes
  }

  function Done(s: System, pid: nat): System {
    s.(processes := s.processes - {pid})
  }

  function Apply(s: System, ev: Event): System
    requires ev.Advance? || ev.Begin? || ev.pid in s.processes
  {
    match ev
    case Advance(duration) => s.(time := s.time + duration)
    case Begin(pid, reading, timestamp, nonce) =>
      s.(processes := s.processes[pid := Process(reading, s.time, timestamp, nonce, Checked)])
    case SweepExpired(pid) =>
      var p := s.processes[pid];
      s.(rows := Sweep(s.rows, p.reading - NONCE_TTL_MS),
         processes := s.processes[pid := p.(stage := Swept)],
         latestSweep := Some(if s.latestSweep.Some? then Max(s.latestSweep.value, p.reading) else p.reading))
    case Insert(pid) =>
      var p := s.processes[pid];
      if p.nonce in s.rows then Done(s, pid)
      else Done(s, pid).(rows := s.rows[p.nonce := p.reading + NONCE_TTL_MS],
                         accepted := s.accepted + [Acceptance(p.timestamp, p.nonce, p.reading)])
    case InsertUnanswered(pid) =>
      var p := s.processes[pid];
      if p.nonce in s.rows then Done(s, pid)
      else Done(s, pid).(rows := s.rows[p.nonce := p.reading + NONCE_TTL_MS])
    case GiveUp(pid) => Done(s, pid)
  }

  function Init(time: int, clockBase: int): System {
    System(time, clockBase, map[], map[], None, [])
  }

  function After(k: Slack, time: int, clockBase: int, run: seq<Event>): Option<System> {
    if run == [] then Some(Init(time, clockBase))
    else
      var before := After(k, time, clockBase, run[..|run| - 1]);
      if before.Some? && Enabled(k, before.value, run[|run| - 1]) then Some(Apply(before.value, run[|run| - 1])) else None
  }

  /** A verification nobody comes between does to the table what the method on one process does. */
  lemma UndisturbedVerification(s: System, pid: nat, reading: int, timestamp: real, nonce: string)
    requires pid !in s.processes
    ensures
      var s' := Apply(Apply(Apply(s, Begin(pid, reading, timestamp, nonce)), SweepExpired(pid)), Insert(pid));
      var swept := Sweep(s.rows, reading - NONCE_TTL_MS);
      && s'.rows == (if nonce in swept then swept else swept[nonce := reading + NONCE_TTL_MS])
      && s'.accepted == (if nonce in swept then s.accepted else s.accepted + [Acceptance(timestamp, nonce, reading)])
      && s'.processes == s.processes
  {
    var s1 := Apply(s, Begin(pid, reading, timestamp, nonce));
    var s2 := Apply(s1, SweepExpired(pid));
    assert s2.processes - {pid} == s.processes;
  }

  // ----- the invariant

  /** The nonce is still in the table, or a sweep came along far enough ahead to remove it. */
  predicate Remembered(s: System, a: Acceptance) {
    || a.nonce in s.rows
    || (s.latestSweep.Some? && s.latestSweep.value > a.reading + 2 * NONCE_TTL_MS)
  }

  ghost predicate Inv(k: Slack, s: System) {
    && (forall pid :: pid in s.processes ==>
          var p := s.processes[pid];
          && s.clockBase <= p.reading - p.readAt <= s.clockBase + k.spread
          && p.readAt <= s.time
          && WithinSkew(p.reading, p.timestamp))
    && (s.latestSweep.Some? ==> s.latestSweep.value <= s.time + s.clockBase + k.spread)
    && (forall i :: 0 <= i < |s.accepted| ==>
          && WithinSkew(s.accepted[i].reading, s.accepted[i].timestamp)
          && Remembered(s, s.accepted[i])
          && (s.accepted[i].nonce in s.rows ==>
                || s.rows[s.accepted[i].nonce] == s.accepted[i].reading + NONCE_TTL_MS
                || (s.latestSweep.Some? && s.latestSweep.value > s.accepted[i].reading + 2 * NONCE_TTL_MS)))
  }

  ghost predicate TimestampsRise(s: System) {
    forall i, j :: 0 <= i < j < |s.accepted| && s.accepted[i].nonce == s.accepted[j].nonce
      ==> s.accepted[i].timestamp < s.accepted[j].timestamp
  }

  /** A nonce that is free again was accepted so long ago that its old timestamp is stale by now. */
  lemma FreeNonceIsOld(k: Slack, s: System, pid: nat, i: nat)
    requires k.delay + k.spread <= NONCE_TTL_MS
    requires Inv(k, s) && Enabled(k, s, Insert(pid)) && s.processes[pid].nonce !in s.rows
    requires i < |s.accepted| && s.accepted[i].nonce == s.processes[pid].nonce
    ensures s.accepted[i].timestamp < s.processes[pid].timestamp
  {
    var p, a := s.processes[pid], s.accepted[i];
    assert s.latestSweep.value > a.reading + 2 * NONCE_TTL_MS;
    assert p.reading > a.reading + NONCE_TTL_MS;
    assert p.reading as real / 1000.0 > a.reading as real / 1000.0 + 600.0;
  }

  lemma EventKeepsInv(k: Slack, s: System, ev: Event)
    requires Inv(k, s) && Enabled(k, s, ev)
    ensures Inv(k, Apply(s, ev))
  {
  }

  lemma EventKeepsOrder(k: Slack, s: System, ev: Event)
    requires k.delay + k.spread <= NONCE_TTL_MS
    requires Inv(k, s) && TimestampsRise(s) && Enabled(k, s, ev)
    ensures TimestampsRise(Apply(s, ev))
  {
    if ev.Insert? && s.processes[ev.pid].nonce !in s.rows {
      forall i: nat | i < |s.accepted| && s.accepted[i].nonce == s.processes[ev.pid].nonce
        ensures s.accepted[i].timestamp < s.processes[ev.pid].timestamp
      {
        FreeNonceIsOld(k, s, ev.pid, i);
      }
    }
  }

  lemma {:induction false} RunKeeps(k: Slack, time: int, clockBase: int, run: seq<Event>)
    ensures After(k, time, clockBase, run).Some? ==>
      && Inv(k, After(k, time, clockBase, run).value)
      && (k.delay + k.spread <= NONCE_TTL_MS ==> TimestampsRise(After(k, time, clockBase, run).value))
  {
    if run == [] {
    } else {
      RunKeeps(k, time, clockBase, run[..|run| - 1]);
      if After(k, time, clockBase, run).Some? {
        var s := After(k, time, clockBase, run[..|run| - 1]).value;
        EventKeepsInv(k, s, run[|run| - 1]);
        if k.delay + k.spread <= NONCE_TTL_MS {
          EventKeepsOrder(k, s, run[|run| - 1]);
        }
      }
    }
  }

  /** Somewhere on the run one signed pair was accepted twice. */
  ghost predicate ReplayAccepted(s: System) {
    exists i, j :: 0 <= i < j < |s.accepted|
      && s.accepted[i].nonce == s.accepted[j].nonce && s.accepted[i].timestamp == s.accepted[j].timestamp
  }

  ghost predicate NeverReplays(k: Slack) {
    forall time, clockBase, run :: After(k, time, clockBase, run).Some? ==> !ReplayAccepted(After(k, time, clockBase, run).value)
  }

  /** Within the slack, a nonce is accepted again only under a strictly later timestamp. */
  lemma AcceptedAtMostOnce(k: Slack, time: int, clockBase: int, run: seq<Event>)
    requires k.delay + k.spread <= NONCE_TTL_MS && After(k, time, clockBase, run).Some?
    ensures TimestampsRise(After(k, time, clockBase, run).value)
    ensures !ReplayAccepted(After(k, time, clockBase, run).value)
  {
    RunKeeps(k, time, clockBase, run);
  }

  // ----- the slack is exact

  function Before(k: Slack): seq<Event> {
    [Begin(1, 0, 300.0, "nonce"), SweepExpired(1), Insert(1), Advance(NONCE_TTL_MS),
     Begin(2, NONCE_TTL_MS, 300.0, "nonce"), SweepExpired(2), Advance(k.delay)]
  }

  function ReplayRun(k: Slack): seq<Event> {
    var late := NONCE_TTL_MS + k.delay + k.spread;
    Before(k) + [Begin(3, late, late as real / 1000.0, "other"), SweepExpired(3), Insert(2)]
  }

  lemma AfterStep(k: Slack, run: seq<Event>, ev: Event)
    requires After(k, 0, 0, run).Some? && Enabled(k, After(k, 0, 0, run).value, ev)
    ensures After(k, 0, 0, run + [ev]) == Some(Apply(After(k, 0, 0, run).value, ev))
  {
    assert (run + [ev])[..|run + [ev]| - 1] == run;
  }

  /** A copy held back until a faster clock has swept its nonce away is accepted again. */
  lemma ReplayBeyondSlack(k: Slack)
    requires k.delay + k.spread > NONCE_TTL_MS
    ensures After(k, 0, 0, ReplayRun(k)).Some? && ReplayAccepted(After(k, 0, 0, ReplayRun(k)).value)
  {
    var late := NONCE_TTL_MS + k.delay + k.spread;
    var r := Before(k);
    ReachBefore(k);
    var s7 := After(k, 0, 0, r).value;
    var e8, e9, e10 := Begin(3, late, late as real / 1000.0, "other"), SweepExpired(3), Insert(2);
    AfterStep(k, r, e8);
    var s8 := Apply(s7, e8);
    AfterStep(k, r + [e8], e9);
    var s9 := Apply(s8, e9);
    assert "nonce" !in s9.rows;
    AfterStep(k, r + [e8] + [e9], e10);
    var s10 := Apply(s9, e10);
    assert r + [e8] + [e9] + [e10] == ReplayRun(k);
    assert s10.accepted[0] == Acceptance(300.0, "nonce", 0) && s10.accepted[1] == Acceptance(300.0, "nonce", NONCE_TTL_MS);
  }

  lemma ReachAccepted(k: Slack)
    ensures After(k, 0, 0, Before(k)[..4]) == Some(System(
      NONCE_TTL_MS, 0, map["nonce" := NONCE_TTL_MS], map[], Some(0), [Acceptance(300.0, "nonce", 0)]))
  {
    var e := Before(k);
    assert e[..0] == [] && e[..1] == e[..0] + [e[0]] && e[..2] == e[..1] + [e[1]] && e[..3] == e[..2] + [e[2]]
      && e[..4] == e[..3] + [e[3]];
    AfterStep(k, e[..0], e[0]);
    AfterStep(k, e[..1], e[1]);
    assert After(k, 0, 0, e[..2]).value.rows == map[];
    AfterStep(k, e[..2], e[2]);
    var s := After(k, 0, 0, e[..3]).value;
    assert s.processes == map[];
    assert s.rows == map["nonce" := NONCE_TTL_MS];
    assert s.accepted == [Acceptance(300.0, "nonce", 0)];
    AfterStep(k, e[..3], e[3]);
  }

  lemma ReachBefore(k: Slack)
    ensures After(k, 0, 0, Before(k)) == Some(System(
      NONCE_TTL_MS + k.delay, 0, map["nonce" := NONCE_TTL_MS],
      map[2 := Process(NONCE_TTL_MS, NONCE_TTL_MS, 300.0, "nonce", Swept)],
      Some(NONCE_TTL_MS), [Acceptance(300.0, "nonce", 0)]))
  {
    var e := Before(k);
    ReachAccepted(k);
    assert e[..5] == e[..4] + [e[4]] && e[..6] == e[..5] + [e[5]] && e == e[..6] + [e[6]];
    AfterStep(k, e[..4], e[4]);
    AfterStep(k, e[..5], e[5]);
    var s := After(k, 0, 0, e[..6]).value;
    assert s.rows == map["nonce" := NONCE_TTL_MS];
    assert s.processes == map[2 := Process(NONCE_TTL_MS, NONCE_TTL_MS, 300.0, "nonce", Swept)];
    AfterStep(k, e[..6], e[6]);
  }

  /** Replay protection holds on every run if and only if delay and clock spread stay within the nonce lifetime of ten minutes. */
  lemma SlackIsExact(k: Slack)
    ensures NeverReplays(k) <==> k.delay + k.spread <= 600_000
  {
    if k.delay + k.spread <= NONCE_TTL_MS {
      forall time, clockBase, run | After(k, time, clockBase, run).Some?
        ensures !ReplayAccepted(After(k, time, clockBase, run).value)
      {
        AcceptedAtMostOnce(k, time, clockBase, run);
      }
    } else {
      ReplayBeyondSlack(k);
    }
  }
}
