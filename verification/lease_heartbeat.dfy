/**
  The heartbeat a worker runs beside a claimed job. `Heartbeat` is the closure state of
  startLeaseHeartbeat as a value, with one function per callback; the class holds the same
  state in fields and its methods are the callbacks.
 */
module LeaseHeartbeat {
  import opened Prelude
  import opened JobQueue

  /** Options of one run, in whole milliseconds except the lease. */
  datatype Config = Config(everyMs: int, leaseSeconds: int, timeoutMs: int) {
    /** The checks runOnce makes before it claims. */
    predicate Accepted() {
      && 30 <= leaseSeconds <= 3600
      && 0 < everyMs < leaseSeconds * 1000
    }

    function LeaseMs(): int {
      leaseSeconds * 1000
    }

    function RetryMs(): int {
      Max(50, Min(1000, everyMs / 4))
    }

    function TickMs(): int {
      Max(10, Min(1000, everyMs))
    }
  }

  /** The request timeout used when the caller gives none. */
  function DefaultTimeoutMs(everyMs: int, leaseSeconds: int): int {
    Max(100, Min(Min(10_000, everyMs / 2), leaseSeconds * 1000 / 4))
  }

  /** A refused heartbeat says the lease is gone; any other failure does not. */
  datatype Failure = LeaseLost | TransportFailed

  datatype Heartbeat = Heartbeat(
    stopped: bool,
    failure: Option<Failure>,
    inFlight: bool,
    leaseDeadline: Time,
    nextAttemptAt: Time)

  function Start(c: Config, now: Time): Heartbeat {
    Heartbeat(false, None, false, now + c.LeaseMs(), now + c.everyMs)
  }

  /** The interval callback sends a heartbeat. */
  predicate Sends(h: Heartbeat, now: Time) {
    !h.stopped && h.failure.None? && !h.inFlight && now >= h.nextAttemptAt
  }

  function Tick(h: Heartbeat, now: Time): Heartbeat {
    if Sends(h, now) then h.(inFlight := true) else h
  }

  function Resolved(c: Config, h: Heartbeat, now: Time): Heartbeat {
    h.(leaseDeadline := now + c.LeaseMs(), nextAttemptAt := now + c.everyMs, inFlight := false)
  }

  function Rejected(c: Config, h: Heartbeat, error: Failure, now: Time): Heartbeat {
    if error == LeaseLost || now + c.timeoutMs >= h.leaseDeadline then
      h.(failure := if h.failure.None? then Some(error) else h.failure, inFlight := false)
    else
      h.(nextAttemptAt := now + c.RetryMs(), inFlight := false)
  }

  function Stop(h: Heartbeat): Heartbeat {
    h.(stopped := true)
  }

  class LeaseKeeper {
    const config: Config
    var stopped: bool
    var failure: Option<Failure>
    var inFlight: bool
    var leaseDeadline: Time
    var nextAttemptAt: Time

    function State(): Heartbeat
      reads this
    {
      Heartbeat(stopped, failure, inFlight, leaseDeadline, nextAttemptAt)
    }

    constructor (config: Config, now: Time)
      ensures this.config == config
      ensures State() == Start(config, now)
    {
      this.config := config;
      stopped, failure, inFlight := false, None, false;
      leaseDeadline := now + config.leaseSeconds * 1000;
      nextAttemptAt := now + config.everyMs;
    }

    /** The interval callback. `sent` says that a heartbeat request goes out. */
    method OnTick(now: Time) returns (sent: bool)
      modifies this
      ensures State() == Tick(old(State()), now)
      ensures sent == Sends(old(State()), now)
      ensures sent ==> !old(inFlight)
    {
      if stopped || failure.Some? || inFlight || now < nextAttemptAt {
        return false;
      }
      inFlight := true;
      sent := true;
    }

    method OnResolved(now: Time)
      modifies this
      ensures State() == Resolved(config, old(State()), now)
    {
      leaseDeadline := now + config.leaseSeconds * 1000;
      nextAttemptAt := now + config.everyMs;
      inFlight := false;
    }

    method LoseLease(error: Failure) returns (declared: bool)
      modifies this
      ensures declared == old(failure).None?
      ensures State() == old(State()).(failure := if declared then Some(error) else old(failure))
    {
      if failure.Some? {
        return false;
      }
      failure := Some(error);
      declared := true;
    }

    /** `declared` says that the lease is declared lost now: the signal aborts and the race is rejected. */
    method OnRejected(error: Failure, now: Time) returns (declared: bool)
      modifies this
      ensures State() == Rejected(config, old(State()), error, now)
      ensures declared == (old(failure).None? && failure.Some?)
    {
      declared := false;
      if error == LeaseLost || now + config.timeoutMs >= leaseDeadline {
        declared := LoseLease(error);
      } else {
        nextAttemptAt := now + config.RetryMs();
      }
      inFlight := false;
    }

    method RequestStop()
      modifies this
      ensures State() == Stop(old(State()))
    {
      stopped := true;
    }
  }

  /** The database does not shorten or lengthen a lease the worker is willing to run. */
  lemma AcceptedLeaseIsNotClamped(c: Config)
    requires c.Accepted()
    ensures LeaseMillis(c.leaseSeconds) == c.LeaseMs()
  {
  }

  /** The default timeout leaves room for a retry before the lease runs out. */
  lemma DefaultTimeoutFitsLease(everyMs: int, leaseSeconds: int)
    requires Config(everyMs, leaseSeconds, 0).Accepted()
    ensures var t := DefaultTimeoutMs(everyMs, leaseSeconds); 100 <= t && 3 * t <= leaseSeconds * 1000
  {
  }

  // ----- the rhythm of the heartbeats

  /** The intervals: how often the timer fires, when a failed heartbeat is tried again, and the default timeout. */
  lemma IntervalsExactly(c: Config, x: int)
    ensures x <= c.TickMs() <==> x <= 10 || (x <= 1_000 && x <= c.everyMs)
    ensures x <= c.RetryMs() <==> x <= 50 || (x <= 1_000 && 4 * x <= c.everyMs)
    ensures x <= DefaultTimeoutMs(c.everyMs, c.leaseSeconds) <==>
      x <= 100 || (x <= 10_000 && 2 * x <= c.everyMs && 4 * x <= 1_000 * c.leaseSeconds)
  {
  }

  /** The heartbeats may go on. */
  predicate Beating(h: Heartbeat) {
    !h.stopped && h.failure.None?
  }

  /**
    When the next heartbeat goes out: one interval after the start or after the last one succeeded,
    one retry interval after one that failed and was tolerated, and never while one is awaited, after
    the lease was declared lost, or after the stop.
   */
  lemma NextHeartbeat(c: Config, h: Heartbeat, error: Failure, before: Time, now: Time)
    ensures Sends(Start(c, before), now) <==> before + c.everyMs <= now
    ensures Beating(h) ==> (Sends(Resolved(c, h, before), now) <==> before + c.everyMs <= now)
    ensures Beating(h) && Beating(Rejected(c, h, error, before)) ==>
      (Sends(Rejected(c, h, error, before), now) <==> before + c.RetryMs() <= now)
    ensures Sends(h, before) ==> !Sends(Tick(h, before), now)
    ensures !Sends(h, before) ==> Tick(h, before) == h
    ensures !Beating(h) ==>
      !Sends(h, now) && !Sends(Resolved(c, h, before), now) && !Sends(Rejected(c, h, error, before), now)
    ensures !Sends(Stop(h), now)
  {
  }

  /**
    A heartbeat that fails declares the lease lost exactly when the database refused it, or when an
    attempt now could end no earlier than a lease counted from the last success; the first reason stays.
   */
  lemma LossExactly(c: Config, h: Heartbeat, error: Failure, before: Time, now: Time)
    requires h.failure.None?
    ensures var lost := Rejected(c, Resolved(c, h, before), error, now).failure;
      && (lost.Some? <==> error == LeaseLost || before + 1_000 * c.leaseSeconds <= now + c.timeoutMs)
      && (lost.Some? ==> lost == Some(error))
    ensures Rejected(c, Start(c, before), error, now).failure.Some?
      <==> error == LeaseLost || before + 1_000 * c.leaseSeconds <= now + c.timeoutMs
    ensures Rejected(c, h.(failure := Some(LeaseLost)), error, now).failure == Some(LeaseLost)
    ensures Rejected(c, h.(failure := Some(TransportFailed)), error, now).failure == Some(TransportFailed)
  {
  }
}
