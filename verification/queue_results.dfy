/** What the queue's transactions do to a job, told by what can be done with it afterwards. */
module JobQueueResults {
  import opened Prelude
  import opened JobQueue

  /** A lease lasts what was asked for, but no less than thirty seconds and no more than an hour. */
  lemma LeaseLasts(leaseSeconds: int, millis: int)
    ensures millis <= LeaseMillis(leaseSeconds) <==>
      millis <= 30_000 || (millis <= 3_600_000 && millis <= 1000 * leaseSeconds)
  {
  }

  /** The wait after a failed attempt starts at two seconds, doubles with each attempt and stays at ten minutes. */
  lemma {:induction false} BackoffDoubles(attempts: nat)
    ensures BackoffMillis(1) == 2_000
    ensures BackoffMillis(attempts + 1) == Min(2 * BackoffMillis(attempts), 600_000)
    ensures 1_000 <= BackoffMillis(attempts) <= 600_000
  {
    assert Power2(1) == 2 * Power2(0);
    PowerIsPositive(attempts);
  }

  lemma {:induction false} PowerIsPositive(n: nat)
    ensures Power2(n) >= 1
  {
    if n > 0 {
      PowerIsPositive(n - 1);
    }
  }

  /** A job that waits is handed out at a moment from its time on, while it has attempts left. */
  ghost predicate HandedOutFrom(r: Row, time: Time) {
    forall now: Time :: Claimable(r, now) <==> time <= now
  }

  ghost predicate NeverHandedOut(r: Row) {
    forall now: Time :: !Claimable(r, now)
  }

  /** What no transaction but the enqueueing changes. */
  predicate SameJob(r: Row, r': Row) {
    r'.workspace == r.workspace && r'.kind == r.kind && r'.maxAttempts == r.maxAttempts && r'.createdAt == r.createdAt
  }

  /** A new job can be handed out from the moment it asks for, and has used no attempt. */
  lemma NewJobWaits(workspace: nat, kind: string, maxAttempts: nat, runAfter: Time, now: Time)
    requires 1 <= maxAttempts <= 25
    ensures var r := NewRow(workspace, kind, maxAttempts, runAfter, now);
      && RowOk(r) && HandedOutFrom(r, runAfter)
      && r.workspace == workspace && r.kind == kind && r.maxAttempts == maxAttempts && r.attempts == 0
  {
  }

  /** A job that is handed out costs an attempt, is leased to the token, and goes to nobody else meanwhile. */
  lemma ClaimedJobIsLeased(r: Row, token: Token, leaseSeconds: int, now: Time)
    requires RowOk(r) && Claimable(r, now)
    ensures var r' := ClaimRow(r, token, leaseSeconds, now);
      && RowOk(r') && SameJob(r, r') && NeverHandedOut(r') && !Terminal(r')
      && r'.attempts == r.attempts + 1
      && r'.lease == Some(Lease(token, now + LeaseMillis(leaseSeconds))) && r'.claimedAt == Some(now)
      && r'.runAfter == r.runAfter && r'.lastError == r.lastError
  {
  }

  /** A heartbeat moves the end of the lease and nothing else. */
  lemma HeartbeatMovesExpiry(r: Row, token: Token, leaseSeconds: int, now: Time)
    requires RowOk(r) && r.lease.Some? && r.lease.value.token == token
    ensures var r' := HeartbeatRow(r, token, leaseSeconds, now);
      && RowOk(r') && r'.lease.Some? && r'.lease.value.token == token
      && r'.lease.value.expiresAt == now + LeaseMillis(leaseSeconds)
      && r'.(lease := r.lease) == r
  {
  }

  /** A completed job is finished without an error. */
  lemma CompletedJobIsFinished(r: Row, now: Time)
    requires RowOk(r)
    ensures var r' := CompleteRow(r, now);
      && RowOk(r') && SameJob(r, r') && Terminal(r') && NeverHandedOut(r')
      && r'.status == Completed && r'.completedAt == Some(now) && r'.lastError.None? && r'.attempts == r.attempts
  {
  }

  /**
    A failed job keeps its error. With an attempt left it can be handed out again, from the end of
    its backoff on; otherwise it is finished.
   */
  lemma FailedJobIsRetried(r: Row, error: string, now: Time)
    requires RowOk(r)
    ensures var r' := FailRow(r, error, now);
      && RowOk(r') && SameJob(r, r') && r'.lease.None? && r'.claimedAt.None?
      && r'.attempts == r.attempts && r'.lastError == Some(error) && r'.completedAt == r.completedAt
      && (r.attempts < r.maxAttempts ==> r'.status == Pending && HandedOutFrom(r', now + BackoffMillis(r.attempts)))
      && (r.attempts == r.maxAttempts ==> r'.status == Failed && NeverHandedOut(r'))
  {
  }

  /**
    A reaper pass changes exactly the unlocked jobs that are leased past their expiry or wait without
    an attempt left, and fails them, with their last error if they have one.
   */
  lemma ReaperTakesExactly(rows: Table, leaseSeconds: int, now: Time, locked: set<JobId>, id: JobId)
    requires id in rows && RowOk(rows[id])
    ensures var r, after := rows[id], ReapStaleJobs(rows, leaseSeconds, now, locked);
      && after.Keys == rows.Keys
      && (after[id] != r <==>
            && id !in locked
            && ((r.lease.Some? && r.lease.value.expiresAt <= now) || (r.status == Pending && r.attempts == r.maxAttempts)))
      && (after[id] != r ==>
            after[id] == FailRow(r,
              if r.lastError.Some? && r.lastError.value != "" then r.lastError.value
              else if r.lease.Some? then "Job lease expired before settlement."
              else "Job retry budget was exhausted before it could be claimed.", now))
  {
  }

  /** Cancelling finishes a waiting job of the workspace and touches no other. */
  lemma CancelExactly(rows: Table, workspace: nat, id: JobId, now: Time, other: JobId)
    requires other in rows
    ensures var after := CancelJob(rows, workspace, id, now);
      && after.Keys == rows.Keys
      && (other == id && rows[id].workspace == workspace && rows[id].status == Pending ==> after[id] == CompleteRow(rows[id], now))
      && (!(other == id && rows[id].workspace == workspace && rows[id].status == Pending) ==> after[other] == rows[other])
  {
  }
}
