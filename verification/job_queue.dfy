/**
  The table public.job_queue and the lease RPCs the worker calls. Every RPC is one
  transaction, so each is a function from the table it finds to the table it leaves.
  Times are whole milliseconds; `now` is the transaction's clock.
 */
module JobQueue {
  import opened Prelude

  type Time = int
  type JobId = nat
  type Token = nat

  datatype Status = Pending | Processing | Completed | Failed

  /** lease_token and lease_expires_at, which are null together or not at all. */
  datatype Lease = Lease(token: Token, expiresAt: Time)

  datatype Row = Row(
    workspace: nat,
    kind: string,
    status: Status,
    attempts: nat,
    maxAttempts: nat,
    runAfter: Time,
    claimedAt: Option<Time>,
    completedAt: Option<Time>,
    lastError: Option<string>,
    lease: Option<Lease>,
    createdAt: Time)

  type Table = map<JobId, Row>

  /** The table constraints on one row, with the lease held exactly while processing. */
  predicate RowOk(r: Row) {
    && 1 <= r.maxAttempts <= 25
    && r.attempts <= r.maxAttempts
    && (r.lease.Some? <==> r.status == Processing)
  }

  predicate Terminal(r: Row) {
    r.status == Completed || r.status == Failed
  }

  function LeaseMillis(leaseSeconds: int): int {
    1000 * Max(30, Min(leaseSeconds, 3600))
  }

  function Power2(n: nat): nat {
    if n == 0 then 1 else 2 * Power2(n - 1)
  }

  function BackoffMillis(attempts: nat): int {
    Min(1000 * Power2(attempts), 600_000)
  }

  // ----- claim_job_v2

  predicate Claimable(r: Row, now: Time) {
    r.status == Pending && r.runAfter <= now && r.attempts < r.maxAttempts
  }

  function ClaimRow(r: Row, token: Token, leaseSeconds: int, now: Time): Row {
    r.(status := Processing,
       claimedAt := Some(now),
       attempts := r.attempts + 1,
       lease := Some(Lease(token, now + LeaseMillis(leaseSeconds))))
  }

  // ----- heartbeat_job, complete_job_v2, fail_job_v2

  /** The fence of the three token-checked RPCs. */
  predicate HoldsLease(rows: Table, workspace: nat, id: JobId, token: Token, now: Time) {
    && id in rows
    && rows[id].workspace == workspace
    && rows[id].status == Processing
    && rows[id].lease.Some?
    && rows[id].lease.value.token == token
    && rows[id].lease.value.expiresAt > now
  }

  function HeartbeatRow(r: Row, token: Token, leaseSeconds: int, now: Time): Row {
    r.(lease := Some(Lease(token, now + LeaseMillis(leaseSeconds))))
  }

  function CompleteRow(r: Row, now: Time): Row {
    r.(status := Completed, claimedAt := None, completedAt := Some(now), lastError := None, lease := None)
  }

  function FailRow(r: Row, error: string, now: Time): Row {
    if r.attempts >= r.maxAttempts then
      r.(status := Failed, claimedAt := None, lastError := Some(error), lease := None)
    else
      r.(status := Pending, claimedAt := None, lastError := Some(error),
         runAfter := now + BackoffMillis(r.attempts), lease := None)
  }

  // ----- reap_stale_jobs

  predicate Stale(r: Row, leaseSeconds: int, now: Time) {
    || (r.status == Pending && r.attempts >= r.maxAttempts)
    || (r.status == Processing
        && ((r.lease.Some? && r.lease.value.expiresAt <= now)
            || (r.lease.None? && r.claimedAt.Some? && r.claimedAt.value < now - LeaseMillis(leaseSeconds))))
  }

  function ReapError(r: Row): string {
    if r.lastError.Some? && r.lastError.value != "" then r.lastError.value
    else if r.status == Pending then "Job retry budget was exhausted before it could be claimed."
    else "Job lease expired before settlement."
  }

  function ReapRow(r: Row, now: Time): Row {
    FailRow(r, ReapError(r), now)
  }

  function ReapStaleJobs(rows: Table, leaseSeconds: int, now: Time, locked: set<JobId>): Table {
    map id | id in rows ::
      if id !in locked && Stale(rows[id], leaseSeconds, now) then ReapRow(rows[id], now) else rows[id]
  }

  // ----- enqueue_job_v2, cancel_job_v2

  function NewRow(workspace: nat, kind: string, maxAttempts: nat, runAfter: Time, now: Time): Row {
    Row(workspace, kind, Pending, 0, maxAttempts, runAfter, None, None, None, None, now)
  }

  predicate Enqueueable(rows: Table, id: JobId, kind: string, maxAttempts: nat) {
    id !in rows && kind != "" && 1 <= maxAttempts <= 25
  }

  function CancelJob(rows: Table, workspace: nat, id: JobId, now: Time): Table {
    if id in rows && rows[id].workspace == workspace && rows[id].status == Pending
    then rows[id := CompleteRow(rows[id], now)]
    else rows
  }
}
