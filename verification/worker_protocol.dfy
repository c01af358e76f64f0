/**
  The whole lease protocol as one state machine: any number of workers running the claim
  loop and runOnce, the job table, the reaper, and a network that may lose or delay any
  request. Each worker phase is one await of the program text; an event is what ends it.
 */
module WorkerProtocol {
  import opened Prelude
  import opened JobQueue
  import opened LeaseHeartbeat
  import GuardedFetch

  type WorkerId = nat

  datatype Claim = Claim(job: JobId, workspace: nat, kind: string, token: Token)

  datatype Request =
    | ClaimRequest
    | HeartbeatRequest(claim: Claim, serial: nat)
    | CompleteRequest(claim: Claim)
    | FailRequest(claim: Claim, error: string)

  datatype Reply = ClaimReply(found: Option<Claim>) | Flag(ok: bool) | Outcome(status: Option<Status>)

  /** One RPC as its caller sees it. */
  datatype Call = NoCall | Sent(request: Request) | Answered(reply: Reply)

  datatype Handler = Running | Succeeded | Threw(message: string)

  /** What settled the race between handler, lease loss and execution timeout. */
  datatype Winner = HandlerDone | HandlerFailed(message: string) | LeaseWasLost | TimedOut

  datatype Phase =
    | Idle
    | Claiming
    | Racing(winner: Option<Winner>)
    | Stopping(outcome: Option<string>)
    | LeaseDrain
    | TimeoutDrain(error: string)
    | Completing
    | Failing(error: string)
    | RestartRequired
    | Exited
    | Crashed

  datatype Worker = Worker(
    phase: Phase,
    claim: Option<Claim>,
    handler: Handler,
    hb: Heartbeat,
    timedOut: bool,
    shutdown: bool,
    call: Call,
    beat: Call,
    // heartbeats sent under this claim
    beats: nat,
    // instants at which the timer last fired and the two calls were sent
    lastTick: Time,
    beatSentAt: Time,
    callSentAt: Time)

  datatype Report = ReportedCompleted(worker: WorkerId, token: Token) | ReportedFailed(worker: WorkerId, token: Token, status: Status)

  /** A lease the database issued: for which job, to which worker, until when. */
  datatype Grant = Grant(job: JobId, owner: Option<WorkerId>, expiry: Time)

  /** A claim whose worker has taken up another since: its handler has ended, and had its signal aborted by then or not. */
  datatype Past = Past(worker: WorkerId, kind: string, aborted: bool)

  /** A provider request that went out: for which claim of which worker, and whether the execution signal had aborted by then. */
  datatype Wire = Wire(
    worker: WorkerId,
    token: Token,
    kind: string,
    aborted: bool,
    transport: GuardedFetch.Transport,
    request: GuardedFetch.Request)

  datatype System = System(
    now: Time,
    rows: Table,
    workers: map<WorkerId, Worker>,
    // requests nobody waits for any more that are still on their way
    stray: set<Request>,
    // history
    grants: map<Token, Grant>,
    settlements: seq<Token>,
    lost: set<Token>,
    reaped: set<Token>,
    completions: map<Token, JobId>,
    reports: set<Report>,
    wire: seq<Wire>,
    tolerated: set<Request>,
    past: map<Token, Past>)

  datatype Pick = NoRow | PickRow(id: JobId, token: Token, locked: set<JobId>)

  datatype Step =
    | Crash
    | Shutdown
    | Poll
    | LoopExit
    | CallAnswered
    | CallFailed
    | HandlerSettles(result: Handler)
    | TimerFires
    | BeatAnswered
    | BeatFailed
    | ExecutionTimeout
    | RaceContinues
    | HeartbeatStopped
    | DrainDone
    | DrainExpired

  datatype Event =
    | Advance(duration: nat)
    | Enqueue(id: JobId, workspace: nat, kind: string, maxAttempts: nat, runAfter: Time)
    | Cancel(id: JobId, workspace: nat)
    | Reap(locked: set<JobId>)
    | Spawn(worker: WorkerId)
    | ServeCall(worker: WorkerId, pick: Pick)
    | ServeBeat(worker: WorkerId)
    | ServeStray(request: Request, pick: Pick, again: bool)
    | Fetch(worker: WorkerId, transport: GuardedFetch.Transport, outgoing: GuardedFetch.Request)
    | FetchLate(token: Token, transport: GuardedFetch.Transport, outgoing: GuardedFetch.Request)
    | Local(worker: WorkerId, step: Step)

  const INTERVAL_CLEARED := Heartbeat(true, None, false, 0, 0)
  const FRESH_WORKER := Worker(Idle, None, Succeeded, INTERVAL_CLEARED, false, false, NoCall, NoCall, 0, 0, 0, 0)

  function Init(now: Time): System {
    System(now, map[], map[], {}, map[], [], {}, {}, map[], {}, [], {}, map[])
  }

  predicate Aborted(wk: Worker) {
    wk.hb.failure.Some? || wk.timedOut || wk.shutdown
  }

  predicate Live(wk: Worker) {
    !wk.phase.RestartRequired? && !wk.phase.Exited? && !wk.phase.Crashed?
  }

  /** The claim is held and not yet settled. */
  predicate Held(wk: Worker) {
    wk.phase.Racing? || wk.phase.Stopping? || wk.phase.LeaseDrain? || wk.phase.TimeoutDrain?
  }

  predicate Settling(wk: Worker) {
    wk.phase.Completing? || wk.phase.Failing?
  }

  function Unserved(call: Call): set<Request> {
    if call.Sent? then {call.request} else {}
  }

  // ----- worker steps

  /** When a step of a worker can happen. */
  predicate CanStep(wk: Worker, step: Step) {
    && Live(wk)
    && match step
       case Crash => true
       case Shutdown => true
       case Poll => wk.phase.Idle? && !wk.shutdown
       case LoopExit => wk.phase.Idle? && wk.shutdown
       case CallAnswered =>
         && wk.call.Answered?
         && ((wk.phase.Claiming? && wk.call.reply.ClaimReply?)
             || (wk.phase.Completing? && wk.call.reply.Flag?)
             || (wk.phase.Failing? && wk.call.reply.Outcome?))
       case CallFailed => (wk.phase.Claiming? || Settling(wk)) && !wk.call.NoCall?
       case HandlerSettles(result) => Held(wk) && wk.handler.Running? && !result.Running?
       case TimerFires => Held(wk) && !wk.hb.stopped && wk.hb.failure.None?
       case BeatAnswered => Held(wk) && wk.beat.Answered? && wk.beat.reply.Flag?
       case BeatFailed => Held(wk) && !wk.beat.NoCall?
       case ExecutionTimeout => wk.phase.Racing? && !wk.timedOut
       case RaceContinues => wk.phase.Racing? && wk.phase.winner.Some?
       case HeartbeatStopped => wk.phase.Stopping? && !wk.hb.inFlight
       case DrainDone => (wk.phase.LeaseDrain? || wk.phase.TimeoutDrain?) && !wk.handler.Running?
       case DrainExpired => (wk.phase.LeaseDrain? || wk.phase.TimeoutDrain?) && wk.handler.Running?
  }

  /** The race settles once, with the first outcome. */
  function Win(phase: Phase, winner: Winner): Phase {
    if phase.Racing? && phase.winner.None? then Racing(Some(winner)) else phase
  }

  const TIMEOUT_MESSAGE := "Job execution timed out."
  const LEASE_MESSAGE := "heartbeat_job lost the lease."

  function AsError(winner: Winner): Option<string> {
    match winner
    case HandlerDone => None
    case HandlerFailed(m) => Some(m)
    case LeaseWasLost => Some(LEASE_MESSAGE)
    case TimedOut => Some(TIMEOUT_MESSAGE)
  }

  function SendFail(wk: Worker, error: string, now: Time): Worker
    requires wk.claim.Some?
  {
    wk.(phase := Failing(error), call := Sent(FailRequest(wk.claim.value, error)), callSentAt := now)
  }

  /** A claimed job starts: heartbeat, handler and race. A malformed claim is abandoned. */
  function BeginJob(c: Config, wk: Worker, claim: Claim, now: Time): Worker {
    if claim.kind == "" then wk.(phase := Idle, call := NoCall)
    else wk.(phase := Racing(None), claim := Some(claim), handler := Running, hb := Start(c, now),
             timedOut := false, call := NoCall, beat := NoCall, beats := 0, lastTick := now)
  }

  function RejectBeat(c: Config, wk: Worker, failure: Failure, now: Time): Worker {
    var hb := Rejected(c, wk.hb, failure, now);
    wk.(hb := hb, beat := NoCall,
        phase := if hb.failure.Some? then Win(wk.phase, LeaseWasLost) else wk.phase)
  }

  function StepWorker(c: Config, wk: Worker, step: Step, now: Time): Worker
    requires CanStep(wk, step)
    requires Held(wk) ==> wk.claim.Some?
  {
    match step
    case Crash => wk.(phase := Crashed, call := NoCall, beat := NoCall)
    case Shutdown => wk.(shutdown := true)
    case Poll => wk.(phase := Claiming, call := Sent(ClaimRequest), callSentAt := now)
    case LoopExit => wk.(phase := Exited)
    case CallAnswered =>
      if wk.phase.Claiming? && wk.call.reply.found.Some? then BeginJob(c, wk, wk.call.reply.found.value, now)
      else wk.(phase := Idle, call := NoCall)
    case CallFailed => wk.(phase := Idle, call := NoCall)
    case HandlerSettles(result) =>
      wk.(handler := result,
          phase := Win(wk.phase, if result.Threw? then HandlerFailed(result.message) else HandlerDone))
    case TimerFires =>
      if Sends(wk.hb, now) then
        wk.(hb := Tick(wk.hb, now), beat := Sent(HeartbeatRequest(wk.claim.value, wk.beats)), beats := wk.beats + 1,
            lastTick := now, beatSentAt := now)
      else wk.(lastTick := now)
    case BeatAnswered =>
      if wk.beat.reply.ok then wk.(hb := Resolved(c, wk.hb, now), beat := NoCall)
      else RejectBeat(c, wk, LeaseLost, now)
    case BeatFailed => RejectBeat(c, wk, TransportFailed, now)
    case ExecutionTimeout => wk.(timedOut := true, phase := Win(wk.phase, TimedOut))
    case RaceContinues => wk.(phase := Stopping(AsError(wk.phase.winner.value)), hb := Stop(wk.hb))
    case HeartbeatStopped =>
      if wk.hb.failure.Some? then wk.(phase := LeaseDrain)
      else if wk.phase.outcome.None? then
        wk.(phase := Completing, call := Sent(CompleteRequest(wk.claim.value)), callSentAt := now)
      else if wk.timedOut then wk.(phase := TimeoutDrain(wk.phase.outcome.value))
      else SendFail(wk, wk.phase.outcome.value, now)
    case DrainDone =>
      if wk.phase.LeaseDrain? then wk.(phase := Idle) else SendFail(wk, wk.phase.error, now)
    case DrainExpired => wk.(phase := RestartRequired)
  }

  /** What the step tells the log: only a confirmed settlement is reported. */
  function ReportOf(w: WorkerId, wk: Worker, step: Step): set<Report>
    requires CanStep(wk, step)
    requires Settling(wk) ==> wk.claim.Some?
  {
    if !step.CallAnswered? || wk.phase.Claiming? then {}
    else if wk.phase.Completing? then
      if wk.call.reply.ok then {ReportedCompleted(w, wk.claim.value.token)} else {}
    else if wk.call.reply.status.Some? then {ReportedFailed(w, wk.claim.value.token, wk.call.reply.status.value)} else {}
  }

  /** Requests the caller stopped waiting for; they may still reach the database. */
  function Abandons(wk: Worker, step: Step): set<Request> {
    match step
    case Crash => Unserved(wk.call) + Unserved(wk.beat)
    case CallFailed => Unserved(wk.call)
    case BeatFailed => Unserved(wk.beat)
    case _ => {}
  }

  /** A heartbeat given up without declaring the lease lost, though it may still be on its way. */
  function Tolerates(wk: Worker, wk': Worker, step: Step): set<Request> {
    if step.BeatFailed? && wk'.hb.failure.None? then Unserved(wk.beat) else {}
  }

  // ----- database steps

  predicate CanServe(s: System, request: Request, pick: Pick) {
    request.ClaimRequest? && pick.PickRow? ==>
      pick.token !in s.grants && pick.id in s.rows && pick.id !in pick.locked && Claimable(s.rows[pick.id], s.now)
  }

  function Issued(s: System, pick: Pick): Claim
    requires pick.PickRow? && pick.id in s.rows
  {
    Claim(pick.id, s.rows[pick.id].workspace, s.rows[pick.id].kind, pick.token)
  }

  predicate Fenced(s: System, claim: Claim) {
    HoldsLease(s.rows, claim.workspace, claim.job, claim.token, s.now)
  }

  function ReplyTo(s: System, request: Request, pick: Pick): Reply
    requires CanServe(s, request, pick)
  {
    match request
    case ClaimRequest => ClaimReply(if pick.NoRow? then None else Some(Issued(s, pick)))
    case HeartbeatRequest(claim, _) => Flag(Fenced(s, claim))
    case CompleteRequest(claim) => Flag(Fenced(s, claim))
    case FailRequest(claim, error) =>
      Outcome(if Fenced(s, claim) then Some(FailRow(s.rows[claim.job], error, s.now).status) else None)
  }

  function Serve(c: Config, s: System, owner: Option<WorkerId>, request: Request, pick: Pick): System
    requires CanServe(s, request, pick)
  {
    match request
    case ClaimRequest =>
      if pick.NoRow? then s
      else s.(rows := s.rows[pick.id := ClaimRow(s.rows[pick.id], pick.token, c.leaseSeconds, s.now)],
              grants := s.grants[pick.token := Grant(pick.id, owner, s.now + LeaseMillis(c.leaseSeconds))])
    case HeartbeatRequest(claim, _) =>
      if !Fenced(s, claim) || claim.token !in s.grants then s
      else s.(rows := s.rows[claim.job := HeartbeatRow(s.rows[claim.job], claim.token, c.leaseSeconds, s.now)],
              grants := s.grants[claim.token := s.grants[claim.token].(expiry := s.now + LeaseMillis(c.leaseSeconds))])
    case CompleteRequest(claim) =>
      if !Fenced(s, claim) then s
      else s.(rows := s.rows[claim.job := CompleteRow(s.rows[claim.job], s.now)],
              completions := s.completions[claim.token := claim.job])
    case FailRequest(claim, error) =>
      if !Fenced(s, claim) then s
      else s.(rows := s.rows[claim.job := FailRow(s.rows[claim.job], error, s.now)])
  }

  /** The lease tokens a reaper pass takes away. */
  function Revoked(s: System, c: Config, locked: set<JobId>): set<Token> {
    set id | id in s.rows && id !in locked && Stale(s.rows[id], c.leaseSeconds, s.now) && s.rows[id].lease.Some?
      :: s.rows[id].lease.value.token
  }

  // ----- events

  predicate Enabled(c: Config, s: System, ev: Event) {
    match ev
    case Advance(_) => true
    case Enqueue(id, _, kind, maxAttempts, _) => Enqueueable(s.rows, id, kind, maxAttempts)
    case Cancel(_, _) => true
    case Reap(_) => true
    case Spawn(w) => w !in s.workers
    case ServeCall(w, pick) =>
      w in s.workers && s.workers[w].call.Sent? && CanServe(s, s.workers[w].call.request, pick)
    case ServeBeat(w) => w in s.workers && s.workers[w].beat.Sent? && !s.workers[w].beat.request.ClaimRequest?
    case ServeStray(request, pick, _) => request in s.stray && CanServe(s, request, pick)
    case Fetch(w, _, _) => w in s.workers && Live(s.workers[w]) && s.workers[w].claim.Some?
    case FetchLate(t, _, _) => t in s.past && s.past[t].worker in s.workers && Live(s.workers[s.past[t].worker])
    case Local(w, step) =>
      && w in s.workers && CanStep(s.workers[w], step)
      && (Held(s.workers[w]) || Settling(s.workers[w]) ==> s.workers[w].claim.Some?)
  }

  function Apply(c: Config, s: System, ev: Event): System
    requires Enabled(c, s, ev)
  {
    match ev
    case Advance(duration) => s.(now := s.now + duration)
    case Enqueue(id, workspace, kind, maxAttempts, runAfter) =>
      s.(rows := s.rows[id := NewRow(workspace, kind, maxAttempts, runAfter, s.now)])
    case Cancel(id, workspace) => s.(rows := CancelJob(s.rows, workspace, id, s.now))
    case Reap(locked) =>
      s.(rows := ReapStaleJobs(s.rows, c.leaseSeconds, s.now, locked), reaped := s.reaped + Revoked(s, c, locked))
    case Spawn(w) => s.(workers := s.workers[w := FRESH_WORKER])
    case ServeCall(w, pick) =>
      var request := s.workers[w].call.request;
      Serve(c, s, Some(w), request, pick).(
        workers := s.workers[w := s.workers[w].(call := Answered(ReplyTo(s, request, pick)))])
    case ServeBeat(w) =>
      var request := s.workers[w].beat.request;
      Serve(c, s, Some(w), request, NoRow).(
        workers := s.workers[w := s.workers[w].(beat := Answered(ReplyTo(s, request, NoRow)))])
    case ServeStray(request, pick, again) =>
      Serve(c, s, None, request, pick).(stray := if again then s.stray else s.stray - {request})
    case Fetch(w, transport, outgoing) =>
      var claim := s.workers[w].claim.value;
      Attempt(s, Wire(w, claim.token, claim.kind, Aborted(s.workers[w]), transport, outgoing))
    case FetchLate(t, transport, outgoing) =>
      Attempt(s, Wire(s.past[t].worker, t, s.past[t].kind, PastAborted(s, t), transport, outgoing))
    case Local(w, step) => ApplyLocal(c, s, w, step)
  }

  /** The signal of a past claim aborts no later than at the worker's shutdown. */
  predicate PastAborted(s: System, t: Token)
    requires t in s.past && s.past[t].worker in s.workers
  {
    s.past[t].aborted || s.workers[s.past[t].worker].shutdown
  }

  /** A request through a handler's transport goes out or is rejected there. */
  function Attempt(s: System, e: Wire): System {
    if GuardedFetch.HandlerFetch(e.kind, e.aborted, e.transport, e.request).None? then s else s.(wire := s.wire + [e])
  }

  /** A worker that takes up another claim leaves the one before behind. */
  function LeftBehind(w: WorkerId, wk: Worker, wk': Worker): map<Token, Past> {
    if wk.claim.Some? && wk'.claim != wk.claim
    then map[wk.claim.value.token := Past(w, wk.claim.value.kind, Aborted(wk))] else map[]
  }

  /** The lease for which a settlement is sent. */
  function Settles(wk: Worker, wk': Worker): seq<Token>
    requires Held(wk) ==> wk.claim.Some?
  {
    if Held(wk) && Settling(wk') then [wk.claim.value.token] else []
  }

  /** The lease that is declared lost. */
  function Loses(wk: Worker, wk': Worker): set<Token>
    requires Held(wk) ==> wk.claim.Some?
  {
    if Held(wk) && wk.hb.failure.None? && wk'.hb.failure.Some? then {wk.claim.value.token} else {}
  }

  function ApplyLocal(c: Config, s: System, w: WorkerId, step: Step): System
    requires Enabled(c, s, Local(w, step))
  {
    var wk := s.workers[w];
    var wk' := StepWorker(c, wk, step, s.now);
    Commit(s, w, wk', Abandons(wk, step), Tolerates(wk, wk', step),
           Settles(wk, wk'), Loses(wk, wk'),
           ReportOf(w, wk, step), LeftBehind(w, wk, wk'))
  }

  /** Worker `w` becomes `wk`; what it did is added to the network and to the history. */
  function Commit(s: System, w: WorkerId, wk: Worker, abandoned: set<Request>, tolerated: set<Request>, settled: seq<Token>,
                  lost: set<Token>, reports: set<Report>, past: map<Token, Past>): System
  {
    s.(workers := s.workers[w := wk],
       stray := s.stray + abandoned,
       tolerated := s.tolerated + tolerated,
       settlements := s.settlements + settled,
       lost := s.lost + lost,
       reports := s.reports + reports,
       past := s.past + past)
  }

  /** The state after a run of events from an empty system. */
  function After(c: Config, start: Time, run: seq<Event>): Option<System> {
    if run == [] then Some(Init(start))
    else
      var before := After(c, start, run[..|run| - 1]);
      if before.Some? && Enabled(c, before.value, run[|run| - 1])
      then Some(Apply(c, before.value, run[|run| - 1]))
      else None
  }

  ghost predicate Reachable(c: Config, s: System) {
    exists start, run :: After(c, start, run) == Some(s)
  }
}
