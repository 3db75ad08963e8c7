/**
 * The batch job protocol as a step system: any number of workers, submitters, recovery scanners and cancellers
 * share one job store and one queue. Every awaited call is one atomic step, so all interleavings of calls are runs.
 */
module BatchProtocol {
  import opened Wrappers
  import opened BatchStatus
  import opened BatchStore
  import opened BatchQueue
  import opened AuditService
  import opened Leases

  // ---- program counters -------------------------------------------------------

  /** How the last `process_one` of a worker ended. */
  datatype Return = NotRun | Returned(processed: bool) | Raised(error: Error)

  /** Where an agent stands: the call it will make next, and its local variables. */
  datatype Pc =
    // a worker, inside process_one
    | Idle(last: Return)
    | Popped(job: JobId)
    | Fetched(job: JobId)
    | Deferring(job: JobId)
    | Ready(job: JobId)
    | Claimed(job: JobId)
    | Admitted(job: JobId, lease: nat)
    | Audited(job: JobId, lease: nat, audit: nat)
    | Responded(job: JobId, lease: nat, audit: nat, response: string)
    | Settled(job: JobId, lease: nat, audit: nat, response: string, usage: Usage)
    | Completed(job: JobId, lease: nat, audit: nat, response: string, usage: Usage)
    | FailTokens(job: JobId, held: Option<nat>, started: Option<nat>, error: Error)
    | FailAudit(job: JobId, held: Option<nat>, started: Option<nat>, error: Error)
    | FailMark(job: JobId, held: Option<nat>, error: Error)
    | Releasing(held: Option<nat>, answer: Return)
    // any agent that died; a worker may have held a lease
    | Crashed(held: Option<nat>)
    // a submitter, inside submit
    | SubmitIdle
    | Enqueuing(job: JobId)
    // a recovery scanner, inside reenqueue_missing
    | ScanIdle(count: Option<nat>)
    | Scanning(todo: seq<JobId>, requeued: nat)
    | Inserting(job: JobId, todo: seq<JobId>, requeued: nat)
    // a canceller, inside cancel
    | CancelIdle
    | Cancelling(job: JobId)
    | Rereading(job: JobId)
    | CancelReturned(job: JobId, status: Status)

  function PcLease(pc: Pc): Option<nat> {
    match pc
    case Admitted(_, l) => Some(l)
    case Audited(_, l, _) => Some(l)
    case Responded(_, l, _, _) => Some(l)
    case Settled(_, l, _, _, _) => Some(l)
    case Completed(_, l, _, _, _) => Some(l)
    case FailTokens(_, held, _, _) => held
    case FailAudit(_, held, _, _) => held
    case FailMark(_, held, _) => held
    case Releasing(held, _) => held
    case Crashed(held) => held
    case _ => None
  }

  function PcAudit(pc: Pc): Option<nat> {
    match pc
    case Audited(_, _, a) => Some(a)
    case Responded(_, _, a, _) => Some(a)
    case Settled(_, _, a, _, _) => Some(a)
    case Completed(_, _, a, _, _) => Some(a)
    case FailTokens(_, _, started, _) => started
    case FailAudit(_, _, started, _) => started
    case _ => None
  }

  /** The job a worker has claimed and not yet marked. */
  function PcOwned(pc: Pc): Option<JobId> {
    match pc
    case Claimed(j) => Some(j)
    case Admitted(j, _) => Some(j)
    case Audited(j, _, _) => Some(j)
    case Responded(j, _, _, _) => Some(j)
    case Settled(j, _, _, _, _) => Some(j)
    case Completed(j, _, _, _, _) => Some(j)
    case FailTokens(j, _, _, _) => Some(j)
    case FailAudit(j, _, _, _) => Some(j)
    case FailMark(j, _, _) => Some(j)
    case _ => None
  }

  /** The job an agent alone is about to hand on: popped and not yet claimed, or created and not yet enqueued. */
  function PcCarried(pc: Pc): Option<JobId> {
    match pc
    case Popped(j) => Some(j)
    case Fetched(j) => Some(j)
    case Deferring(j) => Some(j)
    case Ready(j) => Some(j)
    case Enqueuing(j) => Some(j)
    case _ => None
  }

  // ---- the state --------------------------------------------------------------

  /** An audit record with the job it was started for and the lease that job ran under. */
  datatype AuditRecord = AuditRecord(job: JobId, lease: nat, final: Option<AuditFinal>)

  /**
   * The shared state, the agents, and four history variables that no step reads: every job's past statuses, the
   * worker that claimed it, its audit record, and the log of vLLM calls.
   */
  datatype State = State(
    kind: QueueKind,
    store: Store,
    queue: seq<JobId>,
    audits: seq<AuditRecord>,
    leases: seq<Lease>,
    agents: map<nat, Pc>,
    history: map<JobId, seq<Status>>,
    claimant: map<JobId, nat>,
    auditOf: map<JobId, nat>,
    calls: seq<JobId>)

  /** Extends every job's history by its new status whenever a store operation changed it. */
  function Observe(history: map<JobId, seq<Status>>, before: Store, after: Store): map<JobId, seq<Status>> {
    map j | j in after.jobs ::
      if j !in history || j !in before.jobs then [after.jobs[j].status]
      else if after.jobs[j].status == before.jobs[j].status then history[j]
      else history[j] + [after.jobs[j].status]
  }

  // ---- effects ----------------------------------------------------------------

  /** What one call does to the shared state. */
  datatype Effect =
    | NoEffect
    | PopHead
    | PushBack(job: JobId)
    | CreateJob(job: JobId, spec: JobSpec)
    | ClaimJob(job: JobId)
    | CancelJob(job: JobId)
    | MarkDone(job: JobId, response: string, usage: Usage)
    | MarkError(job: JobId, error: Error)
    | GrantLease(reserved: int)
    | FinalizeLease(lease: nat, actual: int, releaseAll: bool)
    | ReleaseLease(lease: nat)
    | StartAudit(job: JobId, lease: nat)
    | FinalizeAudit(audit: nat, final: AuditFinal)
    | CallVllm(job: JobId)

  function StoreAfter(store: Store, effect: Effect): Store {
    match effect
    case CreateJob(j, spec) => Create(store, j, spec)
    case ClaimJob(j) => Transition(store, j, Running)
    case CancelJob(j) => Transition(store, j, Cancelled)
    case MarkDone(j, response, usage) => MarkSucceeded(store, j, response, usage)
    case MarkError(j, error) => MarkFailed(store, j, error)
    case _ => store
  }

  predicate OnStore(effect: Effect) {
    effect.CreateJob? || effect.ClaimJob? || effect.CancelJob? || effect.MarkDone? || effect.MarkError?
  }

  function QueueAfter(kind: QueueKind, queue: seq<JobId>, effect: Effect): seq<JobId> {
    match effect
    case PopHead => if queue == [] then [] else queue[1..]
    case PushBack(j) => Enqueue(kind, queue, j)
    case _ => queue
  }

  function LeasesAfter(leases: seq<Lease>, x: nat, effect: Effect): seq<Lease> {
    match effect
    case GrantLease(reserved) => leases + [NewLease(reserved, x)]
    case FinalizeLease(l, actual, releaseAll) =>
      if l < |leases| then leases[l := FinalizeTokens(leases[l], actual, releaseAll)] else leases
    case ReleaseLease(l) => if l < |leases| then leases[l := ReleaseSlot(leases[l])] else leases
    case _ => leases
  }

  function AuditsAfter(audits: seq<AuditRecord>, effect: Effect): seq<AuditRecord> {
    match effect
    case StartAudit(j, l) => audits + [AuditRecord(j, l, None)]
    case FinalizeAudit(a, final) => if a < |audits| then audits[a := audits[a].(final := Some(final))] else audits
    case _ => audits
  }

  function HistoryAfter(history: map<JobId, seq<Status>>, store: Store, effect: Effect): map<JobId, seq<Status>> {
    if OnStore(effect) then Observe(history, store, StoreAfter(store, effect)) else history
  }

  function ClaimantAfter(claimant: map<JobId, nat>, x: nat, effect: Effect): map<JobId, nat> {
    if effect.ClaimJob? then claimant[effect.job := x] else claimant
  }

  /** Agent `x` performs an effect. */
  function Perform(s: State, x: nat, effect: Effect): State {
    State(
      s.kind,
      StoreAfter(s.store, effect),
      QueueAfter(s.kind, s.queue, effect),
      AuditsAfter(s.audits, effect),
      LeasesAfter(s.leases, x, effect),
      s.agents,
      HistoryAfter(s.history, s.store, effect),
      ClaimantAfter(s.claimant, x, effect),
      if effect.StartAudit? then s.auditOf[effect.job := |s.audits|] else s.auditOf,
      if effect.CallVllm? then s.calls + [effect.job] else s.calls)
  }

  // ---- workers ------------------------------------------------------------------

  /** What each call that may raise does, should the agent make it: the only nondeterminism of a worker. */
  datatype Env = Env(
    dequeue: Outcome<()>,
    get: Outcome<()>,
    shouldRun: Outcome<bool>,
    enqueue: Outcome<()>,
    claim: Outcome<()>,
    admit: Outcome<int>,
    auditStart: Outcome<()>,
    vllm: Outcome<string>,
    usage: Outcome<Usage>,
    auditCompleted: Outcome<()>,
    markSucceeded: Outcome<()>,
    auditFailed: Outcome<()>,
    markFailed: Outcome<()>)

  /** The effect of an agent's next call, and where the agent stands after it. */
  datatype Move = Move(effect: Effect, next: Pc)

  predicate BeforeClaim(pc: Pc) {
    pc.Idle? || pc.Popped? || pc.Fetched? || pc.Deferring? || pc.Ready?
  }

  predicate InTry(pc: Pc) {
    pc.Claimed? || pc.Admitted? || pc.Audited? || pc.Responded? || pc.Settled? || pc.Completed?
  }

  predicate InHandler(pc: Pc) {
    pc.FailTokens? || pc.FailAudit? || pc.FailMark? || pc.Releasing?
  }

  /** The calls before the try: an exception there leaves `process_one`. */
  function ClaimMove(s: State, pc: Pc, env: Env): Move {
    match pc
    case Idle(_) =>
      if env.dequeue.Raise? then Move(NoEffect, Idle(Raised(env.dequeue.error)))
      else if s.queue == [] then Move(NoEffect, Idle(Returned(false)))
      else Move(PopHead, Popped(s.queue[0]))
    case Popped(j) =>
      if env.get.Raise? then Move(NoEffect, Idle(Raised(env.get.error)))
      else if j !in s.store.jobs || s.store.jobs[j].status == Cancelled then Move(NoEffect, Idle(Returned(false)))
      else Move(NoEffect, Fetched(j))
    case Fetched(j) =>
      if env.shouldRun.Raise? then Move(NoEffect, Idle(Raised(env.shouldRun.error)))
      else Move(NoEffect, if env.shouldRun.value then Ready(j) else Deferring(j))
    case Deferring(j) =>
      if env.enqueue.Raise? then Move(NoEffect, Idle(Raised(env.enqueue.error)))
      else Move(PushBack(j), Idle(Returned(false)))
    case Ready(j) =>
      if env.claim.Raise? then Move(NoEffect, Idle(Raised(env.claim.error)))
      else if !MayTransition(s.store, j, Running) then Move(NoEffect, Idle(Returned(false)))
      else Move(ClaimJob(j), Claimed(j))
    case _ => Move(NoEffect, pc)
  }

  /** The calls inside the try: an exception there enters the handler with the locals set so far. */
  function ExecuteMove(s: State, pc: Pc, env: Env): Move {
    match pc
    case Claimed(j) => (
      match env.admit
      case Raise(e) => Move(NoEffect, FailTokens(j, None, None, e))
      case Ok(reserved) => Move(GrantLease(reserved), Admitted(j, |s.leases|)))
    case Admitted(j, l) => (
      match env.auditStart
      case Raise(e) => Move(NoEffect, FailTokens(j, Some(l), None, e))
      case Ok(_) => Move(StartAudit(j, l), Audited(j, l, |s.audits|)))
    case Audited(j, l, a) => (
      match env.vllm
      case Raise(e) => Move(CallVllm(j), FailTokens(j, Some(l), Some(a), e))
      case Ok(response) => Move(CallVllm(j), Responded(j, l, a, response)))
    case Responded(j, l, a, response) => (
      match env.usage
      case Raise(e) => Move(NoEffect, FailTokens(j, Some(l), Some(a), e))
      case Ok(usage) => Move(FinalizeLease(l, usage.totalTokens, false), Settled(j, l, a, response, usage)))
    case Settled(j, l, a, response, usage) => (
      match env.auditCompleted
      case Raise(e) => Move(NoEffect, FailTokens(j, Some(l), Some(a), e))
      case Ok(_) => Move(FinalizeAudit(a, CompletedFinal(usage)), Completed(j, l, a, response, usage)))
    case Completed(j, l, a, response, usage) => (
      match env.markSucceeded
      case Raise(e) => Move(NoEffect, FailTokens(j, Some(l), Some(a), e))
      case Ok(_) => Move(MarkDone(j, response, usage), Releasing(Some(l), Returned(true))))
    case _ => Move(NoEffect, pc)
  }

  /** The handler and the finally block. An exception in the handler still runs the finally block. */
  function SettleMove(pc: Pc, env: Env): Move {
    match pc
    case FailTokens(j, held, started, e) =>
      Move(if held.Some? then FinalizeLease(held.value, 0, true) else NoEffect, FailAudit(j, held, started, e))
    case FailAudit(j, held, started, e) =>
      if started.None? then Move(NoEffect, FailMark(j, held, e))
      else (
        match env.auditFailed
        case Raise(e') => Move(NoEffect, Releasing(held, Raised(e')))
        case Ok(_) => Move(FinalizeAudit(started.value, FailedFinal(e.code)), FailMark(j, held, e)))
    case FailMark(j, held, e) => (
      match env.markFailed
      case Raise(e') => Move(NoEffect, Releasing(held, Raised(e')))
      case Ok(_) => Move(MarkError(j, e), Releasing(held, Returned(true))))
    case Releasing(held, answer) =>
      Move(if held.Some? then ReleaseLease(held.value) else NoEffect, Idle(answer))
    case _ => Move(NoEffect, pc)
  }

  // ---- submitters, recovery scanners and cancellers --------------------------------

  function SubmitMove(pc: Pc, env: Env): Move {
    match pc
    case Enqueuing(j) => Move(if env.enqueue.Ok? then PushBack(j) else NoEffect, SubmitIdle)
    case _ => Move(NoEffect, pc)
  }

  function ScanMove(queue: seq<JobId>, pc: Pc, env: Env): Move {
    match pc
    case Scanning(todo, n) =>
      if todo == [] then Move(NoEffect, ScanIdle(Some(n)))
      else if todo[0] in queue then Move(NoEffect, Scanning(todo[1..], n))
      else Move(NoEffect, Inserting(todo[0], todo[1..], n))
    case Inserting(j, todo, n) =>
      if env.enqueue.Raise? then Move(NoEffect, ScanIdle(None))
      else Move(PushBack(j), Scanning(todo, n + 1))
    case _ => Move(NoEffect, pc)
  }

  function CancelMove(s: State, pc: Pc): Move {
    match pc
    case Cancelling(j) =>
      if MayTransition(s.store, j, Cancelled) then Move(CancelJob(j), CancelReturned(j, Cancelled))
      else Move(NoEffect, Rereading(j))
    case Rereading(j) =>
      Move(NoEffect, if j in s.store.jobs then CancelReturned(j, s.store.jobs[j].status) else CancelIdle)
    case _ => Move(NoEffect, pc)
  }

  /** The first read of `cancel`. */
  function CancelRead(s: State, j: JobId): Pc {
    if j !in s.store.jobs then CancelIdle
    else if Terminal(s.store.jobs[j].status) then CancelReturned(j, s.store.jobs[j].status)
    else Cancelling(j)
  }

  function AgentMove(s: State, pc: Pc, env: Env): Move {
    if BeforeClaim(pc) then ClaimMove(s, pc, env)
    else if InTry(pc) then ExecuteMove(s, pc, env)
    else if InHandler(pc) then SettleMove(pc, env)
    else if pc.Enqueuing? then SubmitMove(pc, env)
    else if pc.Scanning? || pc.Inserting? then ScanMove(s.queue, pc, env)
    else CancelMove(s, pc)
  }

  // ---- steps and runs ---------------------------------------------------------------

  datatype Action =
    | Go(x: nat, env: Env)
    | Crash(x: nat)
    | Submit(x: nat, id: JobId, spec: JobSpec)
    | StartScan(x: nat, limit: int)
    | StartCancel(x: nat, job: JobId)
    | StrayEnqueue(x: nat, job: JobId)

  /** Which agent acts, and how: a stray push is made by an agent of its own that stays where it is. */
  function MoveOf(s: State, a: Action): Move
    requires a.x in s.agents
  {
    var pc := s.agents[a.x];
    match a
    case Go(_, env) => AgentMove(s, pc, env)
    case Crash(_) => Move(NoEffect, Crashed(PcLease(pc)))
    case Submit(_, id, spec) => Move(CreateJob(id, spec), Enqueuing(id))
    case StartScan(_, limit) => Move(NoEffect, Scanning(Recoverable(s.store, limit), 0))
    case StartCancel(_, j) => Move(NoEffect, CancelRead(s, j))
    case StrayEnqueue(_, j) => Move(PushBack(j), pc)
  }

  predicate Enabled(s: State, a: Action) {
    a.x in s.agents &&
    var pc := s.agents[a.x];
    match a
    case Go(_, _) => !pc.Crashed?
    case Crash(_) => !pc.Crashed?
    case Submit(_, id, _) => pc.SubmitIdle? && id !in s.store.jobs
    case StartScan(_, _) => pc.ScanIdle?
    case StartCancel(_, _) => pc.CancelIdle? || pc.CancelReturned?
    case StrayEnqueue(_, _) => pc.SubmitIdle?
  }

  function Step(s: State, a: Action): State
    requires Enabled(s, a)
  {
    var move := MoveOf(s, a);
    WithAgent(Perform(s, a.x, move.effect), a.x, move.next)
  }

  function WithAgent(s: State, x: nat, pc: Pc): State {
    s.(agents := s.agents[x := pc])
  }

  /** Any number of idle agents, no jobs yet, and a queue that may already hold anything. */
  ghost predicate Init(s: State) {
    && s.store == EMPTY_STORE && s.audits == [] && s.leases == [] && s.calls == []
    && s.history == map[] && s.claimant == map[] && s.auditOf == map[]
    && (forall x :: x in s.agents ==> s.agents[x] in {Idle(NotRun), SubmitIdle, ScanIdle(None), CancelIdle})
  }

  /** A run: states linked by enabled actions. */
  ghost predicate Run(states: seq<State>, actions: seq<Action>) {
    && |states| == |actions| + 1
    && Init(states[0])
    && (forall i :: 0 <= i < |actions| ==> Enabled(states[i], actions[i]) && states[i + 1] == Step(states[i], actions[i]))
  }
}
