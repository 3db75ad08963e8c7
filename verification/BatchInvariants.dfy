/** The inductive invariant of the batch protocol: who owns a job, a lease and an audit record at every moment. */
module BatchInvariants {
  import opened Wrappers
  import opened BatchStatus
  import opened BatchStore
  import opened AuditService
  import opened Leases
  import opened BatchProtocol

  // ---- jobs ---------------------------------------------------------------------

  /** The counters, result, usage and error of a record say the same as its status. */
  predicate RecordAgrees(job: Job) {
    && job.requestCount == 1
    && job.completedCount == (if job.status == Succeeded then 1 else 0)
    && job.failedCount == (if job.status == Failed then 1 else 0)
    && (job.result.Some? <==> job.status == Succeeded)
    && (job.usage.Some? <==> job.status == Succeeded)
    && (job.errorCode.Some? <==> job.status == Failed)
  }

  /** A job's past is a path of the state machine from QUEUED to its status; it was claimed iff it was RUNNING. */
  ghost predicate PastAgrees(job: Job, past: seq<Status>, claimed: bool) {
    && |past| > 0 && past[0] == Queued && past[|past| - 1] == job.status
    && IsPath(past)
    && (claimed <==> |past| > 1 && past[1] == Running)
  }

  ghost predicate JobsInv(store: Store, history: map<JobId, seq<Status>>, claimant: map<JobId, nat>) {
    && ValidStore(store)
    && history.Keys == store.jobs.Keys
    && claimant.Keys <= store.jobs.Keys
    && PastsAgree(store.jobs, history, claimant)
    && RecordsAgree(store.jobs)
  }

  ghost predicate PastsAgree(jobs: map<JobId, Job>, history: map<JobId, seq<Status>>, claimant: map<JobId, nat>) {
    forall j :: j in jobs && j in history ==> PastAgrees(jobs[j], history[j], j in claimant)
  }

  ghost predicate RecordsAgree(jobs: map<JobId, Job>) {
    forall j :: j in jobs ==> RecordAgrees(jobs[j])
  }

  /** The job's own audit record is finalized this way. */
  predicate AuditedAs(auditOf: map<JobId, nat>, audits: seq<AuditRecord>, j: JobId, final: AuditFinal) {
    && j in auditOf && auditOf[j] < |audits|
    && audits[auditOf[j]].job == j && audits[auditOf[j]].final == Some(final)
  }

  /** The job's audit record is finalized with this usage, and its lease gave back what that usage left unused. */
  predicate ChargedAs(auditOf: map<JobId, nat>, audits: seq<AuditRecord>, leases: seq<Lease>, j: JobId, usage: Usage) {
    && AuditedAs(auditOf, audits, j, CompletedFinal(usage))
    && audits[auditOf[j]].lease < |leases| && SettledAt(leases[audits[auditOf[j]].lease], usage)
  }

  predicate SettledAt(lease: Lease, usage: Usage) {
    |lease.log| > 0 && lease.log[0] == TokensFinalized(Unused(lease.reserved, usage.totalTokens, false))
  }

  ghost predicate SuccessInv(store: Store, auditOf: map<JobId, nat>, audits: seq<AuditRecord>, leases: seq<Lease>) {
    forall j :: j in store.jobs && store.jobs[j].status == Succeeded && store.jobs[j].usage.Some? ==>
                  ChargedAs(auditOf, audits, leases, j, store.jobs[j].usage.value)
  }

  ghost predicate CallsInv(calls: seq<JobId>, claimant: map<JobId, nat>) {
    && (forall j :: j in calls ==> j in claimant)
    && (forall j :: multiset(calls)[j] <= 1)
  }

  // ---- agents ------------------------------------------------------------------

  /** A worker past its claim is the job's only owner, and nobody but a canceller has touched the job since. */
  ghost predicate OwnerInv(w: nat, pc: Pc, store: Store, claimant: map<JobId, nat>, calls: seq<JobId>) {
    PcOwned(pc).Some? ==>
      var j := PcOwned(pc).value;
      && j in store.jobs && (store.jobs[j].status == Running || store.jobs[j].status == Cancelled)
      && j in claimant && claimant[j] == w
      && (pc.Claimed? || pc.Admitted? || pc.Audited? ==> j !in calls)
  }

  /** Which settlement effects a lease held at `pc` has had so far. */
  ghost predicate LeaseStage(pc: Pc, lease: Lease) {
    && !lease.released
    && (lease.finalized ==> |lease.log| == 1 && lease.log[0].TokensFinalized?)
    && (!lease.finalized ==> lease.log == [])
    && (pc.Admitted? || pc.Audited? || pc.Responded? ==> !lease.finalized)
    && (pc.Settled? || pc.Completed? ==> SettledAt(lease, pc.usage))
    && (pc.Settled? || pc.Completed? || pc.FailAudit? || pc.FailMark? || pc.Releasing? ==> lease.finalized)
  }

  ghost predicate HolderInv(w: nat, pc: Pc, leases: seq<Lease>) {
    PcLease(pc).Some? ==>
      PcLease(pc).value < |leases| && leases[PcLease(pc).value].holder == w && LeaseStage(pc, leases[PcLease(pc).value])
  }

  ghost predicate AuditInv(pc: Pc, auditOf: map<JobId, nat>, audits: seq<AuditRecord>) {
    && (PcAudit(pc).Some? ==>
          && PcOwned(pc).Some? && PcAudit(pc).value < |audits|
          && PcOwned(pc).value in auditOf && auditOf[PcOwned(pc).value] == PcAudit(pc).value
          && audits[PcAudit(pc).value].job == PcOwned(pc).value && Some(audits[PcAudit(pc).value].lease) == PcLease(pc))
    && (pc.Completed? ==> AuditedAs(auditOf, audits, pc.job, CompletedFinal(pc.usage)))
  }

  ghost predicate OwnersInv(agents: map<nat, Pc>, away: set<nat>, store: Store, claimant: map<JobId, nat>, calls: seq<JobId>) {
    forall w :: w in agents && w !in away ==> OwnerInv(w, agents[w], store, claimant, calls)
  }

  ghost predicate HoldersInv(agents: map<nat, Pc>, away: set<nat>, leases: seq<Lease>) {
    forall w :: w in agents && w !in away ==> HolderInv(w, agents[w], leases)
  }

  ghost predicate AuditsInv(agents: map<nat, Pc>, away: set<nat>, auditOf: map<JobId, nat>, audits: seq<AuditRecord>) {
    forall w :: w in agents && w !in away ==> AuditInv(agents[w], auditOf, audits)
  }

  // ---- leases -------------------------------------------------------------------

  /** A lease is settled, or the worker it was granted to still holds it (or crashed holding it). */
  ghost predicate LeasesInv(leases: seq<Lease>, away: set<nat>, agents: map<nat, Pc>) {
    forall l :: 0 <= l < |leases| && leases[l].holder !in away ==>
      || FullySettled(leases[l])
      || (leases[l].holder in agents && PcLease(agents[leases[l].holder]) == Some(l))
  }

  // ---- cancellers -----------------------------------------------------------------

  ghost predicate CancelInv(pc: Pc, store: Store) {
    match pc
    case Cancelling(j) => j in store.jobs
    case Rereading(j) => j in store.jobs && Terminal(store.jobs[j].status)
    case CancelReturned(j, status) => j in store.jobs && Terminal(status) && store.jobs[j].status == status
    case _ => true
  }

  ghost predicate CancelsInv(agents: map<nat, Pc>, away: set<nat>, store: Store) {
    forall x :: x in agents && x !in away ==> CancelInv(agents[x], store)
  }

  /** The whole invariant, but for the agents in `away` and the leases they hold. */
  ghost predicate InvExcept(s: State, away: set<nat>) {
    && JobsInv(s.store, s.history, s.claimant)
    && SuccessInv(s.store, s.auditOf, s.audits, s.leases)
    && CallsInv(s.calls, s.claimant)
    && OwnersInv(s.agents, away, s.store, s.claimant, s.calls)
    && HoldersInv(s.agents, away, s.leases)
    && AuditsInv(s.agents, away, s.auditOf, s.audits)
    && LeasesInv(s.leases, away, s.agents)
    && CancelsInv(s.agents, away, s.store)
  }

  ghost predicate Inv(s: State) {
    InvExcept(s, {})
  }

  lemma InitInv(s: State)
    requires Init(s)
    ensures Inv(s)
  {
  }

  // ---- taking an agent out of the invariant and putting it back -------------------

  /** The part of the invariant that is about agent `x` at `pc`. */
  ghost predicate AgentInv(s: State, x: nat, pc: Pc) {
    && OwnerInv(x, pc, s.store, s.claimant, s.calls)
    && HolderInv(x, pc, s.leases)
    && AuditInv(pc, s.auditOf, s.audits)
    && OthersSettled(s.leases, x, PcLease(pc))
    && CancelInv(pc, s.store)
  }

  /** Every lease `x` was granted is settled, but for the one in `held`. */
  ghost predicate OthersSettled(leases: seq<Lease>, x: nat, held: Option<nat>) {
    forall l :: 0 <= l < |leases| && leases[l].holder == x && held != Some(l) ==> FullySettled(leases[l])
  }

  lemma TakeOut(s: State, x: nat)
    requires Inv(s) && x in s.agents
    ensures InvExcept(s, {x}) && AgentInv(s, x, s.agents[x])
  {
  }

  lemma PutBackOwner(agents: map<nat, Pc>, x: nat, pc: Pc, store: Store, claimant: map<JobId, nat>, calls: seq<JobId>)
    requires OwnersInv(agents, {x}, store, claimant, calls) && OwnerInv(x, pc, store, claimant, calls)
    ensures OwnersInv(agents[x := pc], {}, store, claimant, calls)
  {
  }

  lemma PutBackHolder(agents: map<nat, Pc>, x: nat, pc: Pc, leases: seq<Lease>)
    requires HoldersInv(agents, {x}, leases) && HolderInv(x, pc, leases)
    requires LeasesInv(leases, {x}, agents) && OthersSettled(leases, x, PcLease(pc))
    ensures HoldersInv(agents[x := pc], {}, leases) && LeasesInv(leases, {}, agents[x := pc])
  {
  }

  lemma PutBackAudit(agents: map<nat, Pc>, x: nat, pc: Pc, auditOf: map<JobId, nat>, audits: seq<AuditRecord>)
    requires AuditsInv(agents, {x}, auditOf, audits) && AuditInv(pc, auditOf, audits)
    ensures AuditsInv(agents[x := pc], {}, auditOf, audits)
  {
  }

  lemma PutBackCancel(agents: map<nat, Pc>, x: nat, pc: Pc, store: Store)
    requires CancelsInv(agents, {x}, store) && CancelInv(pc, store)
    ensures CancelsInv(agents[x := pc], {}, store)
  {
  }

  lemma PutBack(s: State, x: nat, pc: Pc)
    requires InvExcept(s, {x}) && AgentInv(s, x, pc)
    ensures Inv(WithAgent(s, x, pc))
  {
    PutBackOwner(s.agents, x, pc, s.store, s.claimant, s.calls);
    PutBackHolder(s.agents, x, pc, s.leases);
    PutBackAudit(s.agents, x, pc, s.auditOf, s.audits);
    PutBackCancel(s.agents, x, pc, s.store);
  }

  // ---- store operations -----------------------------------------------------------

  /** What a step may do to the store: add jobs, move them along the state machine, and never touch a terminal one. */
  ghost predicate StoreEvolves(before: Store, after: Store) {
    forall j :: j in before.jobs ==>
      && j in after.jobs
      && after.jobs[j].spec == before.jobs[j].spec
      && StatusAllowed(before, after, j)
      && (Terminal(before.jobs[j].status) ==> after.jobs[j] == before.jobs[j])
  }

  /** A store operation that moves one job one allowed step and leaves its record consistent. */
  ghost predicate GoodMove(before: Store, after: Store, id: JobId) {
    && id in before.jobs
    && OnlyChanges(before, after, id)
    && after.jobs[id].spec == before.jobs[id].spec
    && CanTransition(before.jobs[id].status, after.jobs[id].status)
    && RecordAgrees(after.jobs[id])
  }

  /** One more allowed step on a path. */
  lemma PastMoves(job: Job, past: seq<Status>, claimed: bool, next: Job)
    requires PastAgrees(job, past, claimed) && CanTransition(job.status, next.status)
    ensures PastAgrees(next, past + [next.status], claimed || next.status == Running)
    ensures next.status == Running ==> !claimed
  {
    var longer := past + [next.status];
    assert longer[..|longer| - 1] == past;
    if |past| > 1 {
      PathAdvances(past, 0, |past| - 1);
    }
  }

  lemma MoveKeepsStore(before: Store, after: Store, id: JobId)
    requires GoodMove(before, after, id)
    ensures StoreEvolves(before, after)
    ensures ValidStore(before) ==> ValidStore(after)
    ensures RecordsAgree(before.jobs) ==> RecordsAgree(after.jobs)
  {
  }

  lemma MoveIsObserved(history: map<JobId, seq<Status>>, before: Store, after: Store, id: JobId)
    requires GoodMove(before, after, id) && history.Keys == before.jobs.Keys
    ensures Observe(history, before, after) == history[id := history[id] + [after.jobs[id].status]]
  {
  }

  /** The pasts after such a move; `claimant` is told about a claim. */
  lemma PastsMove(before: Store, after: Store, id: JobId, history: map<JobId, seq<Status>>,
                  claimed: map<JobId, nat>, claimant: map<JobId, nat>)
    requires GoodMove(before, after, id) && history.Keys == before.jobs.Keys
    requires PastsAgree(before.jobs, history, claimed)
    requires claimant.Keys == if after.jobs[id].status == Running then claimed.Keys + {id} else claimed.Keys
    ensures PastsAgree(after.jobs, history[id := history[id] + [after.jobs[id].status]], claimant)
    ensures after.jobs[id].status == Running ==> id !in claimed
  {
    PastMoves(before.jobs[id], history[id], id in claimed, after.jobs[id]);
    var longer := history[id := history[id] + [after.jobs[id].status]];
    forall j | j in after.jobs && j in longer ensures PastAgrees(after.jobs[j], longer[j], j in claimant) {
      if j != id {
        assert PastAgrees(before.jobs[j], history[j], j in claimed);
      }
    }
  }

  lemma JobsMove(before: Store, after: Store, id: JobId, history: map<JobId, seq<Status>>,
                 claimed: map<JobId, nat>, claimant: map<JobId, nat>)
    requires JobsInv(before, history, claimed) && GoodMove(before, after, id)
    requires claimant.Keys == if after.jobs[id].status == Running then claimed.Keys + {id} else claimed.Keys
    ensures JobsInv(after, Observe(history, before, after), claimant)
    ensures StoreEvolves(before, after)
    ensures after.jobs[id].status == Running ==> id !in claimed
  {
    MoveKeepsStore(before, after, id);
    MoveIsObserved(history, before, after, id);
    PastsMove(before, after, id, history, claimed, claimant);
  }

  lemma SuccessMove(before: Store, after: Store, id: JobId, auditOf: map<JobId, nat>, audits: seq<AuditRecord>,
                    leases: seq<Lease>)
    requires GoodMove(before, after, id) && SuccessInv(before, auditOf, audits, leases)
    requires after.jobs[id].usage.Some? ==> ChargedAs(auditOf, audits, leases, id, after.jobs[id].usage.value)
    ensures SuccessInv(after, auditOf, audits, leases)
  {
  }

  /** Other workers own other jobs; a job that a canceller moves stays RUNNING or CANCELLED. */
  lemma OwnersMove(agents: map<nat, Pc>, away: set<nat>, before: Store, after: Store, id: JobId,
                   claimed: map<JobId, nat>, claimant: map<JobId, nat>, calls: seq<JobId>)
    requires GoodMove(before, after, id) && OwnersInv(agents, away, before, claimed, calls)
    requires forall j :: j in claimed ==> j in claimant && claimant[j] == claimed[j]
    requires after.jobs[id].status == Running || after.jobs[id].status == Cancelled || (id in claimed && claimed[id] in away)
    ensures OwnersInv(agents, away, after, claimant, calls)
  {
  }

  lemma CancelsMove(agents: map<nat, Pc>, away: set<nat>, before: Store, after: Store, id: JobId)
    requires GoodMove(before, after, id) && CancelsInv(agents, away, before)
    ensures CancelsInv(agents, away, after)
  {
  }

  /** One allowed move of one job: a claim, a cancellation, or a mark by the job's owner `x`. */
  ghost predicate MoveFits(s: State, x: nat, after: Store, id: JobId, claimant: map<JobId, nat>) {
    && GoodMove(s.store, after, id)
    && claimant.Keys == (if after.jobs[id].status == Running then s.claimant.Keys + {id} else s.claimant.Keys)
    && (forall j :: j in s.claimant && (j != id || after.jobs[id].status != Running) ==> claimant[j] == s.claimant[j])
    && (after.jobs[id].status == Running || after.jobs[id].status == Cancelled
        || (id in s.claimant && s.claimant[id] == x))
    && (after.jobs[id].usage.Some? ==> ChargedAs(s.auditOf, s.audits, s.leases, id, after.jobs[id].usage.value))
  }

  /** Everybody but agent `x` sees nothing wrong in such a move. */
  lemma MoveKeepsOthers(s: State, x: nat, after: Store, id: JobId, claimant: map<JobId, nat>)
    requires InvExcept(s, {x}) && MoveFits(s, x, after, id, claimant)
    ensures JobsInv(after, Observe(s.history, s.store, after), claimant)
    ensures SuccessInv(after, s.auditOf, s.audits, s.leases)
    ensures CallsInv(s.calls, claimant)
    ensures OwnersInv(s.agents, {x}, after, claimant, s.calls)
    ensures CancelsInv(s.agents, {x}, after)
    ensures after.jobs[id].status == Running ==> id !in s.claimant
  {
    JobsMove(s.store, after, id, s.history, s.claimant, claimant);
    SuccessMove(s.store, after, id, s.auditOf, s.audits, s.leases);
    OwnersMove(s.agents, {x}, s.store, after, id, s.claimant, claimant, s.calls);
    CancelsMove(s.agents, {x}, s.store, after, id);
  }

  lemma JobsCreate(store: Store, id: JobId, spec: JobSpec, history: map<JobId, seq<Status>>, claimant: map<JobId, nat>)
    requires JobsInv(store, history, claimant) && id !in store.jobs
    ensures JobsInv(Create(store, id, spec), Observe(history, store, Create(store, id, spec)), claimant)
  {
    CreateKeepsStore(store, id, spec);
    CreateIsObserved(history, store, id, spec);
    PastsCreate(store, id, spec, history, claimant);
  }

  lemma CreateKeepsStore(store: Store, id: JobId, spec: JobSpec)
    requires ValidStore(store) && id !in store.jobs && RecordsAgree(store.jobs)
    ensures ValidStore(Create(store, id, spec)) && RecordsAgree(Create(store, id, spec).jobs)
  {
    CreateIsValid(store, id, spec);
  }

  lemma CreateIsObserved(history: map<JobId, seq<Status>>, store: Store, id: JobId, spec: JobSpec)
    requires id !in store.jobs && history.Keys == store.jobs.Keys
    ensures Observe(history, store, Create(store, id, spec)) == history[id := [Queued]]
  {
  }

  lemma PastsCreate(store: Store, id: JobId, spec: JobSpec, history: map<JobId, seq<Status>>, claimant: map<JobId, nat>)
    requires PastsAgree(store.jobs, history, claimant) && id !in store.jobs && id !in claimant
    ensures PastsAgree(store.jobs[id := NewJob(spec)], history[id := [Queued]], claimant)
  {
  }

  lemma OthersCreate(agents: map<nat, Pc>, away: set<nat>, store: Store, id: JobId, spec: JobSpec,
                     claimant: map<JobId, nat>, calls: seq<JobId>, auditOf: map<JobId, nat>, audits: seq<AuditRecord>,
                     leases: seq<Lease>)
    requires id !in store.jobs && SuccessInv(store, auditOf, audits, leases)
    requires CancelsInv(agents, away, store) && OwnersInv(agents, away, store, claimant, calls)
    ensures SuccessInv(Create(store, id, spec), auditOf, audits, leases)
    ensures CancelsInv(agents, away, Create(store, id, spec))
    ensures OwnersInv(agents, away, Create(store, id, spec), claimant, calls)
  {
  }

  /** A submitter's create adds a fresh job, which nobody owns, cancels or has called. */
  lemma CreateKeepsOthers(s: State, x: nat, id: JobId, spec: JobSpec)
    requires InvExcept(s, {x}) && id !in s.store.jobs
    ensures InvExcept(Perform(s, x, CreateJob(id, spec)), {x})
  {
    JobsCreate(s.store, id, spec, s.history, s.claimant);
    OthersCreate(s.agents, {x}, s.store, id, spec, s.claimant, s.calls, s.auditOf, s.audits, s.leases);
  }

  // ---- leases, audit records and vLLM calls ---------------------------------------

  /** Only `x`'s own leases differ, so no other holder notices. */
  lemma LeasesChange(agents: map<nat, Pc>, x: nat, before: seq<Lease>, after: seq<Lease>)
    requires HoldersInv(agents, {x}, before) && LeasesInv(before, {x}, agents)
    requires |before| <= |after|
    requires forall l :: 0 <= l < |after| ==> after[l].holder == x || (l < |before| && after[l] == before[l])
    requires forall l :: 0 <= l < |before| ==> after[l].holder == before[l].holder
    ensures HoldersInv(agents, {x}, after) && LeasesInv(after, {x}, agents)
  {
  }

  /** Leases only gain events, so what they gave back for finished jobs stands. */
  lemma SuccessKept(store: Store, auditOf: map<JobId, nat>, audits: seq<AuditRecord>, before: seq<Lease>, after: seq<Lease>)
    requires SuccessInv(store, auditOf, audits, before) && |before| <= |after|
    requires forall l :: 0 <= l < |before| ==> before[l].log <= after[l].log && before[l].reserved == after[l].reserved
    ensures SuccessInv(store, auditOf, audits, after)
  {
  }

  /** Only the audit record of `id` differs, a job that `x` claimed and has not marked. */
  lemma AuditsChange(s: State, x: nat, id: JobId, audits: seq<AuditRecord>, auditOf: map<JobId, nat>)
    requires InvExcept(s, {x})
    requires id in s.store.jobs && s.store.jobs[id].status != Succeeded && id in s.claimant && s.claimant[id] == x
    requires |s.audits| <= |audits|
    requires forall a :: 0 <= a < |s.audits| ==> audits[a] == s.audits[a] || audits[a].job == s.audits[a].job == id
    requires forall j :: j in s.auditOf && j != id ==> j in auditOf && auditOf[j] == s.auditOf[j]
    ensures SuccessInv(s.store, auditOf, audits, s.leases) && AuditsInv(s.agents, {x}, auditOf, audits)
  {
    forall y | y in s.agents && y != x ensures AuditInv(s.agents[y], auditOf, audits) {
      assert AuditInv(s.agents[y], s.auditOf, s.audits);
      assert OwnerInv(y, s.agents[y], s.store, s.claimant, s.calls);
    }
  }

  /** vLLM is called for a job that `x` claimed and never sent before. */
  lemma CallsChange(agents: map<nat, Pc>, x: nat, id: JobId, store: Store, claimant: map<JobId, nat>, calls: seq<JobId>)
    requires OwnersInv(agents, {x}, store, claimant, calls) && CallsInv(calls, claimant)
    requires id in claimant && claimant[id] == x && id !in calls
    ensures OwnersInv(agents, {x}, store, claimant, calls + [id]) && CallsInv(calls + [id], claimant)
  {
    var longer := calls + [id];
    assert multiset(longer) == multiset(calls) + multiset{id};
    assert multiset(calls)[id] == 0;
  }

  // ---- every effect -----------------------------------------------------------------

  /** What an effect of agent `x` must meet for the others not to notice it. */
  ghost predicate Unnoticed(s: State, x: nat, effect: Effect) {
    match effect
    case CreateJob(j, _) => j !in s.store.jobs
    case ClaimJob(j) => MayTransition(s.store, j, Running) && RecordAgrees(s.store.jobs[j])
    case CancelJob(j) => MayTransition(s.store, j, Cancelled) && RecordAgrees(s.store.jobs[j])
    case MarkDone(j, _, usage) => OwnsUnmarked(s, x, j) && ChargedAs(s.auditOf, s.audits, s.leases, j, usage)
    case MarkError(j, _) => OwnsUnmarked(s, x, j)
    case FinalizeLease(l, _, _) => l < |s.leases| && s.leases[l].holder == x
    case ReleaseLease(l) => l < |s.leases| && s.leases[l].holder == x
    case StartAudit(j, _) => OwnsUnmarked(s, x, j)
    case FinalizeAudit(a, _) => a < |s.audits| && OwnsUnmarked(s, x, s.audits[a].job)
    case CallVllm(j) => OwnsUnmarked(s, x, j) && j !in s.calls
    case _ => true
  }

  ghost predicate OwnsUnmarked(s: State, x: nat, j: JobId) {
    && j in s.claimant && s.claimant[j] == x && j in s.store.jobs
    && (s.store.jobs[j].status == Running || s.store.jobs[j].status == Cancelled)
    && RecordAgrees(s.store.jobs[j])
  }

  /** A store effect is an allowed move of one job, or nothing because the job is CANCELLED. */
  lemma StoreEffectMoves(s: State, x: nat, effect: Effect)
    requires Unnoticed(s, x, effect) && OnStore(effect) && !effect.CreateJob?
    ensures effect.job in s.store.jobs
    ensures var after := StoreAfter(s.store, effect);
            if s.store.jobs[effect.job].status == Cancelled then after == s.store
            else
              && GoodMove(s.store, after, effect.job)
              && after.jobs[effect.job].status == (match effect case ClaimJob(_) => Running case CancelJob(_) => Cancelled
                                                               case MarkDone(_, _, _) => Succeeded case _ => Failed)
              && after.jobs[effect.job].usage == (if effect.MarkDone? then Some(effect.usage) else None)
  {
  }

  lemma StoreKeepsOthers(s: State, x: nat, effect: Effect)
    requires InvExcept(s, {x}) && Unnoticed(s, x, effect) && OnStore(effect) && !effect.CreateJob?
    ensures InvExcept(Perform(s, x, effect), {x})
    ensures effect.ClaimJob? ==> effect.job !in s.claimant
  {
    if effect.ClaimJob? {
      ClaimKeepsOthers(s, x, effect.job);
    } else if effect.CancelJob? {
      CancelKeepsOthers(s, x, effect.job);
    } else {
      MarkKeepsOthers(s, x, effect);
    }
  }

  lemma ClaimKeepsOthers(s: State, x: nat, j: JobId)
    requires InvExcept(s, {x}) && Unnoticed(s, x, ClaimJob(j))
    ensures InvExcept(Perform(s, x, ClaimJob(j)), {x}) && j !in s.claimant
  {
    EffectFits(s, x, ClaimJob(j));
    MoveKeepsOthers(s, x, Transition(s.store, j, Running), j, s.claimant[j := x]);
  }

  lemma CancelKeepsOthers(s: State, x: nat, j: JobId)
    requires InvExcept(s, {x}) && Unnoticed(s, x, CancelJob(j))
    ensures InvExcept(Perform(s, x, CancelJob(j)), {x})
  {
    EffectFits(s, x, CancelJob(j));
    MoveKeepsOthers(s, x, Transition(s.store, j, Cancelled), j, s.claimant);
  }

  /** A mark of a job that was cancelled meanwhile does nothing. */
  lemma RefusedMarkDoesNothing(s: State, x: nat, effect: Effect)
    requires effect.MarkDone? || effect.MarkError?
    requires effect.job in s.store.jobs && s.store.jobs[effect.job].status == Cancelled
    requires s.history.Keys == s.store.jobs.Keys
    ensures Perform(s, x, effect) == s
  {
    NothingObserved(s);
  }

  lemma MarkKeepsOthers(s: State, x: nat, effect: Effect)
    requires InvExcept(s, {x}) && Unnoticed(s, x, effect) && (effect.MarkDone? || effect.MarkError?)
    ensures InvExcept(Perform(s, x, effect), {x})
  {
    if s.store.jobs[effect.job].status == Cancelled {
      RefusedMarkDoesNothing(s, x, effect);
    } else {
      AllowedMarkKeepsOthers(s, x, effect);
    }
  }

  lemma AllowedMarkKeepsOthers(s: State, x: nat, effect: Effect)
    requires InvExcept(s, {x}) && Unnoticed(s, x, effect) && (effect.MarkDone? || effect.MarkError?)
    requires s.store.jobs[effect.job].status != Cancelled
    ensures InvExcept(Perform(s, x, effect), {x})
  {
    EffectFits(s, x, effect);
    MoveKeepsOthers(s, x, StoreAfter(s.store, effect), effect.job, s.claimant);
  }

  lemma EffectFits(s: State, x: nat, effect: Effect)
    requires Unnoticed(s, x, effect) && OnStore(effect) && !effect.CreateJob?
    requires effect.job in s.store.jobs && s.store.jobs[effect.job].status != Cancelled
    ensures MoveFits(s, x, StoreAfter(s.store, effect), effect.job, ClaimantAfter(s.claimant, x, effect))
    ensures StoreAfter(s.store, effect).jobs[effect.job].status == Running <==> effect.ClaimJob?
  {
    StoreEffectMoves(s, x, effect);
  }

  lemma NothingObserved(s: State)
    requires s.history.Keys == s.store.jobs.Keys
    ensures Observe(s.history, s.store, s.store) == s.history
  {
  }

  lemma LeaseKeepsOthers(s: State, x: nat, effect: Effect)
    requires InvExcept(s, {x}) && Unnoticed(s, x, effect)
    requires effect.GrantLease? || effect.FinalizeLease? || effect.ReleaseLease?
    ensures InvExcept(Perform(s, x, effect), {x})
  {
    LeasesChange(s.agents, x, s.leases, Perform(s, x, effect).leases);
    SuccessKept(s.store, s.auditOf, s.audits, s.leases, Perform(s, x, effect).leases);
  }

  lemma StartKeepsOthers(s: State, x: nat, j: JobId, l: nat)
    requires InvExcept(s, {x}) && Unnoticed(s, x, StartAudit(j, l))
    ensures InvExcept(Perform(s, x, StartAudit(j, l)), {x})
  {
    AuditsChange(s, x, j, s.audits + [AuditRecord(j, l, None)], s.auditOf[j := |s.audits|]);
  }

  lemma FinalizeKeepsOthers(s: State, x: nat, a: nat, final: AuditFinal)
    requires InvExcept(s, {x}) && Unnoticed(s, x, FinalizeAudit(a, final))
    ensures InvExcept(Perform(s, x, FinalizeAudit(a, final)), {x})
  {
    AuditsChange(s, x, s.audits[a].job, s.audits[a := s.audits[a].(final := Some(final))], s.auditOf);
  }

  lemma CallKeepsOthers(s: State, x: nat, j: JobId)
    requires InvExcept(s, {x}) && Unnoticed(s, x, CallVllm(j))
    ensures InvExcept(Perform(s, x, CallVllm(j)), {x})
  {
    CallsChange(s.agents, x, j, s.store, s.claimant, s.calls);
  }

  lemma QueueKeepsOthers(s: State, x: nat, effect: Effect)
    requires InvExcept(s, {x}) && (effect.NoEffect? || effect.PopHead? || effect.PushBack?)
    ensures InvExcept(Perform(s, x, effect), {x})
  {
  }

  lemma EffectKeepsOthers(s: State, x: nat, effect: Effect)
    requires InvExcept(s, {x}) && Unnoticed(s, x, effect)
    ensures InvExcept(Perform(s, x, effect), {x})
  {
    if OnStore(effect) {
      if effect.CreateJob? {
        CreateKeepsOthers(s, x, effect.job, effect.spec);
      } else {
        StoreKeepsOthers(s, x, effect);
      }
    } else if effect.GrantLease? || effect.FinalizeLease? || effect.ReleaseLease? {
      LeaseKeepsOthers(s, x, effect);
    } else if effect.StartAudit? {
      StartKeepsOthers(s, x, effect.job, effect.lease);
    } else if effect.FinalizeAudit? {
      FinalizeKeepsOthers(s, x, effect.audit, effect.final);
    } else if effect.CallVllm? {
      CallKeepsOthers(s, x, effect.job);
    } else {
      QueueKeepsOthers(s, x, effect);
    }
  }

  // ---- every move ---------------------------------------------------------------------

  /** What the acting agent gets out of its move: its effect goes unnoticed and its own invariant holds after it. */
  ghost predicate GoodFor(s: State, x: nat, move: Move) {
    Unnoticed(s, x, move.effect) && AgentInv(Perform(s, x, move.effect), x, move.next)
  }

  /** What the records say about the job an owner owns. */
  ghost predicate JobKnown(s: State, pc: Pc) {
    PcOwned(pc).Some? && PcOwned(pc).value in s.store.jobs ==> RecordAgrees(s.store.jobs[PcOwned(pc).value])
  }

  lemma IdleMoveOwns(s: State, x: nat, pc: Pc, env: Env)
    requires AgentInv(s, x, pc) && BeforeClaim(pc) && !ClaimMove(s, pc, env).effect.ClaimJob?
    ensures GoodFor(s, x, ClaimMove(s, pc, env))
  {
  }

  lemma ClaimOwns(s: State, x: nat, j: JobId)
    requires OthersSettled(s.leases, x, None) && MayTransition(s.store, j, Running)
    requires RecordAgrees(s.store.jobs[j]) && j !in s.calls
    ensures GoodFor(s, x, Move(ClaimJob(j), Claimed(j)))
  {
  }

  lemma ClaimMoveOwns(s: State, x: nat, pc: Pc, env: Env)
    requires AgentInv(s, x, pc) && InvExcept(s, {x}) && BeforeClaim(pc)
    ensures GoodFor(s, x, ClaimMove(s, pc, env))
  {
    var effect := ClaimMove(s, pc, env).effect;
    if effect.ClaimJob? {
      assert RecordAgrees(s.store.jobs[effect.job]);
      StoreKeepsOthers(s, x, effect);
      ClaimOwns(s, x, effect.job);
    } else {
      IdleMoveOwns(s, x, pc, env);
    }
  }

  /** An exception inside the try enters the handler with what the worker holds. */
  lemma HandlerOwns(s: State, x: nat, pc: Pc, e: Error)
    requires AgentInv(s, x, pc) && InTry(pc)
    ensures GoodFor(s, x, Move(NoEffect, FailTokens(PcOwned(pc).value, PcLease(pc), PcAudit(pc), e)))
  {
  }

  lemma AdmitOwns(s: State, x: nat, pc: Pc, reserved: int)
    requires AgentInv(s, x, pc) && pc.Claimed?
    ensures GoodFor(s, x, Move(GrantLease(reserved), Admitted(pc.job, |s.leases|)))
  {
  }

  lemma StartOwns(s: State, x: nat, pc: Pc)
    requires AgentInv(s, x, pc) && JobKnown(s, pc) && pc.Admitted?
    ensures GoodFor(s, x, Move(StartAudit(pc.job, pc.lease), Audited(pc.job, pc.lease, |s.audits|)))
  {
  }

  lemma CallOwns(s: State, x: nat, pc: Pc, next: Pc)
    requires AgentInv(s, x, pc) && JobKnown(s, pc) && pc.Audited?
    requires (next.Responded? && next == Responded(pc.job, pc.lease, pc.audit, next.response))
             || (next.FailTokens? && next == FailTokens(pc.job, Some(pc.lease), Some(pc.audit), next.error))
    ensures GoodFor(s, x, Move(CallVllm(pc.job), next))
  {
  }

  lemma SettledOwns(s: State, x: nat, pc: Pc, usage: Usage)
    requires AgentInv(s, x, pc) && pc.Responded?
    ensures GoodFor(s, x, Move(FinalizeLease(pc.lease, usage.totalTokens, false),
                               Settled(pc.job, pc.lease, pc.audit, pc.response, usage)))
  {
  }

  lemma CompletedOwns(s: State, x: nat, pc: Pc)
    requires AgentInv(s, x, pc) && JobKnown(s, pc) && pc.Settled?
    ensures GoodFor(s, x, Move(FinalizeAudit(pc.audit, CompletedFinal(pc.usage)),
                               Completed(pc.job, pc.lease, pc.audit, pc.response, pc.usage)))
  {
  }

  lemma MarkedOwns(s: State, x: nat, pc: Pc)
    requires AgentInv(s, x, pc) && JobKnown(s, pc) && pc.Completed?
    ensures GoodFor(s, x, Move(MarkDone(pc.job, pc.response, pc.usage), Releasing(Some(pc.lease), Returned(true))))
  {
  }

  /** The first three calls of the try block. */
  lemma SendMoveOwns(s: State, x: nat, pc: Pc, env: Env)
    requires AgentInv(s, x, pc) && JobKnown(s, pc) && (pc.Claimed? || pc.Admitted? || pc.Audited?)
    ensures GoodFor(s, x, ExecuteMove(s, pc, env))
  {
    if pc.Claimed? {
      if env.admit.Raise? { HandlerOwns(s, x, pc, env.admit.error); } else { AdmitOwns(s, x, pc, env.admit.value); }
    } else if pc.Admitted? {
      if env.auditStart.Raise? { HandlerOwns(s, x, pc, env.auditStart.error); } else { StartOwns(s, x, pc); }
    } else {
      CallOwns(s, x, pc, ExecuteMove(s, pc, env).next);
    }
  }

  /** The last three. */
  lemma FinishMoveOwns(s: State, x: nat, pc: Pc, env: Env)
    requires AgentInv(s, x, pc) && JobKnown(s, pc) && (pc.Responded? || pc.Settled? || pc.Completed?)
    ensures GoodFor(s, x, ExecuteMove(s, pc, env))
  {
    if pc.Responded? {
      if env.usage.Raise? { HandlerOwns(s, x, pc, env.usage.error); } else { SettledOwns(s, x, pc, env.usage.value); }
    } else if pc.Settled? {
      if env.auditCompleted.Raise? { HandlerOwns(s, x, pc, env.auditCompleted.error); } else { CompletedOwns(s, x, pc); }
    } else {
      if env.markSucceeded.Raise? { HandlerOwns(s, x, pc, env.markSucceeded.error); } else { MarkedOwns(s, x, pc); }
    }
  }

  lemma ExecuteMoveOwns(s: State, x: nat, pc: Pc, env: Env)
    requires AgentInv(s, x, pc) && JobKnown(s, pc) && InTry(pc)
    ensures GoodFor(s, x, ExecuteMove(s, pc, env))
  {
    if pc.Claimed? || pc.Admitted? || pc.Audited? {
      SendMoveOwns(s, x, pc, env);
    } else {
      FinishMoveOwns(s, x, pc, env);
    }
  }

  lemma FailTokensOwns(s: State, x: nat, pc: Pc, env: Env)
    requires AgentInv(s, x, pc) && pc.FailTokens?
    ensures GoodFor(s, x, SettleMove(pc, env))
  {
  }

  lemma AuditedOwns(s: State, x: nat, pc: Pc)
    requires AgentInv(s, x, pc) && JobKnown(s, pc) && pc.FailAudit? && pc.started.Some?
    ensures GoodFor(s, x, Move(FinalizeAudit(pc.started.value, FailedFinal(pc.error.code)),
                               FailMark(pc.job, pc.held, pc.error)))
  {
  }

  /** With no audit record, or with an exception from its finalize. */
  lemma UnauditedOwns(s: State, x: nat, pc: Pc, next: Pc)
    requires AgentInv(s, x, pc) && pc.FailAudit?
    requires next == FailMark(pc.job, pc.held, pc.error) || (next.Releasing? && next.held == pc.held)
    ensures GoodFor(s, x, Move(NoEffect, next))
  {
  }

  lemma FailAuditOwns(s: State, x: nat, pc: Pc, env: Env)
    requires AgentInv(s, x, pc) && JobKnown(s, pc) && pc.FailAudit?
    ensures GoodFor(s, x, SettleMove(pc, env))
  {
    if pc.started.Some? && env.auditFailed.Ok? {
      AuditedOwns(s, x, pc);
    } else {
      UnauditedOwns(s, x, pc, SettleMove(pc, env).next);
    }
  }

  lemma FailMarkOwns(s: State, x: nat, pc: Pc, env: Env)
    requires AgentInv(s, x, pc) && JobKnown(s, pc) && pc.FailMark?
    ensures GoodFor(s, x, SettleMove(pc, env))
  {
  }

  lemma ReleasingOwns(s: State, x: nat, pc: Pc, env: Env)
    requires AgentInv(s, x, pc) && pc.Releasing?
    ensures GoodFor(s, x, SettleMove(pc, env))
  {
  }

  lemma SettleMoveOwns(s: State, x: nat, pc: Pc, env: Env)
    requires AgentInv(s, x, pc) && JobKnown(s, pc) && InHandler(pc)
    ensures GoodFor(s, x, SettleMove(pc, env))
  {
    match pc
    case FailTokens(_, _, _, _) => FailTokensOwns(s, x, pc, env);
    case FailAudit(_, _, _, _) => FailAuditOwns(s, x, pc, env);
    case FailMark(_, _, _) => FailMarkOwns(s, x, pc, env);
    case Releasing(_, _) => ReleasingOwns(s, x, pc, env);
  }

  /** Agents that hold nothing move to where they hold nothing; a crashed worker keeps the lease it held. */
  lemma PlainMoveOwns(s: State, x: nat, pc: Pc, move: Move)
    requires AgentInv(s, x, pc) && PcLease(move.next) == PcLease(pc)
    requires PcOwned(move.next).None? && PcAudit(move.next).None? && (PcLease(pc).Some? ==> move.next.Crashed?)
    requires (move.effect.NoEffect? || move.effect.PushBack?) && CancelInv(move.next, s.store)
    ensures GoodFor(s, x, move)
  {
  }

  lemma CancelOwns(s: State, x: nat, pc: Pc)
    requires AgentInv(s, x, pc) && pc.Cancelling? && MayTransition(s.store, pc.job, Cancelled)
    requires RecordAgrees(s.store.jobs[pc.job])
    ensures GoodFor(s, x, Move(CancelJob(pc.job), CancelReturned(pc.job, Cancelled)))
  {
  }

  lemma CancelMoveOwns(s: State, x: nat, pc: Pc)
    requires AgentInv(s, x, pc) && (pc.Cancelling? || pc.Rereading?)
    requires pc.job in s.store.jobs ==> RecordAgrees(s.store.jobs[pc.job])
    ensures GoodFor(s, x, CancelMove(s, pc))
  {
    if pc.Cancelling? && MayTransition(s.store, pc.job, Cancelled) {
      CancelOwns(s, x, pc);
    } else {
      PlainMoveOwns(s, x, pc, CancelMove(s, pc));
    }
  }

  lemma AgentMoveOwns(s: State, x: nat, pc: Pc, env: Env)
    requires AgentInv(s, x, pc) && InvExcept(s, {x}) && !pc.Crashed?
    ensures GoodFor(s, x, AgentMove(s, pc, env))
  {
    if BeforeClaim(pc) {
      ClaimMoveOwns(s, x, pc, env);
    } else if InTry(pc) {
      ExecuteMoveOwns(s, x, pc, env);
    } else if InHandler(pc) {
      SettleMoveOwns(s, x, pc, env);
    } else if pc.Cancelling? || pc.Rereading? {
      CancelMoveOwns(s, x, pc);
    } else {
      PlainMoveOwns(s, x, pc, AgentMove(s, pc, env));
    }
  }

  lemma SubmitOwns(s: State, x: nat, pc: Pc, id: JobId, spec: JobSpec)
    requires AgentInv(s, x, pc) && PcLease(pc).None? && id !in s.store.jobs
    ensures GoodFor(s, x, Move(CreateJob(id, spec), Enqueuing(id)))
  {
  }

  lemma InputOwns(s: State, a: Action)
    requires Enabled(s, a) && AgentInv(s, a.x, s.agents[a.x]) && !a.Go? && !a.Submit?
    ensures GoodFor(s, a.x, MoveOf(s, a))
  {
    PlainMoveOwns(s, a.x, s.agents[a.x], MoveOf(s, a));
  }

  lemma MoveOwns(s: State, a: Action)
    requires Enabled(s, a) && AgentInv(s, a.x, s.agents[a.x]) && InvExcept(s, {a.x})
    ensures GoodFor(s, a.x, MoveOf(s, a))
  {
    match a
    case Go(_, env) => AgentMoveOwns(s, a.x, s.agents[a.x], env);
    case Submit(_, id, spec) => SubmitOwns(s, a.x, s.agents[a.x], id, spec);
    case _ => InputOwns(s, a);
  }

  /** Every step of every agent keeps the invariant. */
  lemma StepKeepsInv(s: State, a: Action)
    requires Inv(s) && Enabled(s, a)
    ensures Inv(Step(s, a)) && Unnoticed(s, a.x, MoveOf(s, a).effect)
  {
    TakeOut(s, a.x);
    MoveOwns(s, a);
    var move := MoveOf(s, a);
    EffectKeepsOthers(s, a.x, move.effect);
    PutBack(Perform(s, a.x, move.effect), a.x, move.next);
  }
}
