/** What the audit records of batch jobs say: each job has at most one, and it reads as the job has ended. */
module BatchAudits {
  import opened Wrappers
  import opened BatchStatus
  import opened BatchStore
  import opened AuditService
  import opened BatchProtocol
  import opened BatchInvariants
  import opened BatchTheorems

  // ---- the invariant -------------------------------------------------------------------

  /** Every record is its job's own, and only a claimed job has one. */
  ghost predicate OwnRecords(audits: seq<AuditRecord>, auditOf: map<JobId, nat>, claimant: map<JobId, nat>) {
    && (forall a :: 0 <= a < |audits| ==> audits[a].job in auditOf && auditOf[audits[a].job] == a)
    && (forall j :: j in auditOf ==> j in claimant && auditOf[j] < |audits| && audits[auditOf[j]].job == j)
  }

  /** The job's audit record, if it has one, says that the job failed with this error code. */
  ghost predicate ReadsFailed(auditOf: map<JobId, nat>, audits: seq<AuditRecord>, j: JobId, errorCode: Option<string>) {
    j in auditOf ==>
      auditOf[j] < |audits| && audits[auditOf[j]].final == Some(AuditFinal("failed", Usage(0, 0, 0), errorCode))
  }

  /** What a worker knows of the audit record of the job it owns. */
  ghost predicate KnowsRecord(pc: Pc, auditOf: map<JobId, nat>, audits: seq<AuditRecord>) {
    match pc
    case Claimed(j) => j !in auditOf
    case Admitted(j, _) => j !in auditOf
    case FailTokens(j, _, record, _) => record.None? ==> j !in auditOf
    case FailAudit(j, _, record, _) => record.None? ==> j !in auditOf
    case FailMark(j, _, e) => ReadsFailed(auditOf, audits, j, Some(e.code))
    case _ => true
  }

  ghost predicate WorkersKnow(agents: map<nat, Pc>, away: set<nat>, auditOf: map<JobId, nat>, audits: seq<AuditRecord>) {
    forall w :: w in agents && w !in away ==> KnowsRecord(agents[w], auditOf, audits)
  }

  ghost predicate FailuresRead(jobs: map<JobId, Job>, auditOf: map<JobId, nat>, audits: seq<AuditRecord>) {
    forall j :: j in jobs && jobs[j].status == Failed ==> ReadsFailed(auditOf, audits, j, jobs[j].errorCode)
  }

  ghost predicate AuditsInvExcept(s: State, away: set<nat>) {
    && OwnRecords(s.audits, s.auditOf, s.claimant)
    && WorkersKnow(s.agents, away, s.auditOf, s.audits)
    && FailuresRead(s.store.jobs, s.auditOf, s.audits)
  }

  // ---- effects ---------------------------------------------------------------------------

  /** What an effect of agent `x` needs for the records to stay in order. */
  ghost predicate Recordable(s: State, x: nat, effect: Effect) {
    match effect
    case StartAudit(j, _) => j !in s.auditOf
    case MarkError(j, e) => ReadsFailed(s.auditOf, s.audits, j, Some(e.code))
    case ClaimJob(j) => j !in s.claimant
    case _ => true
  }

  ghost predicate NobodyElseOwns(agents: map<nat, Pc>, x: nat, j: JobId) {
    forall w :: w in agents && w != x ==> PcOwned(agents[w]) != Some(j)
  }

  lemma OthersOwnOthers(s: State, x: nat, j: JobId)
    requires InvExcept(s, {x}) && OwnsUnmarked(s, x, j)
    ensures NobodyElseOwns(s.agents, x, j)
  {
    forall w | w in s.agents && w != x ensures PcOwned(s.agents[w]) != Some(j) {
      assert OwnerInv(w, s.agents[w], s.store, s.claimant, s.calls);
    }
  }

  /** A new record, or a new final state, of one job: others know what they knew of theirs. */
  lemma OthersStillKnow(agents: map<nat, Pc>, x: nat, id: JobId, auditOf: map<JobId, nat>, audits: seq<AuditRecord>,
                        numbers: map<JobId, nat>, records: seq<AuditRecord>)
    requires WorkersKnow(agents, {x}, auditOf, audits) && NobodyElseOwns(agents, x, id)
    requires SameBut(id, auditOf, audits, numbers, records)
    ensures WorkersKnow(agents, {x}, numbers, records)
  {
    forall w | w in agents && w != x ensures KnowsRecord(agents[w], numbers, records) {
      assert KnowsRecord(agents[w], auditOf, audits);
    }
  }

  ghost predicate SameBut(id: JobId, auditOf: map<JobId, nat>, audits: seq<AuditRecord>,
                          numbers: map<JobId, nat>, records: seq<AuditRecord>) {
    forall j :: j != id ==>
      && (j in numbers <==> j in auditOf)
      && (j in auditOf ==> numbers[j] == auditOf[j] && auditOf[j] < |audits| <= |records|
                           && records[auditOf[j]] == audits[auditOf[j]])
  }

  lemma FailuresStillRead(jobs: map<JobId, Job>, id: JobId, auditOf: map<JobId, nat>, audits: seq<AuditRecord>,
                          numbers: map<JobId, nat>, records: seq<AuditRecord>)
    requires FailuresRead(jobs, auditOf, audits) && SameBut(id, auditOf, audits, numbers, records)
    requires id in jobs ==> jobs[id].status != Failed
    ensures FailuresRead(jobs, numbers, records)
  {
  }

  lemma StartChangesOne(audits: seq<AuditRecord>, auditOf: map<JobId, nat>, claimant: map<JobId, nat>, j: JobId, l: nat)
    requires OwnRecords(audits, auditOf, claimant) && j !in auditOf && j in claimant
    ensures var records, numbers := audits + [AuditRecord(j, l, None)], auditOf[j := |audits|];
            OwnRecords(records, numbers, claimant) && SameBut(j, auditOf, audits, numbers, records)
  {
  }

  lemma FinalizeChangesOne(audits: seq<AuditRecord>, auditOf: map<JobId, nat>, claimant: map<JobId, nat>, a: nat,
                           final: AuditFinal)
    requires OwnRecords(audits, auditOf, claimant) && a < |audits|
    ensures var records := audits[a := audits[a].(final := Some(final))];
            OwnRecords(records, auditOf, claimant) && SameBut(audits[a].job, auditOf, audits, auditOf, records)
  {
  }

  lemma OneRecordChanges(s: State, x: nat, id: JobId, numbers: map<JobId, nat>, records: seq<AuditRecord>)
    requires InvExcept(s, {x}) && AuditsInvExcept(s, {x}) && OwnsUnmarked(s, x, id)
    requires SameBut(id, s.auditOf, s.audits, numbers, records)
    ensures WorkersKnow(s.agents, {x}, numbers, records) && FailuresRead(s.store.jobs, numbers, records)
  {
    OthersOwnOthers(s, x, id);
    OthersStillKnow(s.agents, x, id, s.auditOf, s.audits, numbers, records);
    FailuresStillRead(s.store.jobs, id, s.auditOf, s.audits, numbers, records);
  }

  lemma StartKeepsRecords(s: State, x: nat, j: JobId, l: nat)
    requires InvExcept(s, {x}) && AuditsInvExcept(s, {x}) && OwnsUnmarked(s, x, j) && j !in s.auditOf
    ensures var records, numbers := s.audits + [AuditRecord(j, l, None)], s.auditOf[j := |s.audits|];
            && OwnRecords(records, numbers, s.claimant)
            && WorkersKnow(s.agents, {x}, numbers, records) && FailuresRead(s.store.jobs, numbers, records)
  {
    StartChangesOne(s.audits, s.auditOf, s.claimant, j, l);
    OneRecordChanges(s, x, j, s.auditOf[j := |s.audits|], s.audits + [AuditRecord(j, l, None)]);
  }

  lemma FinalizeKeepsRecords(s: State, x: nat, a: nat, final: AuditFinal)
    requires InvExcept(s, {x}) && AuditsInvExcept(s, {x}) && a < |s.audits| && OwnsUnmarked(s, x, s.audits[a].job)
    ensures var records := s.audits[a := s.audits[a].(final := Some(final))];
            && OwnRecords(records, s.auditOf, s.claimant)
            && WorkersKnow(s.agents, {x}, s.auditOf, records) && FailuresRead(s.store.jobs, s.auditOf, records)
  {
    FinalizeChangesOne(s.audits, s.auditOf, s.claimant, a, final);
    OneRecordChanges(s, x, s.audits[a].job, s.auditOf, s.audits[a := s.audits[a].(final := Some(final))]);
  }

  /** A store effect leaves the records alone, and leaves no job FAILED whose record does not say so. */
  lemma StoreKeepsRecords(s: State, x: nat, effect: Effect)
    requires AuditsInvExcept(s, {x}) && Unnoticed(s, x, effect) && Recordable(s, x, effect) && OnStore(effect)
    ensures AuditsInvExcept(Perform(s, x, effect), {x})
  {
    FailuresStayRead(s.store, effect, s.auditOf, s.audits);
  }

  lemma FailuresStayRead(store: Store, effect: Effect, auditOf: map<JobId, nat>, audits: seq<AuditRecord>)
    requires FailuresRead(store.jobs, auditOf, audits) && OnStore(effect)
    requires effect.MarkError? ==> ReadsFailed(auditOf, audits, effect.job, Some(effect.error.code))
    ensures FailuresRead(StoreAfter(store, effect).jobs, auditOf, audits)
  {
  }

  lemma EffectKeepsRecords(s: State, x: nat, effect: Effect)
    requires InvExcept(s, {x}) && AuditsInvExcept(s, {x}) && Unnoticed(s, x, effect) && Recordable(s, x, effect)
    ensures AuditsInvExcept(Perform(s, x, effect), {x})
  {
    if effect.StartAudit? {
      StartKeepsRecords(s, x, effect.job, effect.lease);
    } else if effect.FinalizeAudit? {
      FinalizeKeepsRecords(s, x, effect.audit, effect.final);
    } else if OnStore(effect) {
      StoreKeepsRecords(s, x, effect);
    }
  }

  // ---- moves -------------------------------------------------------------------------------

  ghost predicate Keeps(s: State, x: nat, move: Move) {
    && Recordable(s, x, move.effect)
    && KnowsRecord(move.next, Perform(s, x, move.effect).auditOf, Perform(s, x, move.effect).audits)
  }

  lemma ClaimedIsUnrecorded(s: State, x: nat, effect: Effect)
    requires InvExcept(s, {x}) && OwnRecords(s.audits, s.auditOf, s.claimant) && Unnoticed(s, x, effect)
    ensures effect.ClaimJob? ==> effect.job !in s.claimant && effect.job !in s.auditOf
  {
    if effect.ClaimJob? {
      StoreKeepsOthers(s, x, effect);
    }
  }

  /** Of the calls before the try only a claim concerns a record, and the job it claims has none. */
  lemma ClaimMoveKeeps(s: State, x: nat, pc: Pc, env: Env)
    requires BeforeClaim(pc)
    requires var effect := ClaimMove(s, pc, env).effect;
             effect.ClaimJob? ==> effect.job !in s.claimant && effect.job !in s.auditOf
    ensures Keeps(s, x, ClaimMove(s, pc, env))
  {
  }

  lemma ExecuteMoveKeeps(s: State, x: nat, pc: Pc, env: Env)
    requires KnowsRecord(pc, s.auditOf, s.audits) && InTry(pc)
    ensures Keeps(s, x, ExecuteMove(s, pc, env))
  {
  }

  lemma SettleMoveKeeps(s: State, x: nat, pc: Pc, env: Env)
    requires KnowsRecord(pc, s.auditOf, s.audits) && AuditInv(pc, s.auditOf, s.audits) && InHandler(pc)
    ensures Keeps(s, x, SettleMove(pc, env))
  {
  }

  lemma AgentMoveKeeps(s: State, x: nat, pc: Pc, env: Env)
    requires KnowsRecord(pc, s.auditOf, s.audits) && AuditInv(pc, s.auditOf, s.audits)
    requires var effect := AgentMove(s, pc, env).effect;
             effect.ClaimJob? ==> effect.job !in s.claimant && effect.job !in s.auditOf
    ensures Keeps(s, x, AgentMove(s, pc, env))
  {
    if BeforeClaim(pc) {
      ClaimMoveKeeps(s, x, pc, env);
    } else if InTry(pc) {
      ExecuteMoveKeeps(s, x, pc, env);
    } else if InHandler(pc) {
      SettleMoveKeeps(s, x, pc, env);
    }
  }

  lemma MoveKeeps(s: State, a: Action)
    requires Enabled(s, a) && KnowsRecord(s.agents[a.x], s.auditOf, s.audits)
    requires AuditInv(s.agents[a.x], s.auditOf, s.audits)
    requires var effect := MoveOf(s, a).effect;
             effect.ClaimJob? ==> effect.job !in s.claimant && effect.job !in s.auditOf
    ensures Keeps(s, a.x, MoveOf(s, a))
  {
    if a.Go? {
      AgentMoveKeeps(s, a.x, s.agents[a.x], a.env);
    }
  }

  lemma ActorKeeps(s: State, a: Action)
    requires Inv(s) && AuditsInvExcept(s, {}) && Enabled(s, a)
    ensures InvExcept(s, {a.x}) && Unnoticed(s, a.x, MoveOf(s, a).effect) && Keeps(s, a.x, MoveOf(s, a))
  {
    StepKeepsInv(s, a);
    TakeOut(s, a.x);
    ClaimedIsUnrecorded(s, a.x, MoveOf(s, a).effect);
    MoveKeeps(s, a);
  }

  lemma PutBackKnowing(s: State, x: nat, pc: Pc)
    requires AuditsInvExcept(s, {x}) && KnowsRecord(pc, s.auditOf, s.audits)
    ensures AuditsInvExcept(WithAgent(s, x, pc), {})
  {
  }

  lemma StepKeepsRecords(s: State, a: Action)
    requires Inv(s) && AuditsInvExcept(s, {}) && Enabled(s, a)
    ensures AuditsInvExcept(Step(s, a), {})
  {
    var move := MoveOf(s, a);
    ActorKeeps(s, a);
    EffectKeepsRecords(s, a.x, move.effect);
    PutBackKnowing(Perform(s, a.x, move.effect), a.x, move.next);
  }

  lemma {:induction false} RecordsInRuns(states: seq<State>, actions: seq<Action>, n: nat)
    requires Run(states, actions) && n <= |actions|
    ensures AuditsInvExcept(states[n], {})
  {
    if n > 0 {
      RecordsInRuns(states, actions, n - 1);
      RunInv(states, actions, n - 1);
      StepKeepsRecords(states[n - 1], actions[n - 1]);
    }
  }

  // ---- what the records say ----------------------------------------------------------------

  /**
   * In every run each job has at most one audit record. That of a FAILED job says failed, with no tokens and the job's
   * error code; that of a SUCCEEDED job says completed, with the job's usage and no error code.
   */
  lemma RecordsSayHowJobsEnded(states: seq<State>, actions: seq<Action>, n: nat, a: nat)
    requires Run(states, actions) && n <= |actions| && a < |states[n].audits|
    ensures var s := states[n]; var record := s.audits[a];
            && record.job in s.store.jobs
            && (forall b :: 0 <= b < |s.audits| && s.audits[b].job == record.job ==> b == a)
            && var job := s.store.jobs[record.job];
               && (job.status == Failed ==>
                     job.errorCode.Some? && record.final == Some(AuditFinal("failed", Usage(0, 0, 0), job.errorCode)))
               && (job.status == Succeeded ==>
                     job.usage.Some? && record.final == Some(AuditFinal("completed", job.usage.value, None)))
  {
    RecordsInRuns(states, actions, n);
    RunInv(states, actions, n);
    var s := states[n];
    var j := s.audits[a].job;
    assert j in s.claimant && s.auditOf[j] == a;
    assert RecordAgrees(s.store.jobs[j]);
    if s.store.jobs[j].status == Succeeded {
      assert ChargedAs(s.auditOf, s.audits, s.leases, j, s.store.jobs[j].usage.value);
    }
  }
}
