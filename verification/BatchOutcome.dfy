/**
 * The outcome of a claimed job as a table over how its calls turn out: which record, lease, audit record, vLLM call and
 * answer each combination of exceptions leads to. The protocol's steps, taken one by one, are proved to lead there.
 */
module BatchOutcome {
  import opened Wrappers
  import opened BatchStatus
  import opened BatchStore
  import opened AuditService
  import opened Leases
  import opened BatchProtocol
  import opened BatchWorker

  // ---- the table ---------------------------------------------------------------------

  predicate Started(env: Env) {
    env.admit.Ok? && env.auditStart.Ok?
  }

  predicate Used(env: Env) {
    Started(env) && env.vllm.Ok? && env.usage.Ok?
  }

  /** The exception that leaves the try block: that of the first call in it that raises. */
  function Failure(env: Env): Option<Error> {
    if env.admit.Raise? then Some(env.admit.error)
    else if env.auditStart.Raise? then Some(env.auditStart.error)
    else if env.vllm.Raise? then Some(env.vllm.error)
    else if env.usage.Raise? then Some(env.usage.error)
    else if env.auditCompleted.Raise? then Some(env.auditCompleted.error)
    else if env.markSucceeded.Raise? then Some(env.markSucceeded.error)
    else None
  }

  /** What `process_one` answers. An exception in the handler escapes; the audit's comes before the mark's. */
  function Answer(env: Env): Return {
    if Failure(env).None? then Returned(true)
    else if Started(env) && env.auditFailed.Raise? then Raised(env.auditFailed.error)
    else if env.markFailed.Raise? then Raised(env.markFailed.error)
    else Returned(true)
  }

  /** SUCCEEDED with the response and usage, FAILED with the exception, or as it was when the handler raised. */
  function FinalRecord(job: Job, env: Env): Job {
    if job.status == Cancelled then job
    else
      match Failure(env)
      case None =>
        job.(status := Succeeded, result := Some(env.vllm.value), completedCount := 1, failedCount := 0,
             usage := Some(env.usage.value))
      case Some(e) =>
        if Answer(env) == Returned(true)
        then job.(status := Failed, errorCode := Some(e.code), errorMessage := Some(e.message), failedCount := 1)
        else job
  }

  /** The lease's effects: the unused tokens of the reported usage, or all of them when none was reported; then its slot. */
  function LeaseLog(reserved: int, env: Env): seq<LeaseEvent> {
    [TokensFinalized(if Used(env) then Unused(reserved, env.usage.value.totalTokens, false) else Unused(reserved, 0, true)),
     SlotReleased]
  }

  /** The audit record's final state; a later "failed" replaces an earlier "completed". */
  function AuditOutcome(env: Env): Option<AuditFinal> {
    if Failure(env).Some? && env.auditFailed.Ok?
    then Some(AuditFinal("failed", Usage(0, 0, 0), Some(Failure(env).value.code)))
    else if Used(env) && env.auditCompleted.Ok? then Some(AuditFinal("completed", env.usage.value, None))
    else None
  }

  // ---- the steps, segment by segment -----------------------------------------------------

  lemma AppendedUpdate<T>(items: seq<T>, before: T, after: T)
    ensures (items + [before])[|items| := after] == items + [after]
  {
  }

  /** From the audit's completion to the end of the try block. */
  lemma RecordsSuccess(outlook: (State, Pc) -> State, x: nat, env: Env, s: State, j: JobId, l: nat, a: nat, r: string, u: Usage)
    returns (t: State, failure: Option<Error>)
    requires Steady(outlook, x, env) && a < |s.audits|
    ensures outlook(t, AfterTry(j, Some(l), Some(a), failure)) == outlook(s, Settled(j, l, a, r, u))
    ensures failure == if env.auditCompleted.Raise? then Some(env.auditCompleted.error)
                       else if env.markSucceeded.Raise? then Some(env.markSucceeded.error) else None
    ensures t.leases == s.leases && t.calls == s.calls
    ensures t.audits == if env.auditCompleted.Ok? then s.audits[a := s.audits[a].(final := Some(CompletedFinal(u)))] else s.audits
    ensures t.store == if failure.None? then MarkSucceeded(s.store, j, r, u) else s.store
  {
    var pc := Settled(j, l, a, r, u);
    if env.auditCompleted.Raise? {
      failure := Some(env.auditCompleted.error);
      t := Perform(s, x, NoEffect);
      Onward(outlook, x, env, s, pc, NoEffect, FailTokens(j, Some(l), Some(a), failure.value));
      return;
    }
    var audited := Perform(s, x, FinalizeAudit(a, CompletedFinal(u)));
    Onward(outlook, x, env, s, pc, FinalizeAudit(a, CompletedFinal(u)), Completed(j, l, a, r, u));
    if env.markSucceeded.Raise? {
      failure := Some(env.markSucceeded.error);
      t := Perform(audited, x, NoEffect);
      Onward(outlook, x, env, audited, Completed(j, l, a, r, u), NoEffect, FailTokens(j, Some(l), Some(a), failure.value));
      return;
    }
    failure := None;
    t := Perform(audited, x, MarkDone(j, r, u));
    Onward(outlook, x, env, audited, Completed(j, l, a, r, u), MarkDone(j, r, u), Releasing(Some(l), Returned(true)));
  }

  /** From the vLLM call to the end of the try block. */
  lemma Calls(outlook: (State, Pc) -> State, x: nat, env: Env, s: State, j: JobId, l: nat, a: nat)
    returns (t: State, failure: Option<Error>)
    requires Steady(outlook, x, env) && l < |s.leases| && a < |s.audits| && Started(env)
    ensures outlook(t, AfterTry(j, Some(l), Some(a), failure)) == outlook(s, Audited(j, l, a))
    ensures failure == Failure(env)
    ensures t.calls == s.calls + [j]
    ensures t.leases == if Used(env) then s.leases[l := FinalizeTokens(s.leases[l], env.usage.value.totalTokens, false)]
                        else s.leases
    ensures t.audits == if Used(env) && env.auditCompleted.Ok?
                        then s.audits[a := s.audits[a].(final := Some(CompletedFinal(env.usage.value)))] else s.audits
    ensures t.store == if failure.None? then MarkSucceeded(s.store, j, env.vllm.value, env.usage.value) else s.store
  {
    var called := Perform(s, x, CallVllm(j));
    if env.vllm.Raise? {
      failure, t := Some(env.vllm.error), called;
      Onward(outlook, x, env, s, Audited(j, l, a), CallVllm(j), FailTokens(j, Some(l), Some(a), env.vllm.error));
      return;
    }
    Onward(outlook, x, env, s, Audited(j, l, a), CallVllm(j), Responded(j, l, a, env.vllm.value));
    t, failure := SettlesUsage(outlook, x, env, called, j, l, a);
  }

  lemma SettlesUsage(outlook: (State, Pc) -> State, x: nat, env: Env, s: State, j: JobId, l: nat, a: nat)
    returns (t: State, failure: Option<Error>)
    requires Steady(outlook, x, env) && l < |s.leases| && a < |s.audits| && Started(env) && env.vllm.Ok?
    ensures outlook(t, AfterTry(j, Some(l), Some(a), failure)) == outlook(s, Responded(j, l, a, env.vllm.value))
    ensures failure == Failure(env)
    ensures t.calls == s.calls
    ensures t.leases == if Used(env) then s.leases[l := FinalizeTokens(s.leases[l], env.usage.value.totalTokens, false)]
                        else s.leases
    ensures t.audits == if Used(env) && env.auditCompleted.Ok?
                        then s.audits[a := s.audits[a].(final := Some(CompletedFinal(env.usage.value)))] else s.audits
    ensures t.store == if failure.None? then MarkSucceeded(s.store, j, env.vllm.value, env.usage.value) else s.store
  {
    var pc := Responded(j, l, a, env.vllm.value);
    if env.usage.Raise? {
      failure, t := Some(env.usage.error), Perform(s, x, NoEffect);
      Onward(outlook, x, env, s, pc, NoEffect, FailTokens(j, Some(l), Some(a), env.usage.error));
      return;
    }
    var effect := FinalizeLease(l, env.usage.value.totalTokens, false);
    Onward(outlook, x, env, s, pc, effect, Settled(j, l, a, env.vllm.value, env.usage.value));
    t, failure := RecordsSuccess(outlook, x, env, Perform(s, x, effect), j, l, a, env.vllm.value, env.usage.value);
  }

  /** The lease as the try block leaves it. */
  function TriedLease(reserved: int, x: nat, env: Env): Lease {
    if Used(env) then FinalizeTokens(NewLease(reserved, x), env.usage.value.totalTokens, false) else NewLease(reserved, x)
  }

  function TriedAudit(j: JobId, l: nat, env: Env): AuditRecord {
    AuditRecord(j, l, if Used(env) && env.auditCompleted.Ok? then Some(CompletedFinal(env.usage.value)) else None)
  }

  /** The whole try block. */
  lemma Tries(outlook: (State, Pc) -> State, x: nat, env: Env, s: State, j: JobId) returns (t: State)
    requires Steady(outlook, x, env)
    ensures outlook(s, Claimed(j))
         == outlook(t, AfterTry(j, if env.admit.Ok? then Some(|s.leases|) else None,
                                if Started(env) then Some(|s.audits|) else None, Failure(env)))
    ensures t.calls == if Started(env) then s.calls + [j] else s.calls
    ensures t.leases == if env.admit.Ok? then s.leases + [TriedLease(env.admit.value, x, env)] else s.leases
    ensures t.audits == if Started(env) then s.audits + [TriedAudit(j, |s.leases|, env)] else s.audits
    ensures t.store == if Failure(env).None? then MarkSucceeded(s.store, j, env.vllm.value, env.usage.value) else s.store
  {
    if env.admit.Raise? {
      t := Perform(s, x, NoEffect);
      Onward(outlook, x, env, s, Claimed(j), NoEffect, FailTokens(j, None, None, env.admit.error));
      return;
    }
    var admitted := Perform(s, x, GrantLease(env.admit.value));
    Onward(outlook, x, env, s, Claimed(j), GrantLease(env.admit.value), Admitted(j, |s.leases|));
    t := Audits(outlook, x, env, admitted, j, s.leases);
  }

  lemma Audits(outlook: (State, Pc) -> State, x: nat, env: Env, s: State, j: JobId, leases: seq<Lease>) returns (t: State)
    requires Steady(outlook, x, env) && env.admit.Ok? && s.leases == leases + [NewLease(env.admit.value, x)]
    ensures outlook(s, Admitted(j, |leases|))
         == outlook(t, AfterTry(j, Some(|leases|), if Started(env) then Some(|s.audits|) else None, Failure(env)))
    ensures t.calls == if Started(env) then s.calls + [j] else s.calls
    ensures t.leases == leases + [TriedLease(env.admit.value, x, env)]
    ensures t.audits == if Started(env) then s.audits + [TriedAudit(j, |leases|, env)] else s.audits
    ensures t.store == if Failure(env).None? then MarkSucceeded(s.store, j, env.vllm.value, env.usage.value) else s.store
  {
    var pc := Admitted(j, |leases|);
    if env.auditStart.Raise? {
      t := Perform(s, x, NoEffect);
      Onward(outlook, x, env, s, pc, NoEffect, FailTokens(j, Some(|leases|), None, env.auditStart.error));
      return;
    }
    var effect := StartAudit(j, |leases|);
    Onward(outlook, x, env, s, pc, effect, Audited(j, |leases|, |s.audits|));
    AppendedUpdate(leases, NewLease(env.admit.value, x), TriedLease(env.admit.value, x, env));
    AppendedUpdate(s.audits, AuditRecord(j, |leases|, None), TriedAudit(j, |leases|, env));
    var failure;
    t, failure := Calls(outlook, x, env, Perform(s, x, effect), j, |leases|, |s.audits|);
  }

  /** The except block. */
  lemma Handles(outlook: (State, Pc) -> State, x: nat, env: Env, s: State, j: JobId, held: Option<nat>, record: Option<nat>,
                e: Error)
    returns (t: State)
    requires Steady(outlook, x, env) && Failure(env) == Some(e) && (record.Some? <==> Started(env))
    requires (held.Some? ==> held.value < |s.leases|) && (record.Some? ==> record.value < |s.audits|)
    ensures outlook(t, Releasing(held, Answer(env))) == outlook(s, FailTokens(j, held, record, e))
    ensures t.calls == s.calls
    ensures t.leases == if held.Some? then s.leases[held.value := FinalizeTokens(s.leases[held.value], 0, true)] else s.leases
    ensures t.audits == if record.Some? && env.auditFailed.Ok?
                        then s.audits[record.value := s.audits[record.value].(final := Some(FailedFinal(e.code)))] else s.audits
    ensures t.store == if Answer(env) == Returned(true) then MarkFailed(s.store, j, e) else s.store
  {
    var effect := if held.Some? then FinalizeLease(held.value, 0, true) else NoEffect;
    Onward(outlook, x, env, s, FailTokens(j, held, record, e), effect, FailAudit(j, held, record, e));
    t := AuditsFailure(outlook, x, env, Perform(s, x, effect), j, held, record, e);
  }

  lemma AuditsFailure(outlook: (State, Pc) -> State, x: nat, env: Env, s: State, j: JobId, held: Option<nat>,
                      record: Option<nat>, e: Error)
    returns (t: State)
    requires Steady(outlook, x, env) && Failure(env) == Some(e) && (record.Some? <==> Started(env))
    requires record.Some? ==> record.value < |s.audits|
    ensures outlook(t, Releasing(held, Answer(env))) == outlook(s, FailAudit(j, held, record, e))
    ensures t.calls == s.calls && t.leases == s.leases
    ensures t.audits == if record.Some? && env.auditFailed.Ok?
                        then s.audits[record.value := s.audits[record.value].(final := Some(FailedFinal(e.code)))] else s.audits
    ensures t.store == if Answer(env) == Returned(true) then MarkFailed(s.store, j, e) else s.store
  {
    var pc := FailAudit(j, held, record, e);
    if record.None? {
      Onward(outlook, x, env, s, pc, NoEffect, FailMark(j, held, e));
      t := MarksFailure(outlook, x, env, Perform(s, x, NoEffect), j, held, e);
    } else if env.auditFailed.Raise? {
      t := Perform(s, x, NoEffect);
      Onward(outlook, x, env, s, pc, NoEffect, Releasing(held, Raised(env.auditFailed.error)));
    } else {
      var effect := FinalizeAudit(record.value, FailedFinal(e.code));
      Onward(outlook, x, env, s, pc, effect, FailMark(j, held, e));
      t := MarksFailure(outlook, x, env, Perform(s, x, effect), j, held, e);
    }
  }

  lemma MarksFailure(outlook: (State, Pc) -> State, x: nat, env: Env, s: State, j: JobId, held: Option<nat>, e: Error)
    returns (t: State)
    requires Steady(outlook, x, env)
    ensures outlook(s, FailMark(j, held, e))
         == outlook(t, Releasing(held, if env.markFailed.Raise? then Raised(env.markFailed.error) else Returned(true)))
    ensures t.calls == s.calls && t.leases == s.leases && t.audits == s.audits
    ensures t.store == if env.markFailed.Ok? then MarkFailed(s.store, j, e) else s.store
  {
    if env.markFailed.Raise? {
      t := Perform(s, x, NoEffect);
      Onward(outlook, x, env, s, FailMark(j, held, e), NoEffect, Releasing(held, Raised(env.markFailed.error)));
    } else {
      t := Perform(s, x, MarkError(j, e));
      Onward(outlook, x, env, s, FailMark(j, held, e), MarkError(j, e), Releasing(held, Returned(true)));
    }
  }

  // ---- the whole job ------------------------------------------------------------------------

  /** The lease once it has been settled. */
  function SettledLease(reserved: int, x: nat, env: Env): Lease {
    Lease(reserved, true, true, LeaseLog(reserved, env), x)
  }

  /** Finalizing once more in the except block only counts if the try block had not got that far. */
  lemma LeaseIsSettled(reserved: int, x: nat, env: Env)
    ensures var tried := TriedLease(reserved, x, env);
            ReleaseSlot(if Failure(env).Some? then FinalizeTokens(tried, 0, true) else tried) == SettledLease(reserved, x, env)
  {
  }

  /** From the end of the try block to the finally block. */
  lemma Excepts(outlook: (State, Pc) -> State, x: nat, env: Env, s: State, j: JobId, leases: seq<Lease>, audits: seq<AuditRecord>)
    returns (t: State)
    requires Steady(outlook, x, env)
    requires s.leases == if env.admit.Ok? then leases + [TriedLease(env.admit.value, x, env)] else leases
    requires s.audits == if Started(env) then audits + [TriedAudit(j, |leases|, env)] else audits
    ensures var held := if env.admit.Ok? then Some(|leases|) else None;
            outlook(t, Releasing(held, Answer(env)))
            == outlook(s, AfterTry(j, held, if Started(env) then Some(|audits|) else None, Failure(env)))
    ensures t.calls == s.calls
    ensures t.leases == if env.admit.Ok?
                        then leases + [if Failure(env).Some? then FinalizeTokens(TriedLease(env.admit.value, x, env), 0, true)
                                       else TriedLease(env.admit.value, x, env)]
                        else leases
    ensures t.audits == if Started(env) then audits + [AuditRecord(j, |leases|, AuditOutcome(env))] else audits
    ensures t.store == if Failure(env).Some? && Answer(env) == Returned(true) then MarkFailed(s.store, j, Failure(env).value)
                       else s.store
  {
    if Failure(env).None? {
      t := s;
    } else {
      if env.admit.Ok? {
        AppendedUpdate(leases, TriedLease(env.admit.value, x, env), FinalizeTokens(TriedLease(env.admit.value, x, env), 0, true));
      }
      AppendedUpdate(audits, TriedAudit(j, |leases|, env), AuditRecord(j, |leases|, AuditOutcome(env)));
      t := Handles(outlook, x, env, s, j, if env.admit.Ok? then Some(|leases|) else None,
                   if Started(env) then Some(|audits|) else None, Failure(env).value);
    }
  }

  /** The finally block. */
  lemma Releases(outlook: (State, Pc) -> State, x: nat, env: Env, s: State, held: Option<nat>) returns (t: State)
    requires Steady(outlook, x, env) && (held.Some? ==> held.value < |s.leases|)
    ensures outlook(t, Idle(Answer(env))) == outlook(s, Releasing(held, Answer(env)))
    ensures t.calls == s.calls && t.audits == s.audits && t.store == s.store
    ensures t.leases == if held.Some? then s.leases[held.value := ReleaseSlot(s.leases[held.value])] else s.leases
  {
    var effect := if held.Some? then ReleaseLease(held.value) else NoEffect;
    t := Perform(s, x, effect);
    Onward(outlook, x, env, s, Releasing(held, Answer(env)), effect, Idle(Answer(env)));
  }

  /** What a finished job leaves behind, cell by cell of the table. */
  ghost predicate FollowsTable(s: State, t: State, x: nat, env: Env, j: JobId)
    requires j in s.store.jobs
  {
    && t.store == s.store.(jobs := s.store.jobs[j := FinalRecord(s.store.jobs[j], env)])
    && t.calls == (if Started(env) then s.calls + [j] else s.calls)
    && t.leases == (if env.admit.Ok? then s.leases + [SettledLease(env.admit.value, x, env)] else s.leases)
    && t.audits == (if Started(env) then s.audits + [AuditRecord(j, |s.leases|, AuditOutcome(env))] else s.audits)
    && x in t.agents && t.agents[x] == Idle(Answer(env))
  }

  lemma StoreFollows(store: Store, j: JobId, env: Env)
    requires j in store.jobs
    ensures var tried := if Failure(env).None? then MarkSucceeded(store, j, env.vllm.value, env.usage.value) else store;
            (if Failure(env).Some? && Answer(env) == Returned(true) then MarkFailed(tried, j, Failure(env).value) else tried)
            == store.(jobs := store.jobs[j := FinalRecord(store.jobs[j], env)])
  {
    assert store.jobs[j := store.jobs[j]] == store.jobs;
  }

  /** A claimed job's steps, taken to the end, lead where the table says, whatever its calls do. */
  lemma ClaimedJobFollowsTable(s: State, x: nat, env: Env, j: JobId)
    requires j in s.store.jobs
    ensures FollowsTable(s, Sequential.Finish(WithAgent(s, x, Claimed(j)), x, env), x, env, j)
  {
    var outlook := Outlook(x, env);
    OutlookIsSteady(x, env);
    var tried := Tries(outlook, x, env, s, j);
    var excepted := Excepts(outlook, x, env, tried, j, s.leases, s.audits);
    var held := if env.admit.Ok? then Some(|s.leases|) else None;
    var done := Releases(outlook, x, env, excepted, held);
    if env.admit.Ok? {
      var tried' := TriedLease(env.admit.value, x, env);
      AppendedUpdate(s.leases, if Failure(env).Some? then FinalizeTokens(tried', 0, true) else tried',
                     SettledLease(env.admit.value, x, env));
      LeaseIsSettled(env.admit.value, x, env);
    }
    StoreFollows(s.store, j, env);
    AtTheEnd(s, done, x, env, j);
  }

  lemma AtTheEnd(s: State, done: State, x: nat, env: Env, j: JobId)
    requires j in s.store.jobs && FollowsTable(s, WithAgent(done, x, Idle(Answer(env))), x, env, j)
    requires Outlook(x, env)(done, Idle(Answer(env))) == Outlook(x, env)(s, Claimed(j))
    ensures FollowsTable(s, Sequential.Finish(WithAgent(s, x, Claimed(j)), x, env), x, env, j)
  {
  }

  /** A `process_one` that finds a QUEUED job at the head of its queue leaves what the table says of that job. */
  lemma ProcessOneFollowsTable(s: State, x: nat, env: Env)
    requires x in s.agents && s.agents[x].Idle? && Sequential.Calm(env) && s.queue != []
    requires HasStatus(s.store, s.queue[0], Queued)
    ensures var j := s.queue[0]; var claimed := s.(store := Transition(s.store, j, Running));
            FollowsTable(claimed, Sequential.ProcessOne(s, x, env), x, env, j)
  {
    var j := s.queue[0];
    var q := Sequential.WithQueue(s, s.queue[1..]);
    Sequential.ClaimsQueued(s, x, env);
    ClaimedJobFollowsTable(Perform(q, x, ClaimJob(j)), x, env, j);
  }
}
