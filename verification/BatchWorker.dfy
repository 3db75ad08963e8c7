/**
 * `process_one` as the imperative code it is, with its try, except and finally. It is proved to be the run of protocol
 * steps that the protocol theorems are about.
 */
module BatchWorker {
  import opened Wrappers
  import opened BatchStatus
  import opened BatchStore
  import opened AuditService
  import opened Leases
  import opened BatchProtocol
  import opened BatchInvariants
  import Sequential = BatchSequential

  /**
   * The collaborators of a worker - store, queue, admission, audit service and vLLM - as one object over the shared
   * state. Every method is one awaited call: `env` says whether it raises, and a call that raises does nothing.
   */
  class Backend {
    var state: State

    constructor (state: State)
      ensures this.state == state
    {
      this.state := state;
    }

    method Dequeue(x: nat, env: Env) returns (id: Outcome<Option<JobId>>)
      modifies this
      ensures id == (if env.dequeue.Raise? then Raise(env.dequeue.error)
                     else Ok(if old(state.queue) == [] then None else Some(old(state.queue)[0])))
      ensures state == Perform(old(state), x, if id.Ok? && id.value.Some? then PopHead else NoEffect)
    {
      if env.dequeue.Raise? {
        return Raise(env.dequeue.error);
      }
      if state.queue == [] {
        return Ok(None);
      }
      id := Ok(Some(state.queue[0]));
      state := Perform(state, x, PopHead);
    }

    method Get(id: JobId, env: Env) returns (job: Outcome<Option<Job>>)
      ensures job == (if env.get.Raise? then Raise(env.get.error)
                      else Ok(if id in state.store.jobs then Some(state.store.jobs[id]) else None))
    {
      if env.get.Raise? {
        return Raise(env.get.error);
      }
      job := Ok(if id in state.store.jobs then Some(state.store.jobs[id]) else None);
    }

    method Enqueue(x: nat, id: JobId, env: Env) returns (done: Outcome<()>)
      modifies this
      ensures done == env.enqueue
      ensures state == Perform(old(state), x, if done.Ok? then PushBack(id) else NoEffect)
    {
      done := env.enqueue;
      if done.Ok? {
        state := Perform(state, x, PushBack(id));
      }
    }

    method TransitionToRunning(x: nat, id: JobId, env: Env) returns (moved: Outcome<bool>)
      modifies this
      ensures moved == (if env.claim.Raise? then Raise(env.claim.error)
                        else Ok(MayTransition(old(state.store), id, Running)))
      ensures state == Perform(old(state), x, if moved == Ok(true) then ClaimJob(id) else NoEffect)
    {
      if env.claim.Raise? {
        return Raise(env.claim.error);
      }
      moved := Ok(MayTransition(state.store, id, Running));
      if moved.value {
        state := Perform(state, x, ClaimJob(id));
      }
    }

    /** The lease is named by its number. */
    method Admit(x: nat, env: Env) returns (lease: Outcome<nat>)
      modifies this
      ensures lease == (if env.admit.Raise? then Raise(env.admit.error) else Ok(|old(state.leases)|))
      ensures state == Perform(old(state), x, if env.admit.Ok? then GrantLease(env.admit.value) else NoEffect)
    {
      if env.admit.Raise? {
        return Raise(env.admit.error);
      }
      lease := Ok(|state.leases|);
      state := Perform(state, x, GrantLease(env.admit.value));
    }

    method StartAudit(x: nat, id: JobId, lease: nat, env: Env) returns (record: Outcome<nat>)
      modifies this
      ensures record == (if env.auditStart.Raise? then Raise(env.auditStart.error) else Ok(|old(state.audits)|))
      ensures state == Perform(old(state), x, if record.Ok? then Effect.StartAudit(id, lease) else NoEffect)
    {
      if env.auditStart.Raise? {
        return Raise(env.auditStart.error);
      }
      record := Ok(|state.audits|);
      state := Perform(state, x, Effect.StartAudit(id, lease));
    }

    method CreateChatCompletion(x: nat, id: JobId, env: Env) returns (response: Outcome<string>)
      modifies this
      ensures response == env.vllm && state == Perform(old(state), x, CallVllm(id))
    {
      response := env.vllm;
      state := Perform(state, x, CallVllm(id));
    }

    method FinalizeTokens(x: nat, lease: nat, actual: int, releaseAll: bool)
      modifies this
      ensures state == Perform(old(state), x, FinalizeLease(lease, actual, releaseAll))
    {
      state := Perform(state, x, FinalizeLease(lease, actual, releaseAll));
    }

    method Release(x: nat, lease: nat)
      modifies this
      ensures state == Perform(old(state), x, ReleaseLease(lease))
    {
      state := Perform(state, x, ReleaseLease(lease));
    }

    method FinalizeAudit(x: nat, record: nat, final: AuditFinal, answer: Outcome<()>) returns (done: Outcome<()>)
      modifies this
      ensures done == answer
      ensures state == Perform(old(state), x, if done.Ok? then Effect.FinalizeAudit(record, final) else NoEffect)
    {
      done := answer;
      if done.Ok? {
        state := Perform(state, x, Effect.FinalizeAudit(record, final));
      }
    }

    method MarkSucceeded(x: nat, id: JobId, response: string, usage: Usage, env: Env) returns (done: Outcome<()>)
      modifies this
      ensures done == env.markSucceeded
      ensures state == Perform(old(state), x, if done.Ok? then MarkDone(id, response, usage) else NoEffect)
    {
      done := env.markSucceeded;
      if done.Ok? {
        state := Perform(state, x, MarkDone(id, response, usage));
      }
    }

    method MarkFailed(x: nat, id: JobId, error: Error, env: Env) returns (done: Outcome<()>)
      modifies this
      ensures done == env.markFailed
      ensures state == Perform(old(state), x, if done.Ok? then MarkError(id, error) else NoEffect)
    {
      done := env.markFailed;
      if done.Ok? {
        state := Perform(state, x, MarkError(id, error));
      }
    }
  }

  // ---- the protocol run that a process_one is ----------------------------------------

  /** Where worker `x` ends up when it goes on from `pc`. */
  ghost function Outlook(x: nat, env: Env): (State, Pc) -> State {
    (s: State, pc: Pc) => Sequential.Finish(WithAgent(s, x, pc), x, env)
  }

  /** Making the move that the protocol prescribes at `pc` does not change where the worker ends up. */
  ghost predicate Steady(outlook: (State, Pc) -> State, x: nat, env: Env) {
    forall s: State, pc: Pc :: Sequential.Rank(pc) > 0 ==>
      outlook(s, pc) == outlook(Perform(s, x, AgentMove(s, pc, env).effect), AgentMove(s, pc, env).next)
  }

  lemma OutlookIsSteady(x: nat, env: Env)
    ensures Steady(Outlook(x, env), x, env)
  {
    forall s: State, pc: Pc | Sequential.Rank(pc) > 0
      ensures Outlook(x, env)(s, pc) == Outlook(x, env)(Perform(s, x, AgentMove(s, pc, env).effect), AgentMove(s, pc, env).next)
    {
      Sequential.Advance(s, x, pc, env);
    }
  }

  lemma Onward(outlook: (State, Pc) -> State, x: nat, env: Env, s: State, pc: Pc, effect: Effect, next: Pc)
    requires Steady(outlook, x, env) && Sequential.Rank(pc) > 0 && AgentMove(s, pc, env) == Move(effect, next)
    ensures outlook(Perform(s, x, effect), next) == outlook(s, pc)
  {
  }

  // ---- the worker ------------------------------------------------------------------------

  function AnswerOf(result: Outcome<bool>): Return {
    match result
    case Ok(processed) => Returned(processed)
    case Raise(error) => Raised(error)
  }

  /** Where the locals of `process_one` say it stands once its try block is left: in the handler, or on to the return. */
  function AfterTry(id: JobId, lease: Option<nat>, record: Option<nat>, failure: Option<Error>): Pc {
    match failure
    case Some(e) => FailTokens(id, lease, record, e)
    case None => Releasing(lease, Returned(true))
  }

  class BatchWorker {
    const x: nat
    const backend: Backend

    constructor (x: nat, backend: Backend)
      ensures this.x == x && this.backend == backend
    {
      this.x := x;
      this.backend := backend;
    }

    /** The try block after the audit record exists: the vLLM call, and the settlement of its usage. */
    method Complete(id: JobId, lease: nat, record: nat, env: Env, ghost outlook: (State, Pc) -> State)
      returns (failure: Option<Error>)
      requires Steady(outlook, x, env)
      modifies backend
      ensures outlook(backend.state, AfterTry(id, Some(lease), Some(record), failure))
           == outlook(old(backend.state), Audited(id, lease, record))
    {
      ghost var s := backend.state;
      var response := backend.CreateChatCompletion(x, id, env);
      if response.Raise? {
        Onward(outlook, x, env, s, Audited(id, lease, record), CallVllm(id),
               FailTokens(id, Some(lease), Some(record), response.error));
        return Some(response.error);
      }
      Onward(outlook, x, env, s, Audited(id, lease, record), CallVllm(id), Responded(id, lease, record, response.value));
      failure := SettleUsage(id, lease, record, response.value, env, outlook);
    }

    method SettleUsage(id: JobId, lease: nat, record: nat, response: string, env: Env, ghost outlook: (State, Pc) -> State)
      returns (failure: Option<Error>)
      requires Steady(outlook, x, env)
      modifies backend
      ensures outlook(backend.state, AfterTry(id, Some(lease), Some(record), failure))
           == outlook(old(backend.state), Responded(id, lease, record, response))
    {
      ghost var s := backend.state;
      if env.usage.Raise? {
        Onward(outlook, x, env, s, Responded(id, lease, record, response), NoEffect,
               FailTokens(id, Some(lease), Some(record), env.usage.error));
        return Some(env.usage.error);
      }
      var usage := env.usage.value;
      backend.FinalizeTokens(x, lease, usage.totalTokens, false);
      Onward(outlook, x, env, s, Responded(id, lease, record, response), FinalizeLease(lease, usage.totalTokens, false),
             Settled(id, lease, record, response, usage));
      failure := RecordSuccess(id, lease, record, response, usage, env, outlook);
    }

    method RecordSuccess(id: JobId, lease: nat, record: nat, response: string, usage: Usage, env: Env,
                         ghost outlook: (State, Pc) -> State)
      returns (failure: Option<Error>)
      requires Steady(outlook, x, env)
      modifies backend
      ensures outlook(backend.state, AfterTry(id, Some(lease), Some(record), failure))
           == outlook(old(backend.state), Settled(id, lease, record, response, usage))
    {
      ghost var s := backend.state;
      var audited := backend.FinalizeAudit(x, record, CompletedFinal(usage), env.auditCompleted);
      if audited.Raise? {
        Onward(outlook, x, env, s, Settled(id, lease, record, response, usage), NoEffect,
               FailTokens(id, Some(lease), Some(record), audited.error));
        return Some(audited.error);
      }
      Onward(outlook, x, env, s, Settled(id, lease, record, response, usage),
             Effect.FinalizeAudit(record, CompletedFinal(usage)), Completed(id, lease, record, response, usage));
      ghost var t := backend.state;
      var marked := backend.MarkSucceeded(x, id, response, usage, env);
      if marked.Raise? {
        Onward(outlook, x, env, t, Completed(id, lease, record, response, usage), NoEffect,
               FailTokens(id, Some(lease), Some(record), marked.error));
        return Some(marked.error);
      }
      Onward(outlook, x, env, t, Completed(id, lease, record, response, usage), MarkDone(id, response, usage),
             Releasing(Some(lease), Returned(true)));
      failure := None;
    }

    /** The whole try block, with what its locals are when it is left. */
    method TryBlock(id: JobId, env: Env, ghost outlook: (State, Pc) -> State)
      returns (lease: Option<nat>, record: Option<nat>, failure: Option<Error>)
      requires Steady(outlook, x, env)
      modifies backend
      ensures outlook(backend.state, AfterTry(id, lease, record, failure)) == outlook(old(backend.state), Claimed(id))
    {
      ghost var s := backend.state;
      lease, record := None, None;
      var admitted := backend.Admit(x, env);
      if admitted.Raise? {
        Onward(outlook, x, env, s, Claimed(id), NoEffect, FailTokens(id, None, None, admitted.error));
        failure := Some(admitted.error);
        return;
      }
      lease := Some(admitted.value);
      Onward(outlook, x, env, s, Claimed(id), GrantLease(env.admit.value), Admitted(id, admitted.value));
      ghost var t := backend.state;
      var started := backend.StartAudit(x, id, admitted.value, env);
      if started.Raise? {
        Onward(outlook, x, env, t, Admitted(id, admitted.value), NoEffect,
               FailTokens(id, lease, None, started.error));
        failure := Some(started.error);
        return;
      }
      record := Some(started.value);
      Onward(outlook, x, env, t, Admitted(id, admitted.value), Effect.StartAudit(id, admitted.value),
             Audited(id, admitted.value, started.value));
      failure := Complete(id, admitted.value, started.value, env, outlook);
    }

    /** The except block; an exception in it is what `process_one` will raise. */
    method Handle(id: JobId, lease: Option<nat>, record: Option<nat>, error: Error, env: Env,
                  ghost outlook: (State, Pc) -> State)
      returns (answer: Outcome<bool>)
      requires Steady(outlook, x, env)
      modifies backend
      ensures outlook(backend.state, Releasing(lease, AnswerOf(answer)))
           == outlook(old(backend.state), FailTokens(id, lease, record, error))
    {
      ghost var s := backend.state;
      if lease.Some? {
        backend.FinalizeTokens(x, lease.value, 0, true);
      }
      Onward(outlook, x, env, s, FailTokens(id, lease, record, error),
             if lease.Some? then FinalizeLease(lease.value, 0, true) else NoEffect, FailAudit(id, lease, record, error));
      answer := RecordFailure(id, lease, record, error, env, outlook);
    }

    method RecordFailure(id: JobId, lease: Option<nat>, record: Option<nat>, error: Error, env: Env,
                         ghost outlook: (State, Pc) -> State)
      returns (answer: Outcome<bool>)
      requires Steady(outlook, x, env)
      modifies backend
      ensures outlook(backend.state, Releasing(lease, AnswerOf(answer)))
           == outlook(old(backend.state), FailAudit(id, lease, record, error))
    {
      ghost var s := backend.state;
      if record.Some? {
        var audited := backend.FinalizeAudit(x, record.value, FailedFinal(error.code), env.auditFailed);
        if audited.Raise? {
          Onward(outlook, x, env, s, FailAudit(id, lease, record, error), NoEffect, Releasing(lease, Raised(audited.error)));
          return Raise(audited.error);
        }
      }
      Onward(outlook, x, env, s, FailAudit(id, lease, record, error),
             if record.Some? then Effect.FinalizeAudit(record.value, FailedFinal(error.code)) else NoEffect,
             FailMark(id, lease, error));
      answer := MarkFailure(id, lease, error, env, outlook);
    }

    method MarkFailure(id: JobId, lease: Option<nat>, error: Error, env: Env, ghost outlook: (State, Pc) -> State)
      returns (answer: Outcome<bool>)
      requires Steady(outlook, x, env)
      modifies backend
      ensures outlook(backend.state, Releasing(lease, AnswerOf(answer)))
           == outlook(old(backend.state), FailMark(id, lease, error))
    {
      ghost var s := backend.state;
      var marked := backend.MarkFailed(x, id, error, env);
      if marked.Raise? {
        Onward(outlook, x, env, s, FailMark(id, lease, error), NoEffect, Releasing(lease, Raised(marked.error)));
        return Raise(marked.error);
      }
      Onward(outlook, x, env, s, FailMark(id, lease, error), MarkError(id, error), Releasing(lease, Returned(true)));
      answer := Ok(true);
    }

    /** From the claim on: try, except, finally. */
    method Execute(id: JobId, env: Env, ghost outlook: (State, Pc) -> State) returns (answer: Outcome<bool>)
      requires Steady(outlook, x, env)
      modifies backend
      ensures outlook(backend.state, Idle(AnswerOf(answer))) == outlook(old(backend.state), Claimed(id))
    {
      var lease, record, failure := TryBlock(id, env, outlook);
      if failure.Some? {
        answer := Handle(id, lease, record, failure.value, env, outlook);
      } else {
        answer := Ok(true);
      }
      ghost var s := backend.state;
      if lease.Some? {
        backend.Release(x, lease.value);
      }
      Onward(outlook, x, env, s, Releasing(lease, AnswerOf(answer)),
             if lease.Some? then ReleaseLease(lease.value) else NoEffect, Idle(AnswerOf(answer)));
    }

    /** From the pop on. */
    method Process(id: JobId, env: Env, ghost outlook: (State, Pc) -> State) returns (answer: Outcome<bool>)
      requires Steady(outlook, x, env)
      modifies backend
      ensures outlook(backend.state, Idle(AnswerOf(answer))) == outlook(old(backend.state), Popped(id))
    {
      ghost var s := backend.state;
      var job := backend.Get(id, env);
      if job.Raise? {
        Onward(outlook, x, env, s, Popped(id), NoEffect, Idle(Raised(job.error)));
        return Raise(job.error);
      }
      if job.value.None? || job.value.value.status == Cancelled {
        Onward(outlook, x, env, s, Popped(id), NoEffect, Idle(Returned(false)));
        return Ok(false);
      }
      Onward(outlook, x, env, s, Popped(id), NoEffect, Fetched(id));
      if env.shouldRun.Raise? {
        Onward(outlook, x, env, s, Fetched(id), NoEffect, Idle(Raised(env.shouldRun.error)));
        return Raise(env.shouldRun.error);
      }
      if !env.shouldRun.value {
        Onward(outlook, x, env, s, Fetched(id), NoEffect, Deferring(id));
        answer := Defer(id, env, outlook);
        return;
      }
      Onward(outlook, x, env, s, Fetched(id), NoEffect, Ready(id));
      answer := Claim(id, env, outlook);
    }

    method Defer(id: JobId, env: Env, ghost outlook: (State, Pc) -> State) returns (answer: Outcome<bool>)
      requires Steady(outlook, x, env)
      modifies backend
      ensures outlook(backend.state, Idle(AnswerOf(answer))) == outlook(old(backend.state), Deferring(id))
    {
      ghost var s := backend.state;
      var done := backend.Enqueue(x, id, env);
      answer := if done.Raise? then Raise(done.error) else Ok(false);
      Onward(outlook, x, env, s, Deferring(id), if done.Ok? then PushBack(id) else NoEffect, Idle(AnswerOf(answer)));
    }

    method Claim(id: JobId, env: Env, ghost outlook: (State, Pc) -> State) returns (answer: Outcome<bool>)
      requires Steady(outlook, x, env)
      modifies backend
      ensures outlook(backend.state, Idle(AnswerOf(answer))) == outlook(old(backend.state), Ready(id))
    {
      ghost var s := backend.state;
      var running := backend.TransitionToRunning(x, id, env);
      if running.Raise? {
        Onward(outlook, x, env, s, Ready(id), NoEffect, Idle(Raised(running.error)));
        return Raise(running.error);
      }
      if !running.value {
        Onward(outlook, x, env, s, Ready(id), NoEffect, Idle(Returned(false)));
        return Ok(false);
      }
      Onward(outlook, x, env, s, Ready(id), ClaimJob(id), Claimed(id));
      answer := Execute(id, env, outlook);
    }

    /** The whole call leaves the shared state, and answers, as the protocol's run of this worker does. */
    method ProcessOne(env: Env) returns (answer: Outcome<bool>)
      requires x in backend.state.agents && backend.state.agents[x].Idle?
      modifies backend
      ensures WithAgent(backend.state, x, Idle(AnswerOf(answer))) == Sequential.ProcessOne(old(backend.state), x, env)
    {
      ghost var s := backend.state;
      ghost var outlook := Outlook(x, env);
      OutlookIsSteady(x, env);
      var id := backend.Dequeue(x, env);
      if id.Raise? {
        answer := Raise(id.error);
      } else if id.value.None? {
        answer := Ok(false);
      } else {
        answer := Process(id.value.value, env, outlook);
      }
    }
  }

  // ---- what a whole process_one keeps ---------------------------------------------------------

  lemma {:induction false} FinishKeepsInv(s: State, x: nat, env: Env)
    requires Inv(s) && x in s.agents && (Sequential.Rank(s.agents[x]) > 0 || s.agents[x].Idle?)
    ensures var t := Sequential.Finish(s, x, env); Inv(t) && x in t.agents && t.agents[x].Idle?
    decreases Sequential.Rank(s.agents[x])
  {
    if Sequential.Rank(s.agents[x]) > 0 {
      StepKeepsInv(s, Go(x, env));
      Sequential.MoveLowersRank(s, s.agents[x], env);
      FinishKeepsInv(Step(s, Go(x, env)), x, env);
    }
  }

  /**
   * Whichever calls raise, when `process_one` is over every lease this worker was ever granted has had exactly one token
   * finalize and then one slot release, and the protocol invariant holds again.
   */
  lemma ProcessOneSettles(s: State, x: nat, env: Env, l: nat)
    requires Inv(s) && x in s.agents && s.agents[x].Idle?
    ensures var t := Sequential.ProcessOne(s, x, env);
            Inv(t) && (l < |t.leases| && t.leases[l].holder == x ==> FullySettled(t.leases[l]))
  {
    StepKeepsInv(s, Go(x, env));
    FirstStep(s, x, env);
    FinishKeepsInv(Step(s, Go(x, env)), x, env);
    TakeOut(Sequential.ProcessOne(s, x, env), x);
  }

  lemma FirstStep(s: State, x: nat, env: Env)
    requires x in s.agents && s.agents[x].Idle?
    ensures var t := Step(s, Go(x, env));
            t.agents[x].Idle? || Sequential.Rank(t.agents[x]) > 0
  {
  }
}
