/**
 * One agent running alone: a whole `process_one`, a whole recovery scan, and a queue worked off to the end. All of
 * them are runs of protocol steps, so they add no second account of what a call does.
 */
module BatchSequential {
  import opened Wrappers
  import opened BatchStatus
  import opened BatchStore
  import opened BatchProtocol

  /** How many calls a worker may still make before its `process_one` is over. */
  function Rank(pc: Pc): nat {
    match pc
    case Popped(_) => 14
    case Fetched(_) => 13
    case Deferring(_) => 12
    case Ready(_) => 12
    case Claimed(_) => 11
    case Admitted(_, _) => 10
    case Audited(_, _, _) => 9
    case Responded(_, _, _, _) => 8
    case Settled(_, _, _, _, _) => 7
    case Completed(_, _, _, _, _) => 6
    case FailTokens(_, _, _, _) => 5
    case FailAudit(_, _, _, _) => 4
    case FailMark(_, _, _) => 3
    case Releasing(_, _) => 2
    case _ => 0
  }

  lemma MoveLowersRank(s: State, pc: Pc, env: Env)
    requires Rank(pc) > 0
    ensures Rank(AgentMove(s, pc, env).next) < Rank(pc)
    ensures !AgentMove(s, pc, env).next.Crashed?
    ensures Rank(AgentMove(s, pc, env).next) == 0 ==> AgentMove(s, pc, env).next.Idle?
  {
  }

  /** Agent `x` makes its calls, nobody else any, until it is through. */
  function Finish(s: State, x: nat, env: Env): State
    requires x in s.agents
    decreases Rank(s.agents[x])
  {
    var pc := s.agents[x];
    if Rank(pc) == 0 then s
    else
      var move := AgentMove(s, pc, env);
      MoveLowersRank(s, pc, env);
      Finish(WithAgent(Perform(s, x, move.effect), x, move.next), x, env)
  }

  /** A whole `process_one` of worker `x`. */
  function ProcessOne(s: State, x: nat, env: Env): State
    requires x in s.agents && s.agents[x].Idle?
  {
    var move := AgentMove(s, s.agents[x], env);
    Finish(WithAgent(Perform(s, x, move.effect), x, move.next), x, env)
  }

  // ---- the part of the state that the queue has no say in ---------------------------

  function WithQueue(s: State, queue: seq<JobId>): State {
    s.(queue := queue)
  }

  /** From the claim on a worker neither reads nor writes the queue. */
  lemma {:induction false} FinishIgnoresQueue(s: State, x: nat, env: Env, queue: seq<JobId>)
    requires x in s.agents && (InTry(s.agents[x]) || InHandler(s.agents[x]))
    ensures Finish(WithQueue(s, queue), x, env) == WithQueue(Finish(s, x, env), queue)
    ensures Finish(s, x, env).queue == s.queue
    decreases Rank(s.agents[x])
  {
    var pc := s.agents[x];
    var move := AgentMove(s, pc, env);
    MoveLowersRank(s, pc, env);
    MoveIgnoresQueue(s, x, pc, env, queue);
    var t := WithAgent(Perform(s, x, move.effect), x, move.next);
    if Rank(move.next) > 0 {
      FinishIgnoresQueue(t, x, env, queue);
    }
  }

  lemma ExecuteMoveIgnoresQueue(s: State, pc: Pc, env: Env, queue: seq<JobId>)
    requires InTry(pc)
    ensures ExecuteMove(WithQueue(s, queue), pc, env) == ExecuteMove(s, pc, env)
  {
  }

  lemma PerformIgnoresQueue(s: State, x: nat, effect: Effect, queue: seq<JobId>)
    requires !effect.PopHead? && !effect.PushBack?
    ensures Perform(WithQueue(s, queue), x, effect) == WithQueue(Perform(s, x, effect), queue)
    ensures Perform(s, x, effect).queue == s.queue
  {
  }

  lemma MoveIgnoresQueue(s: State, x: nat, pc: Pc, env: Env, queue: seq<JobId>)
    requires InTry(pc) || InHandler(pc)
    ensures var move := AgentMove(s, pc, env);
            && AgentMove(WithQueue(s, queue), pc, env) == move
            && (move.next.Idle? || InTry(move.next) || InHandler(move.next))
            && Perform(WithQueue(s, queue), x, move.effect) == WithQueue(Perform(s, x, move.effect), queue)
            && Perform(s, x, move.effect).queue == s.queue
  {
    MarksOnlyItsJob(s, pc, env);
    if InTry(pc) {
      ExecuteMoveIgnoresQueue(s, pc, env, queue);
    }
    PerformIgnoresQueue(s, x, AgentMove(s, pc, env).effect, queue);
  }

  // ---- what a whole process_one does --------------------------------------------------

  /** No call before the claim raises, and the gate lets the worker run. */
  predicate Calm(env: Env) {
    env.dequeue.Ok? && env.get.Ok? && env.shouldRun == Ok(true) && env.enqueue.Ok? && env.claim.Ok?
  }

  /** Where the acting agent stands is no part of what its move does. */
  lemma MoveIgnoresAgents(s: State, x: nat, pc: Pc, at: Pc, env: Env)
    ensures AgentMove(WithAgent(s, x, at), pc, env) == AgentMove(s, pc, env)
  {
    var t := WithAgent(s, x, at);
    if BeforeClaim(pc) {
      assert ClaimMove(t, pc, env) == ClaimMove(s, pc, env);
    } else if InTry(pc) {
      assert ExecuteMove(t, pc, env) == ExecuteMove(s, pc, env);
    }
  }

  lemma PerformIgnoresAgents(s: State, x: nat, at: Pc, effect: Effect, next: Pc)
    ensures WithAgent(Perform(WithAgent(s, x, at), x, effect), x, next) == WithAgent(Perform(s, x, effect), x, next)
  {
    assert s.agents[x := at][x := next] == s.agents[x := next];
  }

  /** One call of a worker that is not through yet. */
  lemma Advance(s: State, x: nat, pc: Pc, env: Env)
    requires Rank(pc) > 0
    ensures var move := AgentMove(s, pc, env);
            Finish(WithAgent(s, x, pc), x, env) == Finish(WithAgent(Perform(s, x, move.effect), x, move.next), x, env)
  {
    var move := AgentMove(s, pc, env);
    MoveIgnoresAgents(s, x, pc, pc, env);
    PerformIgnoresAgents(s, x, pc, move.effect, move.next);
  }

  /** From its pop to its claim a worker leaves the shared state alone. */
  lemma ReachesClaim(s: State, x: nat, env: Env)
    requires x in s.agents && s.agents[x].Idle? && Calm(env) && s.queue != []
    ensures var j := s.queue[0]; var q := WithQueue(s, s.queue[1..]);
            ProcessOne(s, x, env) ==
              if j in s.store.jobs && s.store.jobs[j].status != Cancelled then Finish(WithAgent(q, x, Ready(j)), x, env)
              else WithAgent(q, x, Idle(Returned(false)))
  {
    var j := s.queue[0];
    var q := WithQueue(s, s.queue[1..]);
    assert ProcessOne(s, x, env) == Finish(WithAgent(q, x, Popped(j)), x, env);
    Looks(q, x, j, env);
  }

  /** The worker looks the job up, and asks whether it may run it unless it is unknown or CANCELLED. */
  lemma Looks(s: State, x: nat, j: JobId, env: Env)
    requires env.get.Ok? && env.shouldRun == Ok(true)
    ensures Finish(WithAgent(s, x, Popped(j)), x, env) ==
              if j in s.store.jobs && s.store.jobs[j].status != Cancelled then Finish(WithAgent(s, x, Ready(j)), x, env)
              else WithAgent(s, x, Idle(Returned(false)))
  {
    Advance(s, x, Popped(j), env);
    if j in s.store.jobs && s.store.jobs[j].status != Cancelled {
      Advance(s, x, Fetched(j), env);
    }
  }

  /** An entry whose job is not QUEUED (a duplicate, a cancelled or an unknown job) is dropped without a trace. */
  lemma DropsUnclaimable(s: State, x: nat, env: Env)
    requires x in s.agents && s.agents[x].Idle? && Calm(env) && s.queue != []
    requires !HasStatus(s.store, s.queue[0], Queued)
    ensures ProcessOne(s, x, env) == WithAgent(WithQueue(s, s.queue[1..]), x, Idle(Returned(false)))
  {
    ReachesClaim(s, x, env);
    Advance(WithQueue(s, s.queue[1..]), x, Ready(s.queue[0]), env);
  }

  function AfterClaim(s: State, x: nat, j: JobId): State {
    WithAgent(Perform(s, x, ClaimJob(j)), x, Claimed(j))
  }

  /** An entry whose job is QUEUED is claimed, and the rest of the call is the job's execution. */
  lemma ClaimsQueued(s: State, x: nat, env: Env)
    requires x in s.agents && s.agents[x].Idle? && Calm(env) && s.queue != []
    requires HasStatus(s.store, s.queue[0], Queued)
    ensures ProcessOne(s, x, env) == Finish(AfterClaim(WithQueue(s, s.queue[1..]), x, s.queue[0]), x, env)
  {
    ReachesClaim(s, x, env);
    AdvancesByClaim(WithQueue(s, s.queue[1..]), x, s.queue[0], env);
  }

  lemma AdvancesByClaim(s: State, x: nat, j: JobId, env: Env)
    requires HasStatus(s.store, j, Queued) && env.claim.Ok?
    ensures Finish(WithAgent(s, x, Ready(j)), x, env) == Finish(AfterClaim(s, x, j), x, env)
  {
    assert ClaimMove(s, Ready(j), env) == Move(ClaimJob(j), Claimed(j));
    Advance(s, x, Ready(j), env);
  }

  /** From the claim on a worker changes no job but its own, never back to QUEUED, and reports True for a terminal job. */
  ghost predicate TouchesOnly(before: Store, after: Store, j: JobId) {
    OnlyChanges(before, after, j) && j in after.jobs && after.jobs[j].status != Queued
  }

  ghost predicate AnswersTruly(store: Store, pc: Pc, j: JobId) {
    (pc.Releasing? && pc.answer == Returned(true)) || pc == Idle(Returned(true)) ==>
      j in store.jobs && Terminal(store.jobs[j].status)
  }

  /** After its claim a worker's only store effects are the two marks of the job it owns. */
  lemma MarksOnlyItsJob(s: State, pc: Pc, env: Env)
    requires InTry(pc) || InHandler(pc)
    ensures var move := AgentMove(s, pc, env);
            && (move.next.Idle? || InTry(move.next) || InHandler(move.next))
            && (PcOwned(move.next) == PcOwned(pc) || PcOwned(move.next).None?)
            && !move.effect.PopHead? && !move.effect.PushBack?
            && (OnStore(move.effect) ==>
                  (move.effect.MarkDone? || move.effect.MarkError?) && PcOwned(pc) == Some(move.effect.job))
            && (move.next.Releasing? && move.next.answer == Returned(true) ==> OnStore(move.effect))
            && (move.next.Idle? ==> pc.Releasing? && move.next.last == pc.answer && !OnStore(move.effect))
  {
  }

  lemma MarkTouchesOnly(store: Store, effect: Effect)
    requires (effect.MarkDone? || effect.MarkError?)
    requires effect.job in store.jobs && store.jobs[effect.job].status != Queued
    ensures var after := StoreAfter(store, effect);
            TouchesOnly(store, after, effect.job) && Terminal(after.jobs[effect.job].status)
  {
  }

  lemma MoveTouchesOnly(s: State, pc: Pc, env: Env, j: JobId)
    requires InTry(pc) || InHandler(pc)
    requires PcOwned(pc) == Some(j) || PcOwned(pc).None?
    requires j in s.store.jobs && s.store.jobs[j].status != Queued && AnswersTruly(s.store, pc, j)
    ensures var move := AgentMove(s, pc, env); var after := StoreAfter(s.store, move.effect);
            && TouchesOnly(s.store, after, j) && AnswersTruly(after, move.next, j)
            && (PcOwned(move.next) == Some(j) || PcOwned(move.next).None?)
            && (move.next.Idle? || InTry(move.next) || InHandler(move.next))
  {
    MarksOnlyItsJob(s, pc, env);
    var effect := AgentMove(s, pc, env).effect;
    if OnStore(effect) {
      MarkTouchesOnly(s.store, effect);
    } else {
      assert StoreAfter(s.store, effect) == s.store;
    }
  }

  lemma {:induction false} FinishTouchesOnly(s: State, x: nat, env: Env, j: JobId)
    requires x in s.agents && (s.agents[x].Idle? || InTry(s.agents[x]) || InHandler(s.agents[x]))
    requires PcOwned(s.agents[x]) == Some(j) || PcOwned(s.agents[x]).None?
    requires j in s.store.jobs && s.store.jobs[j].status != Queued && AnswersTruly(s.store, s.agents[x], j)
    ensures var t := Finish(s, x, env);
            && TouchesOnly(s.store, t.store, j)
            && x in t.agents && t.agents[x].Idle? && AnswersTruly(t.store, t.agents[x], j)
    decreases Rank(s.agents[x])
  {
    var pc := s.agents[x];
    if !pc.Idle? {
      var move := AgentMove(s, pc, env);
      MoveLowersRank(s, pc, env);
      MoveTouchesOnly(s, pc, env, j);
      FinishTouchesOnly(WithAgent(Perform(s, x, move.effect), x, move.next), x, env, j);
    }
  }

  lemma ClaimedEffect(s: State, x: nat, env: Env, j: JobId)
    requires x in s.agents && HasStatus(s.store, j, Queued)
    ensures var t := Finish(AfterClaim(s, x, j), x, env);
            && x in t.agents && t.agents[x].Idle? && t.queue == s.queue
            && TouchesOnly(s.store, t.store, j)
            && (t.agents[x] == Idle(Returned(true)) ==> Terminal(t.store.jobs[j].status))
  {
    var claimed := AfterClaim(s, x, j);
    assert TouchesOnly(s.store, claimed.store, j);
    FinishTouchesOnly(claimed, x, env, j);
    FinishIgnoresQueue(claimed, x, env, claimed.queue);
  }

  /** A calm `process_one` takes the head off the queue and leaves its job not QUEUED, and every other job as it was. */
  lemma ProcessOneEffect(s: State, x: nat, env: Env)
    requires x in s.agents && s.agents[x].Idle? && Calm(env) && s.queue != []
    ensures var t := ProcessOne(s, x, env); var j := s.queue[0];
            && x in t.agents && t.agents[x].Idle? && t.queue == s.queue[1..]
            && (if HasStatus(s.store, j, Queued) then TouchesOnly(s.store, t.store, j) else t.store == s.store)
            && (t.agents[x] == Idle(Returned(true)) ==> HasStatus(s.store, j, Queued) && Terminal(t.store.jobs[j].status))
  {
    var j := s.queue[0];
    if HasStatus(s.store, j, Queued) {
      ClaimsQueued(s, x, env);
      ClaimedEffect(WithQueue(s, s.queue[1..]), x, env, j);
    } else {
      DropsUnclaimable(s, x, env);
    }
  }
}
