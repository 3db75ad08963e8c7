/**
 * The batch protocol when a call that raises may nevertheless have been carried out, as when a connection is lost after
 * a commit. Statuses then follow the state machine exactly as long as no `mark_failed` meets a SUCCEEDED job, whose
 * status its guard does not refuse.
 */
module BatchTornCalls {
  import opened Wrappers
  import opened BatchStatus
  import opened BatchStore
  import opened BatchQueue
  import opened AuditService
  import opened BatchProtocol
  import opened BatchTheorems

  // ---- steps ---------------------------------------------------------------------------

  /** The call that the agent at `pc` makes next raises. */
  predicate CallRaises(pc: Pc, env: Env) {
    match pc
    case Idle(_) => env.dequeue.Raise?
    case Popped(_) => env.get.Raise?
    case Fetched(_) => env.shouldRun.Raise?
    case Deferring(_) => env.enqueue.Raise?
    case Ready(_) => env.claim.Raise?
    case Claimed(_) => env.admit.Raise?
    case Admitted(_, _) => env.auditStart.Raise?
    case Audited(_, _, _) => env.vllm.Raise?
    case Responded(_, _, _, _) => env.usage.Raise?
    case Settled(_, _, _, _, _) => env.auditCompleted.Raise?
    case Completed(_, _, _, _, _) => env.markSucceeded.Raise?
    case FailAudit(_, _, started, _) => started.Some? && env.auditFailed.Raise?
    case FailMark(_, _, _) => env.markFailed.Raise?
    case Enqueuing(_) => env.enqueue.Raise?
    case Inserting(_, _, _) => env.enqueue.Raise?
    case _ => false
  }

  /**
   * An action of the protocol; or a torn call, which does what it would do under `done` and raises as under `raised`; or
   * a torn create of a submitter, or a torn transition of a canceller.
   */
  datatype WideAction =
    | Whole(a: Action)
    | Torn(x: nat, done: Env, raised: Env)
    | TornCreate(x: nat, id: JobId, spec: JobSpec)
    | TornCancel(x: nat)

  function Actor(w: WideAction): nat {
    if w.Whole? then w.a.x else w.x
  }

  predicate WideEnabled(s: State, w: WideAction) {
    match w
    case Whole(a) => Enabled(s, a)
    case Torn(x, _, raised) => x in s.agents && CallRaises(s.agents[x], raised)
    case TornCreate(x, id, _) => x in s.agents && s.agents[x].SubmitIdle? && id !in s.store.jobs
    case TornCancel(x) => x in s.agents && s.agents[x].Cancelling?
  }

  function WideMove(s: State, w: WideAction): Move
    requires WideEnabled(s, w)
  {
    match w
    case Whole(a) => MoveOf(s, a)
    case Torn(x, done, raised) =>
      Move(AgentMove(s, s.agents[x], done).effect, AgentMove(s, s.agents[x], raised).next)
    case TornCreate(_, id, spec) => Move(CreateJob(id, spec), SubmitIdle)
    case TornCancel(x) => Move(CancelMove(s, s.agents[x]).effect, CancelIdle)
  }

  function WideStep(s: State, w: WideAction): State
    requires WideEnabled(s, w)
  {
    WithAgent(Perform(s, Actor(w), WideMove(s, w).effect), Actor(w), WideMove(s, w).next)
  }

  predicate Follows(s: State, w: WideAction, t: State) {
    WideEnabled(s, w) && t == WideStep(s, w)
  }

  type Relation = (State, WideAction, State) -> bool

  ghost predicate Linked(states: seq<State>, actions: seq<WideAction>, follows: Relation) {
    |states| == |actions| + 1 && forall i :: 0 <= i < |actions| ==> follows(states[i], actions[i], states[i + 1])
  }

  ghost predicate WideRun(states: seq<State>, actions: seq<WideAction>) {
    Linked(states, actions, Follows) && Init(states[0])
  }

  /** A `mark_failed` is carried out on a job that is SUCCEEDED. */
  predicate Overwrites(s: State, w: WideAction) {
    WideEnabled(s, w) &&
    var effect := WideMove(s, w).effect;
    effect.MarkError? && HasStatus(s.store, effect.job, Succeeded)
  }

  // ---- the invariant -----------------------------------------------------------------------

  ghost predicate HistoriesAgree(jobs: map<JobId, Job>, history: map<JobId, seq<Status>>) {
    && history.Keys == jobs.Keys
    && (forall j :: j in jobs ==> |history[j]| > 0 && history[j][|history[j]| - 1] == jobs[j].status)
  }

  ghost predicate ClaimsAgree(jobs: map<JobId, Job>, claimant: map<JobId, nat>) {
    forall j :: j in claimant ==> j in jobs && jobs[j].status != Queued
  }

  /** A worker past its claim is the job's only claimant; in the handler it may find the job SUCCEEDED. */
  ghost predicate Owns(w: nat, pc: Pc, jobs: map<JobId, Job>, claimant: map<JobId, nat>) {
    PcOwned(pc).Some? ==>
      var j := PcOwned(pc).value;
      && j in jobs && j in claimant && claimant[j] == w
      && (jobs[j].status == Running || jobs[j].status == Cancelled || (jobs[j].status == Succeeded && InHandler(pc)))
  }

  ghost predicate OwnersAgree(agents: map<nat, Pc>, away: set<nat>, jobs: map<JobId, Job>, claimant: map<JobId, nat>) {
    forall w :: w in agents && w !in away ==> Owns(w, agents[w], jobs, claimant)
  }

  ghost predicate StatusInv(s: State) {
    && HistoriesAgree(s.store.jobs, s.history) && ClaimsAgree(s.store.jobs, s.claimant)
    && OwnersAgree(s.agents, {}, s.store.jobs, s.claimant)
  }

  ghost predicate AllHold(history: map<JobId, seq<Status>>, holds: seq<Status> -> bool) {
    forall j :: j in history ==> holds(history[j])
  }

  ghost predicate PathsHold(history: map<JobId, seq<Status>>) {
    AllHold(history, IsPath)
  }

  // ---- one job moves ----------------------------------------------------------------------------

  /** The store changes at `id` only. */
  ghost predicate MovesOne(before: Store, after: Store, id: JobId) {
    OnlyChanges(before, after, id) && id in before.jobs
  }

  function Seen(history: map<JobId, seq<Status>>, before: Store, after: Store, id: JobId): map<JobId, seq<Status>>
    requires id in history && id in before.jobs && id in after.jobs
  {
    if after.jobs[id].status == before.jobs[id].status then history
    else history[id := history[id] + [after.jobs[id].status]]
  }

  lemma MoveIsSeen(history: map<JobId, seq<Status>>, before: Store, after: Store, id: JobId)
    requires MovesOne(before, after, id) && history.Keys == before.jobs.Keys
    ensures Observe(history, before, after) == Seen(history, before, after, id)
  {
  }

  /** When one history grows, the longer one stands in for it. */
  lemma OneGrows(history: map<JobId, seq<Status>>, id: JobId, path: seq<Status>, holds: seq<Status> -> bool)
    requires id in history ==> holds(path) ==> holds(history[id])
    ensures AllHold(history[id := path], holds) <==> AllHold(history, holds) && holds(path)
  {
    var longer := history[id := path];
    if AllHold(longer, holds) {
      assert holds(longer[id]);
      forall j | j in history ensures holds(history[j]) {
        if j != id {
          assert longer[j] == history[j];
        }
      }
    }
  }

  lemma PathGrows(path: seq<Status>, next: Status)
    requires |path| > 0
    ensures IsPath(path + [next]) <==> IsPath(path) && CanTransition(path[|path| - 1], next)
  {
    assert (path + [next])[..|path|] == path;
  }

  lemma HistoriesAfterMove(before: Store, after: Store, id: JobId, history: map<JobId, seq<Status>>)
    requires MovesOne(before, after, id) && HistoriesAgree(before.jobs, history)
    ensures HistoriesAgree(after.jobs, Seen(history, before, after, id))
  {
  }

  lemma PathsAfterMove(before: Store, after: Store, id: JobId, history: map<JobId, seq<Status>>)
    requires MovesOne(before, after, id) && HistoriesAgree(before.jobs, history)
    ensures PathsHold(Seen(history, before, after, id)) <==> PathsHold(history) && StatusAllowed(before, after, id)
  {
    if after.jobs[id].status != before.jobs[id].status {
      PathGrows(history[id], after.jobs[id].status);
      OneGrows(history, id, history[id] + [after.jobs[id].status], IsPath);
    }
  }

  /** Nobody but the job's claimant minds a move that does not bring the job back to QUEUED. */
  lemma OwnersAfterMove(agents: map<nat, Pc>, x: nat, before: Store, after: Store, id: JobId,
                        claimed: map<JobId, nat>, claimant: map<JobId, nat>)
    requires MovesOne(before, after, id) && OwnersAgree(agents, {x}, before.jobs, claimed)
    requires after.jobs[id].status == Cancelled || (id in claimed && claimed[id] == x) || before.jobs[id].status == Queued
    requires forall j :: j in claimed && j != id ==> j in claimant && claimant[j] == claimed[j]
    requires id in claimed ==> id in claimant && claimant[id] == claimed[id]
    ensures OwnersAgree(agents, {x}, after.jobs, claimant)
  {
  }

  // ---- effects -------------------------------------------------------------------------------------

  /** What the store effects of agent `x` are guarded by: the tables' guards, or its ownership of the job. */
  ghost predicate Guarded(s: State, x: nat, effect: Effect) {
    match effect
    case CreateJob(j, _) => j !in s.store.jobs
    case ClaimJob(j) => MayTransition(s.store, j, Running)
    case CancelJob(j) => MayTransition(s.store, j, Cancelled)
    case MarkDone(j, _, _) => OwnedAs(s, x, j) && s.store.jobs[j].status != Succeeded
    case MarkError(j, _) => OwnedAs(s, x, j)
    case _ => true
  }

  ghost predicate OwnedAs(s: State, x: nat, j: JobId) {
    && j in s.claimant && s.claimant[j] == x && j in s.store.jobs
    && (s.store.jobs[j].status == Running || s.store.jobs[j].status == Cancelled || s.store.jobs[j].status == Succeeded)
  }

  /** The invariant but for agent `x`. */
  ghost predicate StatusInvExcept(s: State, x: nat) {
    && HistoriesAgree(s.store.jobs, s.history) && ClaimsAgree(s.store.jobs, s.claimant)
    && OwnersAgree(s.agents, {x}, s.store.jobs, s.claimant)
  }

  ghost predicate Overwriting(s: State, effect: Effect) {
    effect.MarkError? && HasStatus(s.store, effect.job, Succeeded)
  }

  lemma CreateIsSeen(history: map<JobId, seq<Status>>, store: Store, id: JobId, spec: JobSpec)
    requires history.Keys == store.jobs.Keys && id !in store.jobs
    ensures Observe(history, store, Create(store, id, spec)) == history[id := [Queued]]
  {
  }

  lemma CreateKeepsHistories(store: Store, id: JobId, spec: JobSpec, history: map<JobId, seq<Status>>)
    requires HistoriesAgree(store.jobs, history) && id !in store.jobs
    ensures HistoriesAgree(Create(store, id, spec).jobs, history[id := [Queued]])
  {
  }

  lemma CreateKeepsPaths(history: map<JobId, seq<Status>>, id: JobId)
    requires id !in history
    ensures PathsHold(history[id := [Queued]]) <==> PathsHold(history)
  {
    OneGrows(history, id, [Queued], IsPath);
  }

  lemma CreateKeeps(s: State, x: nat, id: JobId, spec: JobSpec)
    requires StatusInvExcept(s, x) && id !in s.store.jobs
    ensures StatusInvExcept(Perform(s, x, CreateJob(id, spec)), x)
    ensures PathsHold(Perform(s, x, CreateJob(id, spec)).history) <==> PathsHold(s.history)
  {
    CreateIsSeen(s.history, s.store, id, spec);
    CreateKeepsHistories(s.store, id, spec, s.history);
    CreateKeepsPaths(s.history, id);
  }

  /** Only a `mark_failed` of a SUCCEEDED job leaves the state machine. */
  lemma GuardsAllow(s: State, x: nat, effect: Effect)
    requires Guarded(s, x, effect) && OnStore(effect) && !effect.CreateJob?
    ensures effect.job in s.store.jobs
    ensures var after := StoreAfter(s.store, effect);
            && MovesOne(s.store, after, effect.job)
            && (StatusAllowed(s.store, after, effect.job) <==> !Overwriting(s, effect))
            && after.jobs[effect.job].status != Queued
            && (after.jobs[effect.job].status == Cancelled || OwnedAs(s, x, effect.job)
                || s.store.jobs[effect.job].status == Queued)
  {
  }

  lemma MoveKeepsHistories(s: State, x: nat, effect: Effect)
    requires HistoriesAgree(s.store.jobs, s.history) && Guarded(s, x, effect) && OnStore(effect) && !effect.CreateJob?
    ensures HistoriesAgree(StoreAfter(s.store, effect).jobs, HistoryAfter(s.history, s.store, effect))
  {
    GuardsAllow(s, x, effect);
    MoveIsSeen(s.history, s.store, StoreAfter(s.store, effect), effect.job);
    HistoriesAfterMove(s.store, StoreAfter(s.store, effect), effect.job, s.history);
  }

  lemma MoveKeepsPaths(s: State, x: nat, effect: Effect)
    requires HistoriesAgree(s.store.jobs, s.history) && Guarded(s, x, effect) && OnStore(effect) && !effect.CreateJob?
    ensures PathsHold(HistoryAfter(s.history, s.store, effect)) <==> PathsHold(s.history) && !Overwriting(s, effect)
  {
    GuardsAllow(s, x, effect);
    MoveIsSeen(s.history, s.store, StoreAfter(s.store, effect), effect.job);
    PathsAfterMove(s.store, StoreAfter(s.store, effect), effect.job, s.history);
  }

  lemma MoveKeepsClaims(s: State, x: nat, effect: Effect)
    requires ClaimsAgree(s.store.jobs, s.claimant) && Guarded(s, x, effect) && OnStore(effect) && !effect.CreateJob?
    ensures ClaimsAgree(StoreAfter(s.store, effect).jobs, ClaimantAfter(s.claimant, x, effect))
  {
    GuardsAllow(s, x, effect);
  }

  lemma MoveKeepsOwners(s: State, x: nat, effect: Effect)
    requires StatusInvExcept(s, x) && Guarded(s, x, effect) && OnStore(effect) && !effect.CreateJob?
    ensures OwnersAgree(s.agents, {x}, StoreAfter(s.store, effect).jobs, ClaimantAfter(s.claimant, x, effect))
  {
    GuardsAllow(s, x, effect);
    OwnersAfterMove(s.agents, x, s.store, StoreAfter(s.store, effect), effect.job,
                    s.claimant, ClaimantAfter(s.claimant, x, effect));
  }

  lemma MoveKeeps(s: State, x: nat, effect: Effect)
    requires StatusInvExcept(s, x) && Guarded(s, x, effect) && OnStore(effect) && !effect.CreateJob?
    ensures StatusInvExcept(Perform(s, x, effect), x)
    ensures PathsHold(Perform(s, x, effect).history) <==> PathsHold(s.history) && !Overwriting(s, effect)
  {
    MoveKeepsHistories(s, x, effect);
    MoveKeepsPaths(s, x, effect);
    MoveKeepsClaims(s, x, effect);
    MoveKeepsOwners(s, x, effect);
  }

  lemma EffectKeeps(s: State, x: nat, effect: Effect)
    requires StatusInvExcept(s, x) && Guarded(s, x, effect)
    ensures StatusInvExcept(Perform(s, x, effect), x)
    ensures PathsHold(Perform(s, x, effect).history) <==> PathsHold(s.history) && !Overwriting(s, effect)
  {
    if effect.CreateJob? {
      CreateKeeps(s, x, effect.job, effect.spec);
    } else if OnStore(effect) {
      MoveKeeps(s, x, effect);
    }
  }

  // ---- moves -----------------------------------------------------------------------------------------

  /** An owner's store effects are guarded by its ownership, anybody else's by the tables. */
  lemma MoveIsGuarded(s: State, x: nat, pc: Pc, env: Env)
    requires Owns(x, pc, s.store.jobs, s.claimant)
    ensures Guarded(s, x, AgentMove(s, pc, env).effect)
  {
  }

  /** A move that still owns a job afterwards owned it before or has claimed it, and has done nothing else to the store. */
  lemma MoveOwns(s: State, pc: Pc, env: Env)
    ensures var move := AgentMove(s, pc, env);
            PcOwned(move.next).Some? ==>
              || (move.effect == ClaimJob(PcOwned(move.next).value) && !InHandler(move.next))
              || (PcOwned(move.next) == PcOwned(pc) && !OnStore(move.effect) && (InHandler(pc) ==> InHandler(move.next)))
  {
  }

  /** A call that raises leaves the worker in the handler, or without a job. */
  lemma RaiseOwns(s: State, pc: Pc, env: Env)
    requires CallRaises(pc, env)
    ensures var next := AgentMove(s, pc, env).next;
            PcOwned(next).Some? ==> PcOwned(next) == PcOwned(pc) && InHandler(next) && !pc.FailMark?
  {
  }

  /** The only effect on a job that its owner may have and still own it is a `mark_succeeded` that raises. */
  lemma OwnerEffects(s: State, pc: Pc, env: Env)
    requires PcOwned(pc).Some? && OnStore(AgentMove(s, pc, env).effect)
    ensures var effect := AgentMove(s, pc, env).effect;
            effect.job == PcOwned(pc).value && (if pc.FailMark? then effect.MarkError? else effect.MarkDone?)
  {
  }

  lemma WholeKeepsOwner(s: State, a: Action)
    requires StatusInv(s) && Enabled(s, a)
    ensures Guarded(s, a.x, MoveOf(s, a).effect)
    ensures var move := MoveOf(s, a);
            Owns(a.x, move.next, StoreAfter(s.store, move.effect).jobs, ClaimantAfter(s.claimant, a.x, move.effect))
  {
    assert Owns(a.x, s.agents[a.x], s.store.jobs, s.claimant);
    if a.Go? {
      MoveIsGuarded(s, a.x, s.agents[a.x], a.env);
      MoveOwns(s, s.agents[a.x], a.env);
    }
  }

  lemma TornKeepsOwner(s: State, x: nat, done: Env, raised: Env)
    requires StatusInv(s) && WideEnabled(s, Torn(x, done, raised))
    ensures var move := WideMove(s, Torn(x, done, raised));
            && Guarded(s, x, move.effect)
            && Owns(x, move.next, StoreAfter(s.store, move.effect).jobs, ClaimantAfter(s.claimant, x, move.effect))
  {
    var pc := s.agents[x];
    assert Owns(x, pc, s.store.jobs, s.claimant);
    MoveIsGuarded(s, x, pc, done);
    RaiseOwns(s, pc, raised);
    if PcOwned(pc).Some? && OnStore(AgentMove(s, pc, done).effect) {
      OwnerEffects(s, pc, done);
    }
  }

  lemma ActorKeepsOwner(s: State, w: WideAction)
    requires StatusInv(s) && WideEnabled(s, w)
    ensures var move := WideMove(s, w);
            && Guarded(s, Actor(w), move.effect)
            && Owns(Actor(w), move.next, StoreAfter(s.store, move.effect).jobs,
                    ClaimantAfter(s.claimant, Actor(w), move.effect))
  {
    match w
    case Whole(a) => WholeKeepsOwner(s, a);
    case Torn(x, done, raised) => TornKeepsOwner(s, x, done, raised);
    case TornCreate(_, _, _) =>
    case TornCancel(_) =>
  }

  /** Every step keeps the invariant, and the paths exactly if it does not overwrite a success. */
  lemma WideStepKeeps(s: State, w: WideAction)
    requires StatusInv(s) && WideEnabled(s, w)
    ensures StatusInv(WideStep(s, w))
    ensures PathsHold(WideStep(s, w).history) <==> PathsHold(s.history) && !Overwrites(s, w)
  {
    ActorKeepsOwner(s, w);
    EffectKeeps(s, Actor(w), WideMove(s, w).effect);
  }

  lemma {:induction false} WideRunInv(states: seq<State>, actions: seq<WideAction>, n: nat)
    requires WideRun(states, actions) && n <= |actions|
    ensures StatusInv(states[n])
    ensures PathsHold(states[n].history) <==> forall i :: 0 <= i < n ==> !Overwrites(states[i], actions[i])
  {
    if n > 0 {
      WideRunInv(states, actions, n - 1);
      assert Follows(states[n - 1], actions[n - 1], states[n]);
      WideStepKeeps(states[n - 1], actions[n - 1]);
    }
  }

  // ---- what is seen --------------------------------------------------------------------------------------

  lemma WideStepObserves(s: State, w: WideAction)
    requires StatusInv(s) && WideEnabled(s, w)
    ensures WideStep(s, w).history == Observe(s.history, s.store, WideStep(s, w).store)
  {
    if !OnStore(WideMove(s, w).effect) {
      assert Observe(s.history, s.store, s.store) == s.history;
    }
  }

  lemma {:induction false} WideHistoryIsSeen(states: seq<State>, actions: seq<WideAction>, n: nat, j: JobId)
    requires WideRun(states, actions) && n <= |actions| && j in states[n].store.jobs
    ensures j in states[n].history && states[n].history[j] == StatusesSeen(states, n, j)
  {
    WideRunInv(states, actions, n);
    if n > 0 {
      WideRunInv(states, actions, n - 1);
      assert Follows(states[n - 1], actions[n - 1], states[n]);
      WideStepObserves(states[n - 1], actions[n - 1]);
      if j in states[n - 1].store.jobs {
        WideHistoryIsSeen(states, actions, n - 1, j);
      }
    }
  }

  /** The statuses that every job is seen in form a path of the state machine. */
  ghost predicate StatusesArePaths(states: seq<State>, n: nat)
    requires n < |states|
  {
    forall j :: j in states[n].store.jobs ==> IsPath(StatusesSeen(states, n, j))
  }

  /**
   * In every run with torn calls, the statuses that every job is seen in form a path of the state machine exactly when no
   * `mark_failed` has been carried out on a job that was SUCCEEDED.
   */
  lemma StatusesArePathsIff(states: seq<State>, actions: seq<WideAction>, n: nat)
    requires WideRun(states, actions) && n <= |actions|
    ensures StatusesArePaths(states, n) <==> forall i :: 0 <= i < n ==> !Overwrites(states[i], actions[i])
  {
    WideRunInv(states, actions, n);
    forall j | j in states[n].store.jobs ensures j in states[n].history && states[n].history[j] == StatusesSeen(states, n, j) {
      WideHistoryIsSeen(states, actions, n, j);
    }
  }

  // ---- where an overwritten success comes from -----------------------------------------------------------

  /** The worker's `mark_succeeded` raises although it has been carried out, or may have been. */
  predicate TearsMark(s: State, w: WideAction) {
    w.Torn? && w.x in s.agents && s.agents[w.x].Completed?
  }

  ghost predicate NoSuccessOwned(agents: map<nat, Pc>, away: set<nat>, jobs: map<JobId, Job>) {
    forall x :: x in agents && x !in away && PcOwned(agents[x]).Some? ==> !Succeeds(jobs, PcOwned(agents[x]).value)
  }

  predicate Succeeds(jobs: map<JobId, Job>, j: JobId) {
    j in jobs && jobs[j].status == Succeeded
  }

  lemma OthersOwnNoSuccess(s: State, x: nat, effect: Effect)
    requires StatusInvExcept(s, x) && Guarded(s, x, effect) && NoSuccessOwned(s.agents, {x}, s.store.jobs)
    ensures NoSuccessOwned(s.agents, {x}, StoreAfter(s.store, effect).jobs)
  {
    forall y | y in s.agents && y != x && PcOwned(s.agents[y]).Some?
      ensures !Succeeds(StoreAfter(s.store, effect).jobs, PcOwned(s.agents[y]).value)
    {
      assert Owns(y, s.agents[y], s.store.jobs, s.claimant);
    }
  }

  /** A worker that still owns a job has not marked it, unless its mark was torn. */
  lemma ActorOwnsNoSuccess(s: State, w: WideAction)
    requires StatusInv(s) && WideEnabled(s, w) && NoSuccessOwned(s.agents, {}, s.store.jobs) && !TearsMark(s, w)
    ensures var move := WideMove(s, w);
            PcOwned(move.next).Some? ==> !Succeeds(StoreAfter(s.store, move.effect).jobs, PcOwned(move.next).value)
  {
    var x := Actor(w);
    assert Owns(x, s.agents[x], s.store.jobs, s.claimant);
    match w
    case Whole(a) =>
      if a.Go? {
        MoveOwns(s, s.agents[x], a.env);
      }
    case Torn(_, done, raised) =>
      RaiseOwns(s, s.agents[x], raised);
      if PcOwned(s.agents[x]).Some? && OnStore(AgentMove(s, s.agents[x], done).effect) {
        OwnerEffects(s, s.agents[x], done);
        MarkNeedsCompleted(s, s.agents[x], done);
      }
    case TornCreate(_, _, _) =>
    case TornCancel(_) =>
  }

  lemma MarkNeedsCompleted(s: State, pc: Pc, env: Env)
    ensures AgentMove(s, pc, env).effect.MarkDone? ==> pc.Completed?
  {
  }

  lemma {:induction false} NoSuccessIsOwned(states: seq<State>, actions: seq<WideAction>, n: nat)
    requires WideRun(states, actions) && n <= |actions|
    requires forall i :: 0 <= i < n ==> !TearsMark(states[i], actions[i])
    ensures NoSuccessOwned(states[n].agents, {}, states[n].store.jobs)
  {
    if n > 0 {
      var s, w := states[n - 1], actions[n - 1];
      NoSuccessIsOwned(states, actions, n - 1);
      WideRunInv(states, actions, n - 1);
      assert Follows(s, w, states[n]);
      ActorKeepsOwner(s, w);
      OthersOwnNoSuccess(s, Actor(w), WideMove(s, w).effect);
      ActorOwnsNoSuccess(s, w);
    }
  }

  lemma OverwriteNeedsOwnedSuccess(s: State, w: WideAction)
    requires NoSuccessOwned(s.agents, {}, s.store.jobs)
    ensures !Overwrites(s, w)
  {
  }

  /** Any other torn call is harmless to the state machine: without a torn `mark_succeeded` all statuses are paths. */
  lemma OtherTornCallsKeepPaths(states: seq<State>, actions: seq<WideAction>, n: nat)
    requires WideRun(states, actions) && n <= |actions|
    requires forall i :: 0 <= i < n ==> !TearsMark(states[i], actions[i])
    ensures StatusesArePaths(states, n)
  {
    forall i | 0 <= i < n ensures !Overwrites(states[i], actions[i]) {
      NoSuccessIsOwned(states, actions, i);
      OverwriteNeedsOwnedSuccess(states[i], actions[i]);
    }
    StatusesArePathsIff(states, actions, n);
  }

  // ---- runs that overwrite a success -------------------------------------------------------------------------

  const SPEC := JobSpec("user", "project", "key", "model", "input")
  const LOST := Error("ConnectionError", "connection lost")
  const USED := Usage(1, 1, 2)

  /** Every call succeeds. */
  const SMOOTH := Env(Ok(()), Ok(()), Ok(true), Ok(()), Ok(()), Ok(1), Ok(()), Ok("answer"), Ok(USED), Ok(()), Ok(()),
                      Ok(()), Ok(()))

  lemma LinkedExtends(states: seq<State>, actions: seq<WideAction>, follows: Relation, w: WideAction, t: State)
    requires Linked(states, actions, follows) && follows(states[|actions|], w, t)
    ensures Linked(states + [t], actions + [w], follows)
  {
  }

  lemma WideExtend(states: seq<State>, actions: seq<WideAction>, w: WideAction)
    returns (longer: seq<State>, more: seq<WideAction>)
    requires WideRun(states, actions) && WideEnabled(states[|actions|], w)
    ensures WideRun(longer, more) && |more| == |actions| + 1
    ensures longer[|actions|] == states[|actions|] && more[|actions|] == w
    ensures longer[|more|] == WideStep(states[|actions|], w)
  {
    longer := states + [WideStep(states[|actions|], w)];
    more := actions + [w];
    LinkedExtends(states, actions, Follows, w, WideStep(states[|actions|], w));
  }

  /** Worker `x` stands at `pc`, and job `j` has this status. */
  ghost predicate Stands(s: State, x: nat, pc: Pc, j: JobId, status: Status) {
    x in s.agents && s.agents[x] == pc && HasStatus(s.store, j, status)
  }

  /** The worker's success is carried out, but the worker ends up in its handler. */
  lemma LosesConnection(states: seq<State>, actions: seq<WideAction>, x: nat)
    returns (longer: seq<State>, more: seq<WideAction>)
    requires WideRun(states, actions) && x in states[|actions|].agents && states[|actions|].agents[x].Completed?
    requires HasStatus(states[|actions|].store, states[|actions|].agents[x].job, Running)
    ensures var pc := states[|actions|].agents[x];
            && WideRun(longer, more)
            && Stands(longer[|more|], x, FailAudit(pc.job, Some(pc.lease), Some(pc.audit), LOST), pc.job, Succeeded)
  {
    var pc := states[|actions|].agents[x];
    longer, more := WideExtend(states, actions, Torn(x, SMOOTH, SMOOTH.(markSucceeded := Raise(LOST))));
    assert Stands(longer[|more|], x, FailTokens(pc.job, Some(pc.lease), Some(pc.audit), LOST), pc.job, Succeeded);
    longer, more := WideExtend(longer, more, Whole(Go(x, SMOOTH)));
  }

  lemma HandlerOverwrites(states: seq<State>, actions: seq<WideAction>, x: nat, pc: Pc)
    returns (longer: seq<State>, more: seq<WideAction>)
    requires WideRun(states, actions) && pc.FailAudit? && Stands(states[|actions|], x, pc, pc.job, Succeeded)
    ensures WideRun(longer, more) && |more| > 0
    ensures HasStatus(longer[|more| - 1].store, pc.job, Succeeded) && HasStatus(longer[|more|].store, pc.job, Failed)
    ensures Overwrites(longer[|more| - 1], more[|more| - 1])
  {
    longer, more := WideExtend(states, actions, Whole(Go(x, SMOOTH)));
    assert Stands(longer[|more|], x, FailMark(pc.job, pc.held, pc.error), pc.job, Succeeded);
    longer, more := WideExtend(longer, more, Whole(Go(x, SMOOTH)));
  }

  /**
   * Whenever a worker is about to mark its running job a success, losing the connection after the commit goes on to turn
   * the success into a failure, if the other calls succeed.
   */
  lemma TornMarkIsOverwritten(states: seq<State>, actions: seq<WideAction>, x: nat)
    returns (longer: seq<State>, more: seq<WideAction>)
    requires WideRun(states, actions) && x in states[|actions|].agents && states[|actions|].agents[x].Completed?
    requires HasStatus(states[|actions|].store, states[|actions|].agents[x].job, Running)
    ensures var j := states[|actions|].agents[x].job;
            && WideRun(longer, more) && |more| > 0
            && HasStatus(longer[|more| - 1].store, j, Succeeded) && HasStatus(longer[|more|].store, j, Failed)
            && Overwrites(longer[|more| - 1], more[|more| - 1])
  {
    var pc := states[|actions|].agents[x];
    longer, more := LosesConnection(states, actions, x);
    longer, more := HandlerOverwrites(longer, more, x, FailAudit(pc.job, Some(pc.lease), Some(pc.audit), LOST));
  }

  // ---- and workers do get there ----------------------------------------------------------------------------------

  function Beginning(): State {
    State(RedisList, EMPTY_STORE, [], [], [], map[0 := Idle(NotRun), 1 := SubmitIdle], map[], map[], map[], [])
  }

  lemma Submits() returns (states: seq<State>, actions: seq<WideAction>)
    ensures WideRun(states, actions)
    ensures var s := states[|actions|];
            && Stands(s, 0, Idle(NotRun), 0, Queued) && 1 in s.agents && s.agents[1] == Enqueuing(0)
            && s.kind == RedisList && s.queue == [] && s.leases == [] && s.audits == []
  {
    states, actions := [Beginning()], [];
    states, actions := WideExtend(states, actions, Whole(Submit(1, 0, SPEC)));
  }

  lemma Enqueues() returns (states: seq<State>, actions: seq<WideAction>)
    ensures WideRun(states, actions)
    ensures var s := states[|actions|];
            Stands(s, 0, Idle(NotRun), 0, Queued) && s.queue == [0] && s.leases == [] && s.audits == []
  {
    states, actions := Submits();
    states, actions := WideExtend(states, actions, Whole(Go(1, SMOOTH)));
  }

  /** Worker 0 makes its next call, which succeeds. */
  lemma Works(states: seq<State>, actions: seq<WideAction>, pc: Pc, effect: Effect, next: Pc)
    returns (longer: seq<State>, more: seq<WideAction>)
    requires WideRun(states, actions) && 0 in states[|actions|].agents && states[|actions|].agents[0] == pc && !pc.Crashed?
    requires AgentMove(states[|actions|], pc, SMOOTH) == Move(effect, next)
    ensures WideRun(longer, more)
    ensures var s, t := states[|actions|], longer[|more|];
            && 0 in t.agents && t.agents[0] == next && t.store == StoreAfter(s.store, effect)
            && t.leases == LeasesAfter(s.leases, 0, effect) && t.audits == AuditsAfter(s.audits, effect)
  {
    longer, more := WideExtend(states, actions, Whole(Go(0, SMOOTH)));
  }

  lemma Pops() returns (states: seq<State>, actions: seq<WideAction>)
    ensures WideRun(states, actions)
    ensures var s := states[|actions|]; Stands(s, 0, Ready(0), 0, Queued) && s.leases == [] && s.audits == []
  {
    states, actions := Enqueues();
    states, actions := Works(states, actions, Idle(NotRun), PopHead, Popped(0));
    states, actions := Works(states, actions, Popped(0), NoEffect, Fetched(0));
    states, actions := Works(states, actions, Fetched(0), NoEffect, Ready(0));
  }

  lemma Starts() returns (states: seq<State>, actions: seq<WideAction>)
    ensures WideRun(states, actions) && Stands(states[|actions|], 0, Audited(0, 0, 0), 0, Running)
  {
    states, actions := Pops();
    states, actions := Works(states, actions, Ready(0), ClaimJob(0), Claimed(0));
    states, actions := Works(states, actions, Claimed(0), GrantLease(1), Admitted(0, 0));
    states, actions := Works(states, actions, Admitted(0, 0), StartAudit(0, 0), Audited(0, 0, 0));
  }

  lemma Answers() returns (states: seq<State>, actions: seq<WideAction>)
    ensures WideRun(states, actions) && Stands(states[|actions|], 0, Completed(0, 0, 0, "answer", USED), 0, Running)
  {
    states, actions := Starts();
    states, actions := Works(states, actions, Audited(0, 0, 0), CallVllm(0), Responded(0, 0, 0, "answer"));
    states, actions := Works(states, actions, Responded(0, 0, 0, "answer"), FinalizeLease(0, 2, false),
                             Settled(0, 0, 0, "answer", USED));
    states, actions := Works(states, actions, Settled(0, 0, 0, "answer", USED), FinalizeAudit(0, CompletedFinal(USED)),
                             Completed(0, 0, 0, "answer", USED));
  }

  /** A run with one job, one worker and one torn `mark_succeeded`, in which a success becomes a failure. */
  lemma SuccessIsOverwritten() returns (states: seq<State>, actions: seq<WideAction>)
    ensures WideRun(states, actions) && |actions| > 0
    ensures HasStatus(states[|actions| - 1].store, 0, Succeeded) && HasStatus(states[|actions|].store, 0, Failed)
    ensures Overwrites(states[|actions| - 1], actions[|actions| - 1])
  {
    states, actions := Answers();
    states, actions := TornMarkIsOverwritten(states, actions, 0);
  }
}
