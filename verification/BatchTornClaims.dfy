/** What torn calls do not cost: a job is still claimed at most once, and vLLM is still called for it at most once. */
module BatchTornClaims {
  import opened BatchStatus
  import opened BatchStore
  import opened BatchProtocol
  import opened BatchInvariants
  import opened BatchTheorems
  import opened BatchTornCalls

  // ---- claims --------------------------------------------------------------------------

  ghost predicate HasLeftQueue(store: Store, j: JobId) {
    j in store.jobs && store.jobs[j].status != Queued
  }

  lemma EffectLeavesQueue(s: State, x: nat, effect: Effect, j: JobId)
    requires Guarded(s, x, effect) && HasLeftQueue(s.store, j)
    ensures HasLeftQueue(StoreAfter(s.store, effect), j)
  {
    if OnStore(effect) && !effect.CreateJob? {
      GuardsAllow(s, x, effect);
    }
  }

  lemma StepLeavesQueue(s: State, w: WideAction, j: JobId)
    requires StatusInv(s) && WideEnabled(s, w) && HasLeftQueue(s.store, j)
    ensures HasLeftQueue(WideStep(s, w).store, j)
  {
    ActorKeepsOwner(s, w);
    EffectLeavesQueue(s, Actor(w), WideMove(s, w).effect, j);
  }

  lemma RunStepLeavesQueue(states: seq<State>, actions: seq<WideAction>, m: nat, j: JobId)
    requires WideRun(states, actions) && m < |actions| && HasLeftQueue(states[m].store, j)
    ensures HasLeftQueue(states[m + 1].store, j)
  {
    WideRunInv(states, actions, m);
    assert Follows(states[m], actions[m], states[m + 1]);
    StepLeavesQueue(states[m], actions[m], j);
  }

  /** A job that is no longer QUEUED never is again. */
  lemma {:induction false} NeverQueuedAgain(states: seq<State>, actions: seq<WideAction>, i: nat, k: nat, j: JobId)
    requires WideRun(states, actions) && i <= k <= |actions| && HasLeftQueue(states[i].store, j)
    ensures HasLeftQueue(states[k].store, j)
  {
    if i < k {
      NeverQueuedAgain(states, actions, i, k - 1, j);
      RunStepLeavesQueue(states, actions, k - 1, j);
    }
  }

  /** Whichever calls are torn, no job is claimed twice. */
  lemma ClaimedOnce(states: seq<State>, actions: seq<WideAction>, i: nat, k: nat, j: JobId)
    requires WideRun(states, actions) && i < |actions| && k < |actions|
    requires Claims(states, i, j) && Claims(states, k, j)
    ensures i == k
  {
    if i < k {
      NeverQueuedAgain(states, actions, i + 1, k, j);
    } else if k < i {
      NeverQueuedAgain(states, actions, k + 1, i, j);
    }
  }

  lemma NewClaimantClaims(s: State, w: WideAction, j: JobId)
    requires StatusInv(s) && WideEnabled(s, w) && j !in s.claimant && j in WideStep(s, w).claimant
    ensures HasStatus(s.store, j, Queued) && HasStatus(WideStep(s, w).store, j, Running)
  {
    ActorKeepsOwner(s, w);
  }

  lemma {:induction false} ClaimantHasClaimed(states: seq<State>, actions: seq<WideAction>, i: nat, j: JobId)
    requires WideRun(states, actions) && i <= |actions| && j in states[i].claimant
    ensures exists m :: 0 <= m < i && Claims(states, m, j)
  {
    if i > 0 {
      var s, w := states[i - 1], actions[i - 1];
      assert Follows(s, w, states[i]);
      if j in s.claimant {
        ClaimantHasClaimed(states, actions, i - 1, j);
      } else {
        WideRunInv(states, actions, i - 1);
        NewClaimantClaims(s, w, j);
        assert Claims(states, i - 1, j);
      }
    }
  }

  // ---- vLLM calls -------------------------------------------------------------------------

  predicate BeforeCall(pc: Pc) {
    pc.Claimed? || pc.Admitted? || pc.Audited?
  }

  ghost predicate Uncalled(agents: map<nat, Pc>, away: set<nat>, calls: seq<JobId>) {
    forall x :: x in agents && x !in away && BeforeCall(agents[x]) ==> agents[x].job !in calls
  }

  /** A worker gets to its call by the claim, and does not stay there when it makes the call. */
  lemma CallIsPassed(s: State, w: WideAction)
    requires WideEnabled(s, w)
    ensures var pc := s.agents[Actor(w)]; var move := WideMove(s, w);
            && (BeforeCall(move.next) ==>
                  || move.effect == ClaimJob(move.next.job)
                  || (BeforeCall(pc) && move.next.job == pc.job && !move.effect.CallVllm?))
            && (move.effect.CallVllm? ==> BeforeCall(pc) && move.effect.job == pc.job)
  {
  }

  /** The others' jobs are not the one that is being called for. */
  lemma OthersAreUncalled(s: State, x: nat, j: JobId)
    requires OwnersAgree(s.agents, {x}, s.store.jobs, s.claimant) && Uncalled(s.agents, {x}, s.calls)
    requires j in s.claimant && s.claimant[j] == x
    ensures Uncalled(s.agents, {x}, s.calls + [j])
  {
    forall y | y in s.agents && y != x && BeforeCall(s.agents[y]) ensures s.agents[y].job !in s.calls + [j] {
      assert Owns(y, s.agents[y], s.store.jobs, s.claimant);
    }
  }

  lemma CallIsFirst(calls: seq<JobId>, claimant: map<JobId, nat>, j: JobId)
    requires CallsInv(calls, claimant) && j in claimant && j !in calls
    ensures CallsInv(calls + [j], claimant)
  {
    assert multiset(calls + [j]) == multiset(calls) + multiset{j};
    assert multiset(calls)[j] == 0;
  }

  ghost predicate CallsAgree(s: State, away: set<nat>) {
    CallsInv(s.calls, s.claimant) && Uncalled(s.agents, away, s.calls)
  }

  /** An effect that is guarded, and is a call only by an owner that has not made it yet. */
  lemma EffectKeepsCalls(s: State, x: nat, effect: Effect)
    requires OwnersAgree(s.agents, {x}, s.store.jobs, s.claimant) && CallsAgree(s, {x})
    requires effect.ClaimJob? ==> effect.job !in s.claimant
    requires effect.CallVllm? ==> effect.job in s.claimant && s.claimant[effect.job] == x && effect.job !in s.calls
    ensures CallsAgree(Perform(s, x, effect), {x})
  {
    if effect.CallVllm? {
      OthersAreUncalled(s, x, effect.job);
      CallIsFirst(s.calls, s.claimant, effect.job);
    }
  }

  lemma ClaimsUnclaimed(s: State, w: WideAction)
    requires StatusInv(s) && WideEnabled(s, w) && WideMove(s, w).effect.ClaimJob?
    ensures WideMove(s, w).effect.job !in s.claimant
  {
    ActorKeepsOwner(s, w);
  }

  lemma StepKeepsCalls(s: State, w: WideAction)
    requires StatusInv(s) && WideEnabled(s, w) && CallsAgree(s, {})
    ensures CallsAgree(WideStep(s, w), {})
  {
    var x, effect := Actor(w), WideMove(s, w).effect;
    CallIsPassed(s, w);
    if effect.ClaimJob? {
      ClaimsUnclaimed(s, w);
    }
    assert Owns(x, s.agents[x], s.store.jobs, s.claimant);
    EffectKeepsCalls(s, x, effect);
  }

  lemma {:induction false} CallsInRuns(states: seq<State>, actions: seq<WideAction>, n: nat)
    requires WideRun(states, actions) && n <= |actions|
    ensures CallsAgree(states[n], {})
  {
    if n > 0 {
      CallsInRuns(states, actions, n - 1);
      WideRunInv(states, actions, n - 1);
      assert Follows(states[n - 1], actions[n - 1], states[n]);
      StepKeepsCalls(states[n - 1], actions[n - 1]);
    }
  }

  /** Whichever calls are torn, vLLM is called at most once for a job, and only after a claim of it. */
  lemma CalledOnce(states: seq<State>, actions: seq<WideAction>, i: nat, j: JobId)
    requires WideRun(states, actions) && i <= |actions|
    ensures multiset(states[i].calls)[j] <= 1
    ensures j in states[i].calls ==> exists m :: 0 <= m < i && Claims(states, m, j)
  {
    CallsInRuns(states, actions, i);
    if j in states[i].calls {
      ClaimantHasClaimed(states, actions, i, j);
    }
  }

  /** Nor is it called for a job that was cancelled before any claim. */
  lemma CancelledBeforeClaimIsNeverSent(states: seq<State>, actions: seq<WideAction>, i: nat, k: nat, j: JobId)
    requires WideRun(states, actions) && i <= |actions| && k <= |actions|
    requires HasStatus(states[i].store, j, Cancelled)
    requires forall m :: 0 <= m < i ==> !Claims(states, m, j)
    ensures j !in states[k].calls
  {
    CalledOnce(states, actions, k, j);
    if j in states[k].calls {
      var m :| 0 <= m < k && Claims(states, m, j);
      NeverQueuedAgain(states, actions, i, m, j);
    }
  }
}
