/** What holds in every run of the batch protocol. */
module BatchTheorems {
  import opened Wrappers
  import opened BatchStatus
  import opened Filters
  import opened BatchStore
  import opened AuditService
  import opened Leases
  import opened BatchProtocol
  import opened BatchInvariants

  lemma {:induction false} RunInv(states: seq<State>, actions: seq<Action>, i: nat)
    requires Run(states, actions) && i <= |actions|
    ensures Inv(states[i])
  {
    if i == 0 {
      InitInv(states[0]);
    } else {
      RunInv(states, actions, i - 1);
      StepKeepsInv(states[i - 1], actions[i - 1]);
    }
  }

  // ---- the store over a run ------------------------------------------------------------

  lemma UnnoticedEvolves(s: State, x: nat, effect: Effect)
    requires Unnoticed(s, x, effect)
    ensures StoreEvolves(s.store, StoreAfter(s.store, effect))
  {
  }

  /** Every step moves each job along the state machine, or not at all, and leaves terminal records as they are. */
  lemma StepEvolves(s: State, a: Action)
    requires Inv(s) && Enabled(s, a)
    ensures StoreEvolves(s.store, Step(s, a).store)
  {
    StepKeepsInv(s, a);
    UnnoticedEvolves(s, a.x, MoveOf(s, a).effect);
  }

  /** Job `j` is still there, has not moved back, and if it was terminal keeps its whole record. */
  ghost predicate Ages(before: Store, after: Store, j: JobId) {
    j in before.jobs ==>
      && j in after.jobs
      && Stage(before.jobs[j].status) <= Stage(after.jobs[j].status)
      && (Terminal(before.jobs[j].status) ==> after.jobs[j] == before.jobs[j])
  }

  lemma AgesOn(first: Store, before: Store, after: Store, j: JobId)
    requires Ages(first, before, j) && StoreEvolves(before, after)
    ensures Ages(first, after, j)
  {
  }

  lemma RunStepEvolves(states: seq<State>, actions: seq<Action>, i: nat)
    requires Run(states, actions) && i < |actions|
    ensures StoreEvolves(states[i].store, states[i + 1].store)
  {
    RunInv(states, actions, i);
    StepEvolves(states[i], actions[i]);
  }

  lemma {:induction false} StoresAge(stores: seq<Store>, i: nat, k: nat, j: JobId)
    requires i <= k < |stores|
    requires forall m :: 0 <= m < |stores| - 1 ==> StoreEvolves(stores[m], stores[m + 1])
    ensures Ages(stores[i], stores[k], j)
  {
    if i < k {
      StoresAge(stores, i, k - 1, j);
      AgesOn(stores[i], stores[k - 1], stores[k], j);
    }
  }

  /** Over any stretch of a run a job stays, never moves back, and once terminal keeps its whole record. */
  lemma RunEvolves(states: seq<State>, actions: seq<Action>, i: nat, k: nat, j: JobId)
    requires Run(states, actions) && i <= k <= |actions|
    ensures Ages(states[i].store, states[k].store, j)
  {
    var stores := seq(|states|, n requires 0 <= n < |states| => states[n].store);
    forall m | 0 <= m < |stores| - 1 ensures StoreEvolves(stores[m], stores[m + 1]) {
      RunStepEvolves(states, actions, m);
    }
    StoresAge(stores, i, k, j);
  }

  /** The i-th step of a run claims job `j`: it goes from QUEUED to RUNNING. */
  ghost predicate Claims(states: seq<State>, i: nat, j: JobId)
    requires i + 1 < |states|
  {
    && j in states[i].store.jobs && states[i].store.jobs[j].status == Queued
    && j in states[i + 1].store.jobs && states[i + 1].store.jobs[j].status == Running
  }

  /** No job is claimed twice, however many workers, duplicates, cancellers and crashes there are. */
  lemma ClaimedOnce(states: seq<State>, actions: seq<Action>, i: nat, k: nat, j: JobId)
    requires Run(states, actions) && i < |actions| && k < |actions|
    requires Claims(states, i, j) && Claims(states, k, j)
    ensures i == k
  {
    if i < k {
      RunEvolves(states, actions, i + 1, k, j);
    } else if k < i {
      RunEvolves(states, actions, k + 1, i, j);
    }
  }

  /** vLLM is called at most once for a job, and only for a job that was claimed. */
  lemma CalledOnce(states: seq<State>, actions: seq<Action>, i: nat, j: JobId)
    requires Run(states, actions) && i <= |actions|
    ensures multiset(states[i].calls)[j] <= 1
    ensures j in states[i].calls ==> exists m :: 0 <= m < i && Claims(states, m, j)
  {
    RunInv(states, actions, i);
    if j in states[i].calls {
      assert j in states[i].claimant;
      ClaimantClaimed(states, actions, i, j);
    }
  }

  lemma {:induction false} ClaimantClaimed(states: seq<State>, actions: seq<Action>, i: nat, j: JobId)
    requires Run(states, actions) && i <= |actions| && j in states[i].claimant
    ensures exists m :: 0 <= m < i && Claims(states, m, j)
  {
    if i > 0 {
      var s, a := states[i - 1], actions[i - 1];
      if j in s.claimant {
        ClaimantClaimed(states, actions, i - 1, j);
      } else {
        RunInv(states, actions, i - 1);
        ClaimantIsNew(s, a, j);
        assert Claims(states, i - 1, j);
      }
    }
  }

  lemma ClaimantIsNew(s: State, a: Action, j: JobId)
    requires Inv(s) && Enabled(s, a) && j !in s.claimant && j in Step(s, a).claimant
    ensures HasStatus(s.store, j, Queued) && HasStatus(Step(s, a).store, j, Running)
  {
    StepKeepsInv(s, a);
  }

  // ---- the order of creation ------------------------------------------------------------

  lemma StepOrders(s: State, a: Action)
    requires Enabled(s, a)
    ensures s.store.order <= Step(s, a).store.order
  {
  }

  lemma {:induction false} RunOrders(states: seq<State>, actions: seq<Action>, i: nat, k: nat)
    requires Run(states, actions) && i <= k <= |actions|
    ensures states[i].store.order <= states[k].store.order
  {
    if i < k {
      RunOrders(states, actions, i, k - 1);
      StepOrders(states[k - 1], actions[k - 1]);
    }
  }

  /** A job that was there before another was created is listed for recovery before it, as long as it is QUEUED. */
  lemma OlderIsListedFirst(states: seq<State>, actions: seq<Action>, i: nat, n: nat, limit: int, j: JobId, k: JobId)
    requires Run(states, actions) && i <= n <= |actions|
    requires j in states[i].store.jobs && k !in states[i].store.jobs
    requires HasStatus(states[n].store, j, Queued) && k in Recoverable(states[n].store, limit)
    ensures Ahead(Recoverable(states[n].store, limit), j, k)
  {
    RunInv(states, actions, i);
    RunInv(states, actions, n);
    RunOrders(states, actions, i, n);
    var store, ids := states[n].store, Recoverable(states[n].store, limit);
    RecoverableAreOldest(store, limit);
    var a :| 0 <= a < |states[i].store.order| && states[i].store.order[a] == j;
    var b :| 0 <= b < |store.order| && store.order[b] == k;
    assert store.order[a] == j && a < b;
    var q :| 0 <= q < |ids| && ids[q] == k;
    assert CreatedBefore(store, j, ids[q]);
  }

  // ---- status histories -----------------------------------------------------------------

  /** The statuses job `j` goes through up to state `i`, without repetitions. */
  ghost function StatusesSeen(states: seq<State>, i: nat, j: JobId): seq<Status>
    requires i < |states|
  {
    if j !in states[i].store.jobs then []
    else
      var status := states[i].store.jobs[j].status;
      if i == 0 || j !in states[i - 1].store.jobs then [status]
      else if status == states[i - 1].store.jobs[j].status then StatusesSeen(states, i - 1, j)
      else StatusesSeen(states, i - 1, j) + [status]
  }

  lemma {:induction false} HistoryIsWhatWasSeen(states: seq<State>, actions: seq<Action>, i: nat, j: JobId)
    requires Run(states, actions) && i <= |actions| && j in states[i].store.jobs
    ensures j in states[i].history && states[i].history[j] == StatusesSeen(states, i, j)
  {
    RunInv(states, actions, i);
    if i > 0 {
      RunInv(states, actions, i - 1);
      StepObserves(states[i - 1], actions[i - 1]);
      if j in states[i - 1].store.jobs {
        HistoryIsWhatWasSeen(states, actions, i - 1, j);
      }
    }
  }

  /** Every step records what it does to the store. */
  lemma StepObserves(s: State, a: Action)
    requires Inv(s) && Enabled(s, a)
    ensures Step(s, a).history == Observe(s.history, s.store, Step(s, a).store)
  {
    NothingObserved(s);
  }

  /** In every run each job's statuses form a path from QUEUED through the allowed transitions. */
  lemma HistoryIsPath(states: seq<State>, actions: seq<Action>, i: nat, j: JobId)
    requires Run(states, actions) && i <= |actions| && j in states[i].store.jobs
    ensures var seen := StatusesSeen(states, i, j);
            IsPath(seen) && 1 <= |seen| <= 3 && seen[0] == Queued && seen[|seen| - 1] == states[i].store.jobs[j].status
  {
    RunInv(states, actions, i);
    HistoryIsWhatWasSeen(states, actions, i, j);
    var s := states[i];
    assert PastAgrees(s.store.jobs[j], s.history[j], j in s.claimant);
    PathVisitsOnce(s.history[j]);
  }

  // ---- records, audits and leases ----------------------------------------------------------

  /** Counters, result, usage and error always say what the status says; a SUCCEEDED job's audit record
   *  carries its usage, and the lease it ran under gave back exactly the tokens that usage left unused.
   */
  lemma RecordsAgreeInRuns(states: seq<State>, actions: seq<Action>, i: nat, j: JobId)
    requires Run(states, actions) && i <= |actions| && j in states[i].store.jobs
    ensures var s := states[i]; var job := s.store.jobs[j];
            && (job.status == Succeeded <==> job.completedCount == 1)
            && (job.status == Succeeded <==> job.result.Some?)
            && (job.status == Succeeded <==> job.usage.Some?)
            && (job.status == Failed <==> job.failedCount == 1)
            && (job.status == Failed <==> job.errorCode.Some?)
            && 0 <= job.completedCount && 0 <= job.failedCount
            && job.completedCount + job.failedCount <= job.requestCount
            && (job.status == Succeeded ==>
                  exists a :: 0 <= a < |s.audits| && s.audits[a].job == j
                              && s.audits[a].final == Some(CompletedFinal(job.usage.value))
                              && s.audits[a].lease < |s.leases| && SettledAt(s.leases[s.audits[a].lease], job.usage.value))
  {
    RunInv(states, actions, i);
    var s := states[i];
    assert RecordAgrees(s.store.jobs[j]);
    if s.store.jobs[j].status == Succeeded {
      assert ChargedAs(s.auditOf, s.audits, s.leases, j, s.store.jobs[j].usage.value);
    }
  }

  /**
   * Whichever calls raised, a lease has had exactly one token finalize and then exactly one slot release by the time
   * its worker no longer holds it; before that the effects are a prefix of those two.
   */
  lemma SettledExactlyOnce(states: seq<State>, actions: seq<Action>, i: nat, l: nat)
    requires Run(states, actions) && i <= |actions| && l < |states[i].leases|
    ensures var s := states[i]; var lease := s.leases[l];
            && |lease.log| <= 2
            && (|lease.log| >= 1 ==> lease.log[0].TokensFinalized?)
            && (|lease.log| == 2 ==> lease.log[1] == SlotReleased)
            && ((forall x :: x in s.agents ==> PcLease(s.agents[x]) != Some(l)) ==> |lease.log| == 2)
  {
    RunInv(states, actions, i);
    var s := states[i];
    if !FullySettled(s.leases[l]) {
      var x := s.leases[l].holder;
      assert HolderInv(x, s.agents[x], s.leases);
    }
  }

  // ---- cancellation -------------------------------------------------------------------------

  /** `cancel` returns a terminal status, and the job keeps it and its whole record from then on. */
  lemma CancelReturnsTerminal(states: seq<State>, actions: seq<Action>, i: nat, k: nat, c: nat, j: JobId, status: Status)
    requires Run(states, actions) && i <= k <= |actions|
    requires c in states[i].agents && states[i].agents[c] == CancelReturned(j, status)
    ensures Terminal(status)
    ensures j in states[i].store.jobs && j in states[k].store.jobs
    ensures states[k].store.jobs[j] == states[i].store.jobs[j] && states[k].store.jobs[j].status == status
    ensures status == Cancelled ==> states[k].store.jobs[j].result == None
  {
    RunInv(states, actions, i);
    assert CancelInv(states[i].agents[c], states[i].store);
    RunEvolves(states, actions, i, k, j);
    assert RecordAgrees(states[i].store.jobs[j]);
  }

  /**
   * A `cancel` that nothing interrupts returns the terminal status of the job if it has one, and otherwise makes it
   * CANCELLED; it reports a job missing that is.
   */
  lemma CancelAlone(s: State, c: nat, j: JobId, env: Env)
    requires Enabled(s, StartCancel(c, j))
    ensures var t := Step(s, StartCancel(c, j));
            && t.store == s.store && c in t.agents
            && if j !in s.store.jobs then t.agents[c] == CancelIdle
               else if Terminal(s.store.jobs[j].status) then t.agents[c] == CancelReturned(j, s.store.jobs[j].status)
               else
                 && t.agents[c] == Cancelling(j)
                 && var done := Step(t, Go(c, env));
                    && c in done.agents && done.agents[c] == CancelReturned(j, Cancelled)
                    && HasStatus(done.store, j, Cancelled)
                    && (forall k :: k in s.store.jobs && k != j ==> k in done.store.jobs && done.store.jobs[k] == s.store.jobs[k])
  {
  }

  /** Once `cancel` has seen the job, whatever happens in between, it does not report that there is no such job. */
  lemma CancelFindsTheJob(states: seq<State>, actions: seq<Action>, i: nat, c: nat, env: Env)
    requires Run(states, actions) && i < |actions| && actions[i] == Go(c, env)
    requires states[i].agents[c].Cancelling? || states[i].agents[c].Rereading?
    ensures c in states[i + 1].agents && !states[i + 1].agents[c].CancelIdle?
  {
    RunInv(states, actions, i);
    assert CancelInv(states[i].agents[c], states[i].store);
  }

  /** A job cancelled before any claim is never sent to vLLM. */
  lemma CancelledBeforeClaimIsNeverSent(states: seq<State>, actions: seq<Action>, i: nat, k: nat, j: JobId)
    requires Run(states, actions) && i <= |actions| && k <= |actions|
    requires j in states[i].store.jobs && states[i].store.jobs[j].status == Cancelled
    requires forall m :: 0 <= m < i ==> !Claims(states, m, j)
    ensures j !in states[k].calls
  {
    CalledOnce(states, actions, k, j);
    if j in states[k].calls {
      var m :| 0 <= m < k && Claims(states, m, j);
      RunEvolves(states, actions, i, m, j);
    }
  }

  // ---- no job is lost before its claim ---------------------------------------------------------

  /** Somebody will still bring the job to a worker: the queue, a worker that popped it, or its submitter. */
  ghost predicate Tracked(s: State, j: JobId) {
    j in s.queue || exists x :: x in s.agents && PcCarried(s.agents[x]) == Some(j)
  }

  /** The calls whose failure loses a job: a crash, or an exception between its pop and its claim or in its enqueue. */
  predicate LosesJob(s: State, a: Action, j: JobId) {
    a.x in s.agents && PcCarried(s.agents[a.x]) == Some(j) &&
    match a
    case Go(_, env) => (
      match s.agents[a.x]
      case Popped(_) => env.get.Raise?
      case Fetched(_) => env.shouldRun.Raise?
      case Ready(_) => env.claim.Raise?
      case _ => env.enqueue.Raise?)
    case Crash(_) => true
    case _ => false
  }

  /** An agent that carries `j` and does not lose it still carries it, has put it in the queue, or has claimed it. */
  lemma MoveKeepsJob(s: State, a: Action, j: JobId)
    requires Enabled(s, a) && PcCarried(s.agents[a.x]) == Some(j) && !LosesJob(s, a, j) && HasStatus(s.store, j, Queued)
    ensures var move := MoveOf(s, a);
            PcCarried(move.next) == Some(j) || move.effect == PushBack(j) || move.effect == ClaimJob(j)
  {
  }

  /** Only an idle worker takes from the queue, and it takes the head. */
  lemma PopsHead(s: State, a: Action)
    requires Enabled(s, a) && MoveOf(s, a).effect.PopHead?
    ensures s.queue != [] && MoveOf(s, a).next == Popped(s.queue[0])
  {
  }

  lemma OthersKeepTrack(s: State, t: State, x: nat, move: Move, j: JobId)
    requires Tracked(s, j) && x in s.agents && PcCarried(s.agents[x]) != Some(j)
    requires t.agents == s.agents[x := move.next]
    requires if move.effect.PopHead? then s.queue != [] && t.queue == s.queue[1..] && move.next == Popped(s.queue[0])
             else s.queue <= t.queue
    ensures Tracked(t, j)
  {
    if j in s.queue {
      if j !in t.queue {
        assert s.queue == [s.queue[0]] + s.queue[1..];
        assert PcCarried(t.agents[x]) == Some(j);
      }
    } else {
      var y :| y in s.agents && PcCarried(s.agents[y]) == Some(j);
      assert t.agents[y] == s.agents[y];
    }
  }

  lemma StepKeepsTrack(s: State, a: Action, j: JobId)
    requires Enabled(s, a) && Tracked(s, j) && !LosesJob(s, a, j) && HasStatus(s.store, j, Queued)
    ensures Tracked(Step(s, a), j) || HasStatus(Step(s, a).store, j, Running)
  {
    var move := MoveOf(s, a);
    if PcCarried(s.agents[a.x]) == Some(j) {
      MoveKeepsJob(s, a, j);
      if PcCarried(move.next) == Some(j) {
        assert PcCarried(Step(s, a).agents[a.x]) == Some(j);
      }
    } else {
      if move.effect.PopHead? {
        PopsHead(s, a);
      }
      OthersKeepTrack(s, Step(s, a), a.x, move, j);
    }
  }

  lemma NewJobIsTracked(s: State, a: Action, j: JobId)
    requires Enabled(s, a) && j !in s.store.jobs && j in Step(s, a).store.jobs
    ensures Tracked(Step(s, a), j)
  {
    assert MoveOf(s, a).effect.CreateJob?;
    assert Step(s, a).agents[a.x] == Enqueuing(j);
  }

  /** A QUEUED job that nobody will bring to a worker was lost by one of those failures. */
  lemma {:induction false} NoJobLost(states: seq<State>, actions: seq<Action>, i: nat, j: JobId)
    requires Run(states, actions) && i <= |actions|
    requires j in states[i].store.jobs && states[i].store.jobs[j].status == Queued
    ensures Tracked(states[i], j) || exists m :: 0 <= m < i && LosesJob(states[m], actions[m], j)
  {
    if i > 0 && !LosesJob(states[i - 1], actions[i - 1], j) {
      var s, a := states[i - 1], actions[i - 1];
      if j !in s.store.jobs {
        NewJobIsTracked(s, a, j);
      } else {
        RunEvolves(states, actions, i - 1, i, j);
        NoJobLost(states, actions, i - 1, j);
        if Tracked(s, j) {
          StepKeepsTrack(s, a, j);
        }
      }
    }
  }
}
