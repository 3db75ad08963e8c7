/** The job state machine of the batch service (ALLOWED_TRANSITIONS). */
module BatchStatus {

  datatype Status = Queued | Running | Succeeded | Failed | Cancelled

  /** Membership in the table of allowed transitions. */
  predicate CanTransition(current: Status, target: Status) {
    match current
    case Queued => target == Running || target == Cancelled || target == Failed
    case Running => target == Succeeded || target == Failed || target == Cancelled
    case _ => false
  }

  predicate Terminal(status: Status) {
    status == Succeeded || status == Failed || status == Cancelled
  }

  /** A status history: every entry is an allowed successor of the one before it. */
  predicate IsPath(history: seq<Status>) {
    |history| < 2 ||
    (CanTransition(history[|history| - 2], history[|history| - 1]) && IsPath(history[..|history| - 1]))
  }

  /** How far along the state machine a status is; every transition moves forward. */
  function Stage(status: Status): nat {
    match status
    case Queued => 0
    case Running => 1
    case _ => 2
  }

  lemma {:induction false} PathAdvances(history: seq<Status>, i: nat, k: nat)
    requires IsPath(history) && i < k < |history|
    ensures Stage(history[i]) + (k - i) <= Stage(history[k])
    decreases |history|
  {
    var shorter := history[..|history| - 1];
    if k < |history| - 1 {
      PathAdvances(shorter, i, k);
    } else if i < k - 1 {
      PathAdvances(shorter, i, k - 1);
    }
  }

  /** A history has at most three entries, never repeats a status, and ends where it first becomes terminal. */
  lemma PathVisitsOnce(history: seq<Status>)
    requires IsPath(history)
    ensures |history| <= 3
    ensures forall i, k :: 0 <= i < k < |history| ==> history[i] != history[k]
    ensures forall i :: 0 <= i < |history| && Terminal(history[i]) ==> i == |history| - 1
  {
    forall i, k | 0 <= i < k < |history| ensures Stage(history[i]) + (k - i) <= Stage(history[k]) <= 2 {
      PathAdvances(history, i, k);
    }
    assert |history| - 1 > 0 ==> Stage(history[0]) + (|history| - 1) <= Stage(history[|history| - 1]);
    assert forall i :: 0 <= i < |history| - 1 ==> Stage(history[i]) < Stage(history[|history| - 1]);
  }

  /** A history is a path exactly when each neighbouring pair is an allowed transition. */
  lemma {:induction false} PathIffNeighbours(history: seq<Status>)
    ensures IsPath(history) <==> forall i :: 0 < i < |history| ==> CanTransition(history[i - 1], history[i])
  {
    if |history| >= 2 {
      var shorter := history[..|history| - 1];
      PathIffNeighbours(shorter);
      assert forall i :: 0 <= i < |shorter| ==> shorter[i] == history[i];
    }
  }
}
