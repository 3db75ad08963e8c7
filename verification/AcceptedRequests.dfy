/** From the token plan through admission to the ledger: what an accepted request reserves and is charged. */
module AcceptedRequests {
  import opened Wrappers
  import opened Numbers
  import opened Admission
  import opened AdmissionLedger
  import opened TokenAccounting

  /**
   * Plans the request and admits it with the plan's total, as both the chat route and the batch worker do. A request that
   * exceeds a limit touches no counter. One that is admitted holds a reservation in Redis for no more than the limit on a
   * request, and not the kind that counts nothing unless the configured output limit is negative.
   */
  method PlanAndAdmit(service: AdmissionService, apiKey: string, messages: seq<Message>, maxTokens: Option<int>,
                      count: Estimator, caps: Caps)
    returns (lease: Outcome<AdmissionLease>)
    requires service.Valid() && (forall text :: count(text) >= 0)
    requires maxTokens.Some? ==> maxTokens.value > 0
    modifies service.redis
    ensures var prompt, output := PromptTokens(messages, count), RequestedOutput(maxTokens, caps);
            if output > caps.maxOutput || prompt > caps.maxInput || prompt + output > caps.maxTotal
            then lease.Raise? && service.redis.db == old(service.redis.db)
            else
              var verdict := VerdictOn(service.limits, old(service.redis.db), service.redis.now, service.redis.overload,
                                       apiKey, prompt + output);
              && (lease.Ok? <==> verdict == Verdict.Granted)
              && (lease.Ok? ==>
                    var tokens := lease.value.tokenReservation;
                    && !tokens.finalized
                    && tokens.redis == (if prompt + output > 0 then service.redis else null)
                    && tokens.reservedTokens == Max(prompt + output, 0) <= Max(caps.maxTotal, 0)
                    && (maxTokens.Some? || caps.maxOutput >= 0 ==>
                          tokens.redis == service.redis && 0 < tokens.reservedTokens <= caps.maxTotal))
  {
    var plan := BuildTokenPlan(messages, maxTokens, count, caps);
    if plan.Raise? {
      return Raise(plan.error);
    }
    AcceptedReservesTokens(plan.value, messages, maxTokens, count, caps);
    lease := service.Admit(apiKey, plan.value.estimatedTotalTokens);
  }

  // ---- runs in which every request was planned -------------------------------------------

  /** The total of a plan that a request has been accepted with. */
  ghost predicate IsPlannedTotal(total: int, count: Estimator, caps: Caps) {
    exists plan, messages, maxTokens: Option<int> ::
      Accepted(plan, messages, maxTokens, count, caps) && plan.estimatedTotalTokens == total
      && (if maxTokens.Some? then maxTokens.value > 0 else caps.maxOutput >= 0)
  }

  lemma PlannedTotalIsBounded(total: int, count: Estimator, caps: Caps)
    requires IsPlannedTotal(total, count, caps) && (forall text :: count(text) >= 0)
    ensures 0 < total <= caps.maxTotal
  {
    var plan, messages, maxTokens: Option<int> :|
      Accepted(plan, messages, maxTokens, count, caps) && plan.estimatedTotalTokens == total
      && (if maxTokens.Some? then maxTokens.value > 0 else caps.maxOutput >= 0);
    AcceptedReservesTokens(plan, messages, maxTokens, count, caps);
  }

  /** Every lease reserves something, and is charged no more than that, nor more than the limit on a request. */
  ghost predicate ChargesBounded(grants: seq<Grant>, maxTotal: int) {
    forall i :: 0 <= i < |grants| ==> 0 < grants[i].reserved <= maxTotal && grants[i].charge <= grants[i].reserved
  }

  lemma StepKeepsChargesBounded(limits: Limits, s: Ledger, e: Event, maxTotal: int)
    requires ChargesBounded(s.grants, maxTotal) && Enabled(s, e)
    requires e.Admit? ==> 0 < e.estimated <= maxTotal
    ensures ChargesBounded(Step(limits, s, e).grants, maxTotal)
  {
  }

  /**
   * When requests are admitted with the totals of accepted plans, then in every reachable state each lease has reserved
   * tokens, and what it is charged - open, finalized with any usage, or given back - is within the limit on a request.
   */
  lemma {:induction false} PlannedRequestsAreBounded(limits: Limits, states: seq<Ledger>, events: seq<Event>, n: nat,
                                                     count: Estimator, caps: Caps)
    requires Run(limits, states, events) && n <= |events| && (forall text :: count(text) >= 0)
    requires forall i :: 0 <= i < |events| && events[i].Admit? ==> IsPlannedTotal(events[i].estimated, count, caps)
    ensures forall i :: 0 <= i < |states[n].grants| ==>
              var g := states[n].grants[i];
              0 < g.reserved <= caps.maxTotal && g.charge <= g.reserved
  {
    if n > 0 {
      PlannedRequestsAreBounded(limits, states, events, n - 1, count, caps);
      var e := events[n - 1];
      if e.Admit? {
        PlannedTotalIsBounded(e.estimated, count, caps);
      }
      StepKeepsChargesBounded(limits, states[n - 1], e, caps.maxTotal);
    }
  }
}
