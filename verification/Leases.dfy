/** An admission lease as its holder sees it: two flags that make settling it idempotent, and the effects it has had. */
module Leases {

  datatype LeaseEvent = TokensFinalized(released: int) | SlotReleased

  /** `holder` is who was granted the lease. */
  datatype Lease = Lease(reserved: int, finalized: bool, released: bool, log: seq<LeaseEvent>, holder: nat)

  function NewLease(reserved: int, holder: nat): Lease {
    Lease(reserved, false, false, [], holder)
  }

  /** The reserved tokens that finalizing gives back: none when the request used more than it reserved. */
  function Unused(reserved: int, actual: int, releaseAll: bool): nat {
    var unused := if releaseAll then reserved else reserved - actual;
    if unused <= 0 then 0 else unused
  }

  function FinalizeTokens(lease: Lease, actual: int, releaseAll: bool): Lease {
    if lease.finalized then lease
    else lease.(finalized := true, log := lease.log + [TokensFinalized(Unused(lease.reserved, actual, releaseAll))])
  }

  function ReleaseSlot(lease: Lease): Lease {
    if lease.released then lease else lease.(released := true, log := lease.log + [SlotReleased])
  }

  /** One token finalize took effect, then one slot release, and nothing else. */
  predicate FullySettled(lease: Lease) {
    && lease.finalized && lease.released
    && |lease.log| == 2 && lease.log[0].TokensFinalized? && lease.log[1] == SlotReleased
  }
}
