/** Request audit records: started once per request, finalized by id. */
module AuditService {
  import opened Wrappers
  import opened BatchStore

  datatype AuditFinal = AuditFinal(status: string, usage: Usage, errorCode: Option<string>)

  function CompletedFinal(usage: Usage): AuditFinal {
    AuditFinal("completed", usage, None)
  }

  function FailedFinal(errorCode: string): AuditFinal {
    AuditFinal("failed", Usage(0, 0, 0), Some(errorCode))
  }

  /** `InMemoryAuditRecord`; the number n stands for the id "audit_n". */
  class InMemoryAuditRecord {
    const recordId: nat
    var final: Option<AuditFinal>

    constructor (recordId: nat)
      ensures this.recordId == recordId && final == None
    {
      this.recordId := recordId;
      final := None;
    }
  }

  class InMemoryRequestAuditService {
    var records: seq<InMemoryAuditRecord>

    /** Ids number the records from one, so they are distinct. */
    ghost predicate Valid()
      reads this, records
    {
      forall i :: 0 <= i < |records| ==> records[i].recordId == i + 1
    }

    /** What each record was finalized with. */
    ghost function Finals(): (finals: seq<Option<AuditFinal>>)
      reads this, records
      ensures |finals| == |records|
      ensures forall i :: 0 <= i < |records| ==> finals[i] == records[i].final
    {
      seq(|records|, i requires 0 <= i < |records| reads this, records => records[i].final)
    }

    constructor ()
      ensures Valid() && records == []
    {
      records := [];
    }

    method Start() returns (recordId: nat)
      requires Valid()
      modifies this
      ensures Valid()
      ensures |records| == |old(records)| + 1 && fresh(records[|old(records)|])
      ensures records[..|old(records)|] == old(records)
      ensures recordId == |old(records)| + 1
      ensures Finals() == old(Finals()) + [None]
    {
      recordId := |records| + 1;
      var record := new InMemoryAuditRecord(recordId);
      records := records + [record];
    }

    method Finalize(recordId: nat, final: AuditFinal)
      requires Valid()
      modifies records
      ensures Valid()
      ensures Finals() == if 1 <= recordId <= |records| then old(Finals())[recordId - 1 := Some(final)]
                          else old(Finals())
    {
      for i := 0 to |records|
        invariant forall k :: 0 <= k < i ==> records[k].recordId != recordId
        invariant Finals() == old(Finals())
      {
        if records[i].recordId == recordId {
          records[i].final := Some(final);
          return;
        }
      }
    }
  }
}
