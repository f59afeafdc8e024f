/** The lab store: one row per lab, updated in place under an expected revision. */
module LabStore {
  import opened Common
  import opened LabModels

  predicate QueuedIn(records: map<string, LabRecord>, id: string) {
    id in records && records[id].state == Queued
  }

  class LabStore {
    var records: map<string, LabRecord>

    predicate Valid()
      reads this
    {
      forall id :: id in records ==> records[id].plan.labId == id
    }

    constructor ()
      ensures Valid() && records == map[]
    {
      records := map[];
    }

    method Create(record: LabRecord) returns (ok: bool)
      requires Valid()
      modifies this
      ensures Valid()
      ensures ok <==> record.plan.labId !in old(records)
      ensures records == if ok then old(records)[record.plan.labId := record] else old(records)
    {
      ok := record.plan.labId !in records;
      if ok {
        records := records[record.plan.labId := record];
      }
    }

    method Get(labId: string) returns (record: Option<LabRecord>)
      ensures record == if labId in records then Some(records[labId]) else None
    {
      record := if labId in records then Some(records[labId]) else None;
    }

    /** Guarded update: exactly one revision later than the row it replaces. */
    method Save(record: LabRecord, expectedRevision: nat) returns (ok: bool)
      requires Valid()
      modifies this
      ensures Valid()
      ensures ok <==> && record.revision == expectedRevision + 1
                      && record.plan.labId in old(records)
                      && old(records)[record.plan.labId].revision == expectedRevision
      ensures records == if ok then old(records)[record.plan.labId := record] else old(records)
    {
      ok := false;
      if record.revision == expectedRevision + 1 && record.plan.labId in records
         && records[record.plan.labId].revision == expectedRevision {
        records := records[record.plan.labId := record];
        ok := true;
      }
    }

    /** The queued run that has waited longest. */
    method OldestQueued() returns (oldest: Option<string>)
      ensures oldest.None? <==> forall id :: !QueuedIn(records, id)
      ensures oldest.Some? ==>
        && QueuedIn(records, oldest.value)
        && forall id :: QueuedIn(records, id) ==> records[oldest.value].updatedAt <= records[id].updatedAt
    {
      oldest := None;
      var rest := records.Keys;
      while rest != {}
        invariant rest <= records.Keys
        invariant oldest.None? ==> forall id :: QueuedIn(records, id) ==> id in rest
        invariant oldest.Some? ==>
          && QueuedIn(records, oldest.value)
          && forall id :: QueuedIn(records, id) && id !in rest ==>
              records[oldest.value].updatedAt <= records[id].updatedAt
      {
        var id :| id in rest;
        rest := rest - {id};
        if records[id].state == Queued && (oldest.None? || records[id].updatedAt < records[oldest.value].updatedAt) {
          oldest := Some(id);
        }
      }
    }

    /** Claim the oldest queued run for one worker, in one transaction. */
    method ClaimNext(now: int) returns (claimed: Option<LabRecord>)
      requires Valid()
      modifies this
      ensures Valid()
      ensures claimed.None? <==> forall id :: !QueuedIn(old(records), id)
      ensures claimed.None? ==> records == old(records)
      ensures claimed.Some? ==>
        var id := claimed.value.plan.labId;
        && QueuedIn(old(records), id)
        && claimed.value == Stamped(Claimed(old(records)[id], now), now)
        && records == old(records)[id := claimed.value]
        && forall other :: QueuedIn(old(records), other) ==> old(records)[id].updatedAt <= old(records)[other].updatedAt
    {
      var oldest := OldestQueued();
      if oldest.None? {
        return None;
      }
      var record := Stamped(Claimed(records[oldest.value], now), now);
      records := records[oldest.value := record];
      claimed := Some(record);
    }

    /** Ask a run to stop; an ended run stays as it is. */
    method RequestCancellation(labId: string, reason: string, now: int) returns (record: Option<LabRecord>)
      requires Valid()
      modifies this
      ensures Valid()
      ensures record.None? <==> labId !in old(records)
      ensures records ==
        if labId !in old(records) || old(records)[labId].IsTerminal() then old(records)
        else old(records)[labId := Stamped(WithCancellation(old(records)[labId], reason, now), now)]
      ensures record.Some? ==> record.value == records[labId]
      ensures record.Some? && !old(records)[labId].IsTerminal() ==>
        && record.value.cancellationRequested && record.value.cancellationReason == Some(reason)
        && record.value.state == if Unclaimed(old(records)[labId].state) then Cancelled else old(records)[labId].state
    {
      record := Get(labId);
      if record.None? || record.value.IsTerminal() {
        return;
      }
      var updated := Stamped(WithCancellation(record.value, reason, now), now);
      var ok := Save(updated, record.value.revision);
      record := Some(updated);
    }
  }
}
