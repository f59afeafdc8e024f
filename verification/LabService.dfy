/**
  The lab service: approval, queueing, cancellation, and the worker's bounded trial loop.

  The runner may return any outcome or fail, and operators may ask the run to stop between
  any two accesses of the worker to the store.
 */
module LabService {
  import opened Common
  import opened LabModels
  import opened LabStore

  /** How the protected part of the worker ends; a conflict is not caught by the worker. */
  datatype Ending = Ended(record: LabRecord) | Rejected | Conflict

  datatype Reply = NothingQueued | Finished(record: LabRecord) | Raised(labId: string)

  /** What can make the worker close a run by failure. */
  datatype Fault =
    | Unbound | Unprepared | Unrecorded | Uncleaned
    | RunnerRaised(n: nat) | TooLong(n: nat, elapsed: int) | OutOfTime(n: nat, at: int)

  /**
    What the worker has met so far: faults, readings of the clock before trials, answers of the
    runner, what clean-ups could verify, and refused saves.
   */
  datatype Seen = Seen(
    faults: seq<Fault>, readings: seq<int>, answers: seq<LabTrial>, cleanups: seq<bool>, refused: nat)

  /** The last moment before which trials of this run may start. */
  function DeadlineOf(row: LabRecord): int
    requires row.startedAt.Some?
  {
    row.startedAt.value + row.plan.totalTimeout
  }

  /** The fault can befall this run: its approval never fails the checks, and its limits are those of its plan. */
  predicate Real(row: LabRecord, fault: Fault) {
    match fault
    case Unbound => false
    case TooLong(_, elapsed) => elapsed > row.plan.perTrialTimeout
    case OutOfTime(_, at) => row.startedAt.Some? && at >= DeadlineOf(row)
    case _ => true
  }

  /** A reading before the deadline precedes every announced trial; stored trials are answers, in order. */
  ghost predicate Governed(before: Seen, after: Seen, row: LabRecord)
    requires row.startedAt.Some?
  {
    var n := |before.readings|;
    && before.readings <= after.readings && n + row.currentTrial <= |after.readings|
    && (forall k :: n <= k < n + row.currentTrial ==> after.readings[k] < DeadlineOf(row))
    && before.answers <= after.answers && row.progress.trials <= after.answers[|before.answers|..]
  }

  /** Trial `n` has read the clock at most once, in time if it was announced, and stored at most its own answer. */
  ghost predicate OneTrial(before: Seen, after: Seen, was: LabRecord, row: LabRecord, n: nat, deadline: int) {
    && (after.readings == before.readings
        || (|after.readings| == |before.readings| + 1 && before.readings <= after.readings))
    && (row.currentTrial == was.currentTrial
        || (row.currentTrial == n && |after.readings| == |before.readings| + 1
            && after.readings[|before.readings|] < deadline))
    && (after.answers == before.answers
        || (|after.answers| == |before.answers| + 1 && before.answers <= after.answers))
    && (row.progress.trials == was.progress.trials
        || (|after.answers| == |before.answers| + 1
            && row.progress.trials == was.progress.trials + [after.answers[|before.answers|]]))
  }

  lemma OneMoreTrial(
      first: Seen, before: Seen, after: Seen, was: LabRecord, row: LabRecord, n: nat, deadline: int)
    requires was.startedAt.Some? && row.startedAt == was.startedAt && row.plan == was.plan
    requires deadline == DeadlineOf(was)
    requires Governed(first, before, was) && OneTrial(before, after, was, row, n, deadline)
    requires was.currentTrial == n - 1 && |before.readings| == |first.readings| + n - 1
    requires was.progress.trials == before.answers[|first.answers|..]
    ensures Governed(first, after, row)
    ensures row.progress.trials != was.progress.trials ==> row.progress.trials == after.answers[|first.answers|..]
  {
    var a := |first.answers|;
    assert before.answers[a..] <= after.answers[a..];
    if |after.answers| == |before.answers| + 1 {
      assert after.answers == before.answers + [after.answers[|before.answers|]];
      assert after.answers[a..] == before.answers[a..] + [after.answers[|before.answers|]];
    }
  }

  lemma SameStart(a: Seen, b: Seen, after: Seen, row: LabRecord)
    requires a.readings == b.readings && a.answers == b.answers && row.startedAt.Some? && Governed(b, after, row)
    ensures Governed(a, after, row)
  {
  }

  lemma SameEnd(before: Seen, a: Seen, was: LabRecord, b: Seen, row: LabRecord)
    requires was.startedAt.Some? && row.startedAt == was.startedAt && row.plan == was.plan && Governed(before, a, was)
    requires a.readings == b.readings && a.answers == b.answers
    requires row.currentTrial == was.currentTrial && row.progress == was.progress
    ensures Governed(before, b, row)
  {
  }

  lemma NothingYet(before: Seen, after: Seen, row: LabRecord)
    requires row.startedAt.Some? && row.currentTrial == 0 && row.progress.trials == []
    requires after.readings == before.readings && after.answers == before.answers
    ensures Governed(before, after, row)
  {
  }

  /** `b` is `a`, possibly with requests to stop. */
  ghost predicate OnlyStops(a: LabRecord, b: LabRecord) {
    && b == a.(cancellationRequested := b.cancellationRequested, cancellationReason := b.cancellationReason,
               updatedAt := b.updatedAt, revision := b.revision)
    && a.revision <= b.revision
    && (a.revision == b.revision ==> a == b)
    && (a.cancellationRequested || a.revision < b.revision ==> b.cancellationRequested)
  }

  lemma StopsCompose(a: LabRecord, b: LabRecord, c: LabRecord)
    requires OnlyStops(a, b) && OnlyStops(b, c)
    ensures OnlyStops(a, c)
  {
  }

  lemma StoppedOrSame(a: LabRecord, b: LabRecord)
    requires OnlyStops(a, b)
    ensures if a.revision == b.revision then b == a else b != a && b.cancellationRequested
    ensures b.plan == a.plan && b.startedAt == a.startedAt
  {
  }

  /** What one trial means for the loop. */
  datatype TrialTurn = NextTrial | NoMoreTrials | Leave(ending: Ending)

  class LabService {
    const digest: LabPlan -> string
    const store: LabStore
    /** Whether the runner echoes number and variation and keeps to the maximum, as the synthetic one does. */
    const runnerEchoes: bool
    ghost var seen: Seen

    /** Every record is sound, and numbered if the runner does its part; plans carry one variation per trial. */
    ghost predicate RecordOk(r: LabRecord) {
      && Sound(digest, r) && |r.plan.variations| == r.plan.maximumTrials
      && (runnerEchoes ==> Numbered(r.plan, r.progress.trials))
    }

    ghost predicate Valid()
      reads this, store
    {
      store.Valid() && forall id :: id in store.records ==> RecordOk(store.records[id])
    }

    constructor (digest: LabPlan -> string, store: LabStore, runnerEchoes: bool)
      requires store.Valid() && store.records == map[]
      ensures this.digest == digest && this.store == store && this.runnerEchoes == runnerEchoes && Valid()
    {
      this.digest, this.store, this.runnerEchoes := digest, store, runnerEchoes;
      seen := Seen([], [], [], [], 0);
    }

    /** A worker has claimed this lab. */
    ghost predicate Taken(labId: string)
      reads this, store
    {
      Valid() && labId in store.records && !Unclaimed(store.records[labId].state)
    }

    /** Nothing but this lab's row has changed, and its plan has not. */
    twostate predicate OnlyThisRow(labId: string)
      reads this, store
    {
      && old(labId in store.records) && labId in store.records
      && store.records.Keys == old(store.records.Keys)
      && (forall other :: other in store.records && other != labId ==>
          store.records[other] == old(store.records[other]))
      && store.records[labId].plan == old(store.records)[labId].plan
      && (old(store.records)[labId].startedAt.Some? ==>
            store.records[labId].startedAt == old(store.records)[labId].startedAt)
    }

    /** Nothing has gone wrong. */
    twostate predicate Smooth()
      reads this
    {
      seen.faults == old(seen.faults) && seen.refused == old(seen.refused)
    }

    /** The record says of the clean-up what the last clean-up said. */
    ghost predicate CleanedAs(verified: bool)
      reads this
    {
      seen.cleanups != [] && seen.cleanups[|seen.cleanups| - 1] == verified
    }

    /** Exactly one thing has gone wrong, and it can befall this run. */
    twostate predicate OneFault(labId: string)
      requires labId in store.records
      reads this, store
    {
      && |seen.faults| == |old(seen.faults)| + 1 && old(seen.faults) <= seen.faults
      && Real(store.records[labId], seen.faults[|old(seen.faults)|]) && seen.refused == old(seen.refused)
    }

    /** A save was refused, because somebody asked the run to stop. */
    twostate predicate OneRefusal(labId: string)
      requires labId in store.records
      reads this, store
    {
      && old(seen.faults) <= seen.faults && seen.refused == old(seen.refused) + 1
      && store.records[labId].cancellationRequested
    }

    /** What an ending says about the stored row, and what brought it about. */
    twostate predicate Fits(labId: string, ending: Ending, states: set<LabState>)
      requires labId in store.records
      reads this, store
    {
      var row := store.records[labId];
      match ending
      case Ended(record) =>
        && record == row && row.state in states && (row.state == Cancelled ==> row.cancellationRequested)
        && Smooth() && CleanedAs(row.cleanupVerified)
      case Conflict => OneRefusal(labId) && seen.faults == old(seen.faults)
      case Rejected => OneFault(labId)
    }

    /** What a worker's answer says about the stored row, and what brought it about. */
    twostate predicate Answers(labId: string, reply: Reply)
      requires labId in store.records
      reads this, store
    {
      var row := store.records[labId];
      match reply
      case NothingQueued => true
      case Finished(record) =>
        && record == row && CleanedAs(row.cleanupVerified)
        && ((row.state == Completed && Smooth())
            || (row.state == Cancelled && row.cancellationRequested && Smooth())
            || (row.state == Failed && row.result == Some(FailedClosed) && OneFault(labId)))
      case Raised(id) =>
        && id == labId
        && (OneRefusal(labId)
            || (row.state == Failed && |seen.faults| == |old(seen.faults)| + 2 && old(seen.faults) <= seen.faults
                && Real(row, seen.faults[|old(seen.faults)|]) && seen.faults[|old(seen.faults)| + 1] == Unrecorded))
    }

    method Now() returns (now: int) {
      now := *;
    }

    method CreatePlan(draft: LabPlan, scenario: LabScenario, maximumTrials: int) returns (record: Option<LabRecord>)
      requires Valid()
      modifies store
      ensures Valid()
      ensures record.Some? <==>
        1 <= maximumTrials <= 10 && scenario.variations != [] && draft.labId !in old(store.records)
      ensures record.None? ==> store.records == old(store.records)
      ensures record.Some? ==>
        && record.value ==
            NewRecord(LabModels.CreatePlan(digest, draft, scenario, maximumTrials).value, record.value.updatedAt)
        && store.records == old(store.records)[draft.labId := record.value]
    {
      CreatedPlansAreSigned(digest, draft, scenario, maximumTrials);
      var plan := LabModels.CreatePlan(digest, draft, scenario, maximumTrials);
      if plan.None? {
        return None;
      }
      var now := Now();
      NewRecordIsSound(digest, plan.value, now);
      var created := NewRecord(plan.value, now);
      var ok := store.Create(created);
      record := if ok then Some(created) else None;
    }

    method Approve(labId: string, approvedBy: string) returns (record: Option<LabRecord>)
      requires Valid()
      modifies store
      ensures Valid()
      ensures record.Some? <==> labId in old(store.records) && MayApprove(digest, old(store.records)[labId], approvedBy)
      ensures record.None? ==> store.records == old(store.records)
      ensures record.Some? ==>
        && record.value.state == Approved && record.value.approvedBy == Some(approvedBy)
        && record.value.approvedPlanDigest == Some(Fingerprint(digest, record.value.plan))
        && record.value == Stamped(WithApproval(old(store.records)[labId], approvedBy), record.value.updatedAt)
        && store.records == old(store.records)[labId := record.value]
    {
      var found := store.Get(labId);
      if found.None? || !MayApprove(digest, found.value, approvedBy) {
        return None;
      }
      HumanSavesKeepSound(digest, found.value, approvedBy);
      var now := Now();
      var updated := Stamped(WithApproval(found.value, approvedBy), now);
      StampKeepsSound(digest, WithApproval(found.value, approvedBy), now);
      var ok := store.Save(updated, found.value.revision);
      record := Some(updated);
    }

    method QueueRun(labId: string, queuedBy: string) returns (record: Option<LabRecord>)
      requires Valid()
      modifies store
      ensures Valid()
      ensures record.Some? <==> labId in old(store.records) && old(store.records)[labId].state == Approved
      ensures record.None? ==> store.records == old(store.records)
      ensures record.Some? ==>
        && record.value.state == Queued && record.value.queuedBy == Some(queuedBy)
        && record.value == Stamped(WithQueuer(old(store.records)[labId], queuedBy), record.value.updatedAt)
        && store.records == old(store.records)[labId := record.value]
    {
      var found := store.Get(labId);
      if found.None? || !MayQueue(found.value) {
        return None;
      }
      HumanSavesKeepSound(digest, found.value, queuedBy);
      var now := Now();
      var updated := Stamped(WithQueuer(found.value, queuedBy), now);
      StampKeepsSound(digest, WithQueuer(found.value, queuedBy), now);
      var ok := store.Save(updated, found.value.revision);
      record := Some(updated);
    }

    method RequestCancel(labId: string, reason: string) returns (record: Option<LabRecord>)
      requires Valid()
      modifies store
      ensures Valid()
      ensures record.None? <==> labId !in old(store.records)
      ensures labId in old(store.records) ==> OnlyThisRow(labId) && record.value == store.records[labId]
      ensures labId in old(store.records) ==>
        var before, after := old(store.records)[labId], store.records[labId];
        if before.IsTerminal() then after == before
        else after.cancellationRequested && after.state == if Unclaimed(before.state) then Cancelled else before.state
      ensures labId in old(store.records) && !Unclaimed(old(store.records)[labId].state) ==>
        OnlyStops(old(store.records)[labId], store.records[labId])
      ensures labId !in old(store.records) ==> store.records == old(store.records)
    {
      var now := Now();
      if labId in store.records && !store.records[labId].IsTerminal() {
        CancellationKeepsSound(digest, store.records[labId], reason, now);
        StampKeepsSound(digest, WithCancellation(store.records[labId], reason, now), now);
      }
      record := store.RequestCancellation(labId, reason, now);
    }

    /** Any number of requests to stop arrive. */
    method Interfere(labId: string)
      requires Taken(labId)
      modifies store
      ensures Taken(labId) && OnlyThisRow(labId) && OnlyStops(old(store.records)[labId], store.records[labId])
    {
      ghost var first := store.records[labId];
      var reasons: seq<string> := *;
      for i := 0 to |reasons|
        invariant Taken(labId) && OnlyThisRow(labId) && OnlyStops(first, store.records[labId])
      {
        ghost var before := store.records[labId];
        var record := RequestCancel(labId, reasons[i]);
        StopsCompose(first, before, store.records[labId]);
      }
    }

    /** Read the worker's own row. */
    method Read(labId: string) returns (record: LabRecord)
      requires Taken(labId)
      modifies store
      ensures Taken(labId) && OnlyThisRow(labId) && OnlyStops(old(store.records)[labId], store.records[labId])
      ensures record == store.records[labId]
    {
      Interfere(labId);
      record := store.records[labId];
    }

    /** Save a changed copy of the row read last; a request to stop in between makes the save fail. */
    method Save(record: LabRecord, changed: LabRecord) returns (saved: Option<LabRecord>)
      requires Taken(record.plan.labId) && store.records[record.plan.labId] == record
      requires changed.plan == record.plan && changed.revision == record.revision && RecordOk(changed)
      requires record.startedAt == changed.startedAt
      modifies store, this`seen
      ensures Valid() && OnlyThisRow(record.plan.labId)
      ensures if saved.Some? then
                && saved.value == Stamped(changed, saved.value.updatedAt)
                && store.records[record.plan.labId] == saved.value && seen == old(seen)
              else
                && OnlyStops(record, store.records[record.plan.labId]) && store.records[record.plan.labId] != record
                && store.records[record.plan.labId].cancellationRequested
                && seen == old(seen).(refused := old(seen).refused + 1)
    {
      var labId := record.plan.labId;
      Interfere(labId);
      var now := Now();
      StampKeepsSound(digest, changed, now);
      var stamped := Stamped(changed, now);
      StoppedOrSame(record, store.records[labId]);
      var ok := Put(stamped, record.revision);
      if ok {
        return Some(stamped);
      }
      seen := seen.(refused := seen.refused + 1);
      saved := None;
    }

    /** Replace the row if it still has the given revision. */
    method Put(record: LabRecord, revision: nat) returns (ok: bool)
      requires Taken(record.plan.labId) && RecordOk(record) && record.revision == revision + 1
      requires store.records[record.plan.labId].plan == record.plan
      requires store.records[record.plan.labId].startedAt == record.startedAt
      modifies store
      ensures Valid() && OnlyThisRow(record.plan.labId)
      ensures ok <==> old(store.records)[record.plan.labId].revision == revision
      ensures store.records[record.plan.labId] == if ok then record else old(store.records)[record.plan.labId]
    {
      ok := store.Save(record, revision);
    }

    /** Events, the runner's preparation and the clean-up may fail whenever they like; that is the given fault. */
    method Succeeds(fault: Fault) returns (ok: bool)
      modifies this`seen
      ensures seen == if ok then old(seen) else old(seen).(faults := old(seen).faults + [fault])
    {
      ok := *;
      if !ok {
        seen := seen.(faults := seen.faults + [fault]);
      }
    }

    /** The worker's own checks, and the runner's preparation. */
    method Prepare(record: LabRecord) returns (ok: bool)
      modifies this`seen
      ensures ok ==> Bound(digest, record) && seen == old(seen)
      ensures !ok ==>
        seen == old(seen).(faults := old(seen).faults + [if Bound(digest, record) then Unprepared else Unbound])
    {
      ok := Bound(digest, record);
      if ok {
        ok := Succeeds(Unprepared);
      } else {
        seen := seen.(faults := seen.faults + [Unbound]);
      }
    }

    /** Read the clock before trial `n`. */
    method TimeLeft(n: nat, deadline: int) returns (ok: bool)
      modifies this`seen
      ensures |seen.readings| == |old(seen).readings| + 1
      ensures var at := seen.readings[|old(seen).readings|];
        && (ok <==> at < deadline)
        && seen == old(seen).(readings := old(seen).readings + [at],
                              faults := if ok then old(seen).faults else old(seen).faults + [OutOfTime(n, at)])
    {
      var now := Now();
      ok := now < deadline;
      seen := seen.(readings := seen.readings + [now]);
      if !ok {
        seen := seen.(faults := seen.faults + [OutOfTime(n, now)]);
      }
    }

    /** Queued, and no queued run has waited longer. */
    static ghost predicate OldestQueued(records: map<string, LabRecord>, id: string) {
      && QueuedIn(records, id)
      && forall other :: QueuedIn(records, other) ==> records[id].updatedAt <= records[other].updatedAt
    }

    /** Claim the run that has waited longest and carry it through. */
    method RunNext() returns (reply: Reply)
      requires Valid()
      modifies store, this`seen
      ensures Valid()
      ensures reply.NothingQueued? <==> forall id :: !QueuedIn(old(store.records), id)
      ensures reply.NothingQueued? ==> store.records == old(store.records) && seen == old(seen)
      ensures !reply.NothingQueued? ==>
        var id := if reply.Raised? then reply.labId else reply.record.plan.labId;
        && OldestQueued(old(store.records), id) && OnlyThisRow(id) && Taken(id)
        && Answers(id, reply)
        && store.records[id].startedAt.Some? && Governed(old(seen), seen, store.records[id])
      ensures Smooth() && !reply.NothingQueued? ==>
        reply.Finished? && (reply.record.cancellationRequested || reply.record.state == Completed)
    {
      var claimed := Claim();
      reply := NothingQueued;
      if claimed.Some? {
        reply := Execute(claimed.value);
      }
    }

    /** Claim the oldest queued run. */
    method Claim() returns (claimed: Option<LabRecord>)
      requires Valid()
      modifies store
      ensures Valid()
      ensures claimed.None? <==> forall id :: !QueuedIn(old(store.records), id)
      ensures claimed.None? ==> store.records == old(store.records)
      ensures claimed.Some? ==>
        var id := claimed.value.plan.labId;
        && OldestQueued(old(store.records), id) && OnlyThisRow(id) && Taken(id)
        && store.records[id] == claimed.value && claimed.value.state == Provisioning
    {
      var now := Now();
      claimed := store.ClaimNext(now);
      if claimed.Some? {
        ghost var labId := claimed.value.plan.labId;
        ClaimKeepsSound(digest, old(store.records)[labId], now);
        StampKeepsSound(digest, Claimed(old(store.records)[labId], now), now);
      }
    }

    method Execute(record: LabRecord) returns (reply: Reply)
      requires Taken(record.plan.labId) && store.records[record.plan.labId] == record && record.state == Provisioning
      modifies store, this`seen
      ensures Taken(record.plan.labId) && OnlyThisRow(record.plan.labId)
      ensures store.records[record.plan.labId].startedAt.Some?
      ensures Answers(record.plan.labId, reply) && Governed(old(seen), seen, store.records[record.plan.labId])
      ensures !reply.NothingQueued?
      ensures Smooth() ==> reply.Finished? && (reply.record.cancellationRequested || reply.record.state == Completed)
    {
      var ending := Attempt(record);
      match ending
      case Ended(ended) => reply := Finished(ended);
      case Conflict => reply := Raised(record.plan.labId);
      case Rejected => reply := FailClosed(record.plan.labId);
    }

    /** The protected part of the worker. */
    method Attempt(record: LabRecord) returns (ending: Ending)
      requires Taken(record.plan.labId) && store.records[record.plan.labId] == record && record.state == Provisioning
      modifies store, this`seen
      ensures Taken(record.plan.labId) && OnlyThisRow(record.plan.labId)
      ensures store.records[record.plan.labId].startedAt.Some?
      ensures Fits(record.plan.labId, ending, {Completed, Cancelled})
      ensures Governed(old(seen), seen, store.records[record.plan.labId])
    {
      var labId := record.plan.labId;
      var prepared := Prepare(record);
      NothingYet(old(seen), seen, record);
      if !prepared {
        return Rejected;
      }
      var running := StartRun(labId);
      NothingYet(old(seen), seen, store.records[labId]);
      if running.Leave? {
        return running.ending;
      }
      ghost var started := seen;
      ending := Conduct(labId, DeadlineOf(record));
      SameStart(old(seen), started, seen, store.records[labId]);
    }

    /** Run the trials, then evaluate, clean up and complete. */
    method Conduct(labId: string, deadline: int) returns (ending: Ending)
      requires Taken(labId) && BeforeTrial(store.records[labId], 1) && store.records[labId].startedAt.Some?
      requires deadline == DeadlineOf(store.records[labId])
      modifies store, this`seen
      ensures Taken(labId) && OnlyThisRow(labId) && store.records[labId].startedAt.Some?
      ensures Governed(old(seen), seen, store.records[labId])
      ensures Fits(labId, ending, {Completed, Cancelled})
    {
      var left := RunTrials(labId, deadline);
      if left.Some? {
        return left.value;
      }
      ghost var tried, was := seen, store.records[labId];
      ending := Consolidate(labId);
      SameEnd(old(seen), tried, was, seen, store.records[labId]);
    }

    /** Mark the run as running before its first trial. */
    method StartRun(labId: string) returns (turn: TrialTurn)
      requires Taken(labId) && store.records[labId].state == Provisioning
      modifies store, this`seen
      ensures Taken(labId) && OnlyThisRow(labId)
      ensures seen.readings == old(seen.readings) && seen.answers == old(seen.answers)
      ensures store.records[labId].currentTrial == 0 && store.records[labId].progress.trials == []
      ensures if turn.Leave? then Fits(labId, turn.ending, {}) else BeforeTrial(store.records[labId], 1) && Smooth()
    {
      var current := Read(labId);
      ClaimKeepsSound(digest, current, 0);
      var running := Save(current, WithState(current, Running));
      if running.None? {
        return Leave(Conflict);
      }
      var recorded := Succeeds(Unrecorded);
      turn := if recorded then NextTrial else Leave(Rejected);
    }

    /** The bounded trial loop; no answer means the trials are over. */
    method RunTrials(labId: string, deadline: int) returns (left: Option<Ending>)
      requires Taken(labId) && BeforeTrial(store.records[labId], 1) && store.records[labId].startedAt.Some?
      requires deadline == DeadlineOf(store.records[labId])
      modifies store, this`seen
      ensures Taken(labId) && OnlyThisRow(labId) && store.records[labId].startedAt.Some?
      ensures Governed(old(seen), seen, store.records[labId])
      ensures left.None? ==> AfterTrials(store.records[labId]) && Smooth()
      ensures left.Some? ==> Fits(labId, left.value, {Cancelled})
    {
      ghost var first, start := seen, store.records[labId].startedAt;
      var variations := store.records[labId].plan.variations;
      for n := 1 to |variations| + 1
        invariant Taken(labId) && OnlyThisRow(labId) && store.records[labId].plan.variations == variations
        invariant store.records[labId].startedAt == start && deadline == DeadlineOf(store.records[labId])
        invariant Governed(first, seen, store.records[labId]) && Smooth()
        invariant if n <= |variations| then BeforeTrial(store.records[labId], n) else AfterTrials(store.records[labId])
        invariant n <= |variations| ==> |seen.readings| == |first.readings| + n - 1
        invariant n <= |variations| ==> store.records[labId].progress.trials == seen.answers[|first.answers|..]
      {
        ghost var before, was := seen, store.records[labId];
        var turn := RunTrial(labId, n, deadline);
        OneMoreTrial(first, before, seen, was, store.records[labId], n, deadline);
        if turn.Leave? {
          return Some(turn.ending);
        }
        if turn.NoMoreTrials? {
          break;
        }
      }
      left := None;
    }

    /** One pass of the trial loop. */
    method RunTrial(labId: string, n: nat, deadline: int) returns (turn: TrialTurn)
      requires Taken(labId) && n >= 1 && BeforeTrial(store.records[labId], n) && store.records[labId].startedAt.Some?
      requires deadline == DeadlineOf(store.records[labId])
      modifies store, this`seen
      ensures Taken(labId) && OnlyThisRow(labId)
      ensures OneTrial(old(seen), seen, old(store.records[labId]), store.records[labId], n, deadline)
      ensures !turn.Leave? ==>
        && Smooth() && store.records[labId].currentTrial == n
        && |store.records[labId].progress.trials| == n && |seen.readings| == |old(seen.readings)| + 1
      ensures turn.NextTrial? ==>
        if n < |store.records[labId].plan.variations| then BeforeTrial(store.records[labId], n + 1)
        else AfterTrials(store.records[labId])
      ensures turn.NoMoreTrials? ==> AfterTrials(store.records[labId])
      ensures turn.Leave? ==> Fits(labId, turn.ending, {Cancelled})
    {
      var left := BeginTrial(labId, n, deadline);
      if left.Some? {
        return Leave(left.value);
      }
      var recorded := Succeeds(Unrecorded);
      if !recorded {
        return Leave(Rejected);
      }
      var trial := ExecuteTrial(store.records[labId].plan, n);
      if trial.None? {
        return Leave(Rejected);
      }
      turn := StoreTrial(labId, n, trial.value);
    }

    /** The checkpoint before each trial, and the save that announces it. */
    method BeginTrial(labId: string, n: nat, deadline: int) returns (left: Option<Ending>)
      requires Taken(labId) && n >= 1 && BeforeTrial(store.records[labId], n) && store.records[labId].startedAt.Some?
      requires deadline == DeadlineOf(store.records[labId])
      modifies store, this`seen
      ensures Taken(labId) && OnlyThisRow(labId) && seen.answers == old(seen.answers)
      ensures store.records[labId].progress == old(store.records[labId].progress)
      ensures OneTrial(old(seen), seen, old(store.records[labId]), store.records[labId], n, deadline)
      ensures left.None? ==>
        && InTrial(store.records[labId], n) && !store.records[labId].cancellationRequested && Smooth()
      ensures left.Some? ==> store.records[labId].currentTrial == n - 1 && Fits(labId, left.value, {Cancelled})
    {
      var current := Read(labId);
      if current.cancellationRequested {
        var ending := CancelDuringExecution(current);
        return Some(ending);
      }
      var early := TimeLeft(n, deadline);
      if !early {
        return Some(Rejected);
      }
      TrialBegunKeepsSound(digest, current, n);
      var begun := Save(current, WithTrialBegun(current, n));
      left := if begun.None? then Some(Conflict) else None;
    }

    /**
      The runner may answer anything or fail; what an echoing one answers fits the plan.  An
      answer that took too long counts as a failure.
     */
    method ExecuteTrial(plan: LabPlan, n: nat) returns (trial: Option<LabTrial>)
      requires 1 <= n <= |plan.variations| && |plan.variations| == plan.maximumTrials
      modifies this`seen
      ensures runnerEchoes && trial.Some? ==> Echoes(plan, n, trial.value)
      ensures trial.Some? ==>
        && trial.value.completedAt - trial.value.startedAt <= plan.perTrialTimeout
        && seen == old(seen).(answers := old(seen).answers + [trial.value])
      ensures trial.None? ==>
        || seen == old(seen).(faults := old(seen).faults + [RunnerRaised(n)])
        || exists t: LabTrial :: t.completedAt - t.startedAt > plan.perTrialTimeout
             && seen == old(seen).(answers := old(seen).answers + [t],
                                   faults := old(seen).faults + [TooLong(n, t.completedAt - t.startedAt)])
    {
      var answer: Option<LabTrial> := *;
      match answer
      case None =>
        seen := seen.(faults := seen.faults + [RunnerRaised(n)]);
        trial := None;
      case Some(t) =>
        var answered := if runnerEchoes then t.(number := n, variation := plan.variations[n - 1]) else t;
        seen := seen.(answers := seen.answers + [answered]);
        var elapsed := answered.completedAt - answered.startedAt;
        if elapsed > plan.perTrialTimeout {
          seen := seen.(faults := seen.faults + [TooLong(n, elapsed)]);
          trial := None;
        } else {
          trial := Some(answered);
        }
    }

    method StoreTrial(labId: string, n: nat, trial: LabTrial) returns (turn: TrialTurn)
      requires Taken(labId) && n >= 1 && InTrial(store.records[labId], n)
      requires runnerEchoes ==> Echoes(store.records[labId].plan, n, trial)
      modifies store, this`seen
      ensures Taken(labId) && OnlyThisRow(labId)
      ensures seen.readings == old(seen.readings) && seen.answers == old(seen.answers)
      ensures store.records[labId].currentTrial == n
      ensures store.records[labId].progress.trials
           in {old(store.records[labId].progress.trials), old(store.records[labId].progress.trials) + [trial]}
      ensures turn.Leave? ==> Fits(labId, turn.ending, {})
      ensures !turn.Leave? ==>
        Smooth() && store.records[labId].progress.trials == old(store.records[labId].progress.trials) + [trial]
      ensures turn.NextTrial? ==>
        if n < |store.records[labId].plan.variations| then BeforeTrial(store.records[labId], n + 1)
        else AfterTrials(store.records[labId])
      ensures turn.NoMoreTrials? ==> AfterTrials(store.records[labId])
    {
      var current := Read(labId);
      TrialKeepsSound(digest, current, n, trial);
      var stored := Save(current, WithTrial(current, trial));
      if stored.None? {
        return Leave(Conflict);
      }
      var recorded := Succeeds(Unrecorded);
      if !recorded {
        return Leave(Rejected);
      }
      var enough := n >= current.plan.minimumTrials &&
          stored.value.progress.confirmed >= current.plan.requiredConfirmations;
      turn := if enough then NoMoreTrials else NextTrial;
    }

    /** The trials and the readings before them are settled. */
    twostate predicate TrialsKept(labId: string)
      requires labId in store.records && old(labId in store.records)
      reads this, store
    {
      && seen.readings == old(seen.readings) && seen.answers == old(seen.answers)
      && store.records[labId].currentTrial == old(store.records[labId].currentTrial)
      && store.records[labId].progress == old(store.records[labId].progress)
    }

    /** Evaluate, clean up and complete; a clean-up that cannot be verified closes the run by failure. */
    method Consolidate(labId: string) returns (ending: Ending)
      requires Taken(labId) && AfterTrials(store.records[labId])
      modifies store, this`seen
      ensures Taken(labId) && OnlyThisRow(labId) && TrialsKept(labId)
      ensures Fits(labId, ending, {Completed})
    {
      var current := Read(labId);
      ClosingKeepsSound(digest, current, 0, false);
      var evaluating := Save(current, WithState(current, Evaluating));
      if evaluating.None? {
        return Conflict;
      }
      var result := ResultOf(evaluating.value.plan, evaluating.value.progress);
      var recorded := Succeeds(Unrecorded);
      if !recorded {
        return Rejected;
      }
      ending := CleanUp(labId, result);
    }

    method CleanUp(labId: string, result: LabResult) returns (ending: Ending)
      requires Taken(labId) && store.records[labId].state == Evaluating
      requires result == ResultOf(store.records[labId].plan, store.records[labId].progress)
      modifies store, this`seen
      ensures Taken(labId) && OnlyThisRow(labId) && TrialsKept(labId)
      ensures Fits(labId, ending, {Completed})
    {
      var current := Read(labId);
      ClosingKeepsSound(digest, current, 0, false);
      var cleaning := Save(current, WithState(current, Cleaning));
      if cleaning.None? {
        return Conflict;
      }
      var cleaned := Succeeds(Uncleaned);
      seen := seen.(cleanups := seen.cleanups + [cleaned]);
      if !cleaned {
        return Rejected;
      }
      ending := Complete(labId, result);
    }

    method Complete(labId: string, result: LabResult) returns (ending: Ending)
      requires Taken(labId) && store.records[labId].state == Cleaning
      requires CleanedAs(true)
      requires result == ResultOf(store.records[labId].plan, store.records[labId].progress)
      modifies store, this`seen
      ensures Taken(labId) && OnlyThisRow(labId) && TrialsKept(labId)
      ensures Fits(labId, ending, {Completed})
    {
      var current := Read(labId);
      var now := Now();
      ClosingKeepsSound(digest, current, now, false);
      var completed := Save(current, WithResult(current, result, now));
      if completed.None? {
        return Conflict;
      }
      var recorded := Succeeds(Unrecorded);
      ending := if recorded then Ended(completed.value) else Rejected;
    }

    /** Clean up outside a completed run; the answer says whether that could be verified. */
    method Verify() returns (verified: bool)
      modifies this`seen
      ensures seen == old(seen).(cleanups := old(seen).cleanups + [verified])
    {
      verified := *;
      seen := seen.(cleanups := seen.cleanups + [verified]);
    }

    method CancelDuringExecution(record: LabRecord) returns (ending: Ending)
      requires Taken(record.plan.labId) && store.records[record.plan.labId] == record && record.cancellationRequested
      modifies store, this`seen
      ensures Taken(record.plan.labId) && OnlyThisRow(record.plan.labId) && TrialsKept(record.plan.labId)
      ensures Fits(record.plan.labId, ending, {Cancelled})
    {
      var cleaned := Succeeds(Uncleaned);
      if !cleaned {
        return Rejected;
      }
      var verified := Verify();
      var now := Now();
      ClosingKeepsSound(digest, record, now, verified);
      var cancelled := Save(record, StoppedEarly(record, verified, now));
      if cancelled.None? {
        return Conflict;
      }
      var recorded := Succeeds(Unrecorded);
      ending := if recorded then Ended(cancelled.value) else Rejected;
    }

    /** Whatever went wrong, the run ends as failed, unless a request to stop gets in between. */
    method FailClosed(labId: string) returns (reply: Reply)
      requires Taken(labId)
      modifies store, this`seen
      ensures Taken(labId) && OnlyThisRow(labId) && TrialsKept(labId)
      ensures match reply
              case NothingQueued => false
              case Finished(record) =>
                && record == store.records[labId] && record.state == Failed && record.result == Some(FailedClosed)
                && Smooth() && CleanedAs(record.cleanupVerified)
              case Raised(id) =>
                && id == labId
                && ((OneRefusal(labId) && seen.faults == old(seen.faults))
                    || (store.records[labId].state == Failed && seen.faults == old(seen.faults) + [Unrecorded]
                        && seen.refused == old(seen.refused)))
    {
      var record := Read(labId);
      var verified := Verify();
      var now := Now();
      ClosingKeepsSound(digest, record, now, verified);
      var failed := Save(record, ClosedByFailure(record, verified, now));
      if failed.None? {
        return Raised(labId);
      }
      var recorded := Succeeds(Unrecorded);
      reply := if recorded then Finished(failed.value) else Raised(labId);
    }
  }
}
