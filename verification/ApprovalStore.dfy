/** The approval store: transactions that update request rows in place and append ledger rows. */
module ApprovalStore {
  import opened Common
  import opened HashChain
  import opened Text
  import opened ApprovalModels
  import Conditions = ApprovalConditions
  import Ledger = ApprovalLedger

  class ApprovalStore {
    const env: Environment
    const evaluator: Evaluator
    const hash: Ledger.ApprovalHash
    var requests: map<string, ApprovalRequest>
    var events: seq<Ledger.ApprovalEvent>

    ghost function State(): Ledger.ApprovalState
      reads this
    {
      Ledger.ApprovalState(requests, events)
    }

    /** Rows are stored under their own request identifier. */
    ghost predicate Valid()
      reads this
    {
      forall id :: id in requests ==> requests[id].requestId == id
    }

    constructor (env: Environment, evaluator: Evaluator, hash: Ledger.ApprovalHash)
      ensures this.env == env && this.evaluator == evaluator && this.hash == hash
      ensures Valid() && State() == Ledger.ApprovalState(map[], [])
    {
      this.env, this.evaluator, this.hash := env, evaluator, hash;
      requests, events := map[], [];
    }

    /** Append one row: numbered after the last row of any request, chained to the last row of its own. */
    method AppendEvent(body: Ledger.ApprovalBody)
      modifies this`events
      ensures events == Ledger.Append(hash, old(events), body)
    {
      var sequence := if events == [] then 1 else events[|events| - 1].sequence + 1;
      var previous := Some(Ledger.ZERO_HASH);
      var i := |events|;
      assert events[..i] == events;
      while i > 0
        invariant 0 <= i <= |events|
        invariant Tip(previous, Ledger.Project(events[..i], body.requestId))
               == Tip(Some(Ledger.ZERO_HASH), Ledger.Project(events, body.requestId))
        invariant previous == Some(Ledger.ZERO_HASH)
      {
        i := i - 1;
        assert events[..i + 1][..i] == events[..i];
        if events[i].body.requestId == body.requestId {
          previous := Some(events[i].digest);
          break;
        }
      }
      assert previous == Tip(Some(Ledger.ZERO_HASH), Ledger.Project(events, body.requestId));
      events := events + [Seal(hash, Material(sequence, previous, body))];
    }

    /** Store a consistent record under a new identifier. */
    method Create(request: ApprovalRequest, occurredAt: int) returns (outcome: Ledger.Outcome)
      requires Valid()
      modifies this
      ensures Valid()
      ensures (State(), outcome) == Ledger.Insert(env, hash, old(State()), request, occurredAt)
    {
      var valid := Validated(env.isSpace, request);
      if valid.None? {
        return Err(Ledger.Malformed);
      }
      var id := request.requestId;
      if id in requests {
        return Err(Ledger.Conflict);
      }
      requests := requests[id := valid.value];
      var kind := Ledger.Requested(request.actionManifestSha256);
      AppendEvent(Ledger.ApprovalBody(id, kind, request.requestedBy, occurredAt));
      outcome := Ok(valid.value);
    }

    /** The service's way to create a request: fresh and pending. */
    method Request(a: Ledger.Application) returns (outcome: Ledger.Outcome)
      requires Valid()
      modifies this
      ensures Valid()
      ensures (State(), outcome) == Ledger.Create(hash, old(State()), a)
    {
      Ledger.CreateIsInsert(env, hash, State(), a);
      outcome := Create(Ledger.NewRequest(a), a.occurredAt);
    }

    method Decide(r: Ledger.Ruling) returns (outcome: Ledger.Outcome)
      requires Valid()
      modifies this
      ensures Valid()
      ensures (State(), outcome) == Ledger.Decide(env, hash, old(State()), r)
    {
      var safeReason := Strip(env.isSpace, r.reason);
      if |safeReason| < 8 {
        return Err(Ledger.Conflict);
      }
      if r.requestId !in requests {
        return Err(Ledger.NotFound);
      }
      var current := requests[r.requestId];
      if r.actorId == current.requestedBy || !Ledger.Decidable(current.status) {
        return Err(Ledger.Conflict);
      }
      var expired, updated := false, None;
      if r.now >= current.expiresAt {
        updated := Validated(env.isSpace, current.(status := Expired));
        if updated.Some? {
          requests := requests[r.requestId := updated.value];
          AppendEvent(Ledger.ApprovalBody(r.requestId, Ledger.WasExpired, r.actorId, r.occurredAt));
          expired := true;
        }
      } else {
        var status := Ledger.StatusAfter(r.decision);
        updated := Validated(env.isSpace, current.(
          status := status, decidedBy := Some(r.actorId), decision := Some(r.decision),
          decisionReason := Some(safeReason), conditions := r.conditions, decidedAt := Some(r.now)));
        if updated.Some? {
          requests := requests[r.requestId := updated.value];
          AppendEvent(
            Ledger.ApprovalBody(r.requestId, Ledger.WasDecided(r.decision, r.conditions), r.actorId, r.occurredAt));
        }
      }
      outcome := if updated.None? then Err(Ledger.Malformed)
                 else if expired then Err(Ledger.Conflict) else Ok(updated.value);
    }

    method Consume(c: Ledger.Consumption) returns (outcome: Ledger.Outcome)
      requires Valid()
      modifies this
      ensures Valid()
      ensures (State(), outcome) == Ledger.Consume(env, evaluator, hash, old(State()), c)
    {
      if c.requestId !in requests {
        return Err(Ledger.NotFound);
      }
      var current := requests[c.requestId];
      if c.actorId == current.requestedBy || current.status != Approved {
        return Err(Ledger.Conflict);
      }
      var expired, updated := false, None;
      if c.now >= current.expiresAt {
        updated := Validated(env.isSpace, current.(status := Expired));
        if updated.Some? {
          requests := requests[c.requestId := updated.value];
          AppendEvent(Ledger.ApprovalBody(c.requestId, Ledger.WasExpired, c.actorId, c.occurredAt));
          expired := true;
        }
      } else {
        if current.actionManifestSha256 != c.actionManifestSha256 {
          return Err(Ledger.Conflict);
        }
        var evaluationSha256: Option<string> := None;
        if current.decision == Some(ApproveWithConditions) {
          if c.manifest.None? || c.plan.None? {
            return Err(Ledger.Conflict);
          }
          var evaluation :=
              Conditions.Evaluate(env, evaluator, current, c.manifest.value, c.plan.value, c.executionId, c.now);
          if evaluation.Err? {
            return Err(Ledger.Conflict);
          }
          var error := Conditions.ValidateEvaluation(env, evaluator, current, c.manifest.value, c.plan.value,
                                                     c.executionId, evaluation.value, c.now);
          if error.Some? {
            return Err(Ledger.Conflict);
          }
          evaluationSha256 := Some(env.evaluationDigest(evaluation.value));
        }
        updated := Validated(env.isSpace, current.(
          status := Consumed, consumedAt := Some(c.now), consumedByExecutionId := Some(c.executionId)));
        if updated.Some? {
          requests := requests[c.requestId := updated.value];
          AppendEvent(Ledger.ApprovalBody(
            c.requestId, Ledger.WasConsumed(c.executionId, evaluationSha256), c.actorId, c.occurredAt));
        }
      }
      outcome := if updated.None? then Err(Ledger.Malformed)
                 else if expired then Err(Ledger.Conflict) else Ok(updated.value);
    }

    /** Read one request's rows and check their chain; a single altered row refuses the whole answer. */
    method Events(requestId: string) returns (outcome: Result<seq<Ledger.ApprovalEvent>, Ledger.Denial>)
      ensures outcome.Ok? <==> Chained(hash, Some(Ledger.ZERO_HASH), Ledger.Project(events, requestId))
      ensures outcome.Ok? ==> outcome.value == Ledger.Project(events, requestId)
    {
      var rows := Ledger.Project(events, requestId);
      var previous := Some(Ledger.ZERO_HASH);
      for i := 0 to |rows|
        invariant previous == Tip(Some(Ledger.ZERO_HASH), rows[..i])
        invariant Chained(hash, Some(Ledger.ZERO_HASH), rows[..i])
      {
        ChainedStep(hash, Some(Ledger.ZERO_HASH), rows, i);
        BrokenPrefixBreaks(hash, Some(Ledger.ZERO_HASH), rows, i + 1);
        if rows[i].previous != previous || !Sealed(hash, rows[i]) {
          return Err(Ledger.Altered);
        }
        previous := Some(rows[i].digest);
      }
      assert rows[..|rows|] == rows;
      outcome := Ok(rows);
    }
  }
}
