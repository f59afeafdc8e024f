/**
  The approval centre as a state with atomic transactions.

  Requests live in a table; every transaction also appends one row to a single ledger whose
  rows are numbered across all requests, while the digests form one chain per request.
 */
module ApprovalLedger {
  import opened Common
  import opened HashChain
  import opened Text
  import opened ApprovalModels
  import opened ApprovalConditions

  const ZERO_HASH := "0000000000000000000000000000000000000000000000000000000000000000"

  datatype EventKind =
    | Requested(actionManifestSha256: string)
    | WasExpired
    | WasDecided(decision: ApprovalDecision, conditions: seq<string>)
    | WasConsumed(executionId: string, evaluationSha256: Option<string>)

  datatype ApprovalBody = ApprovalBody(requestId: string, kind: EventKind, actorId: string, occurredAt: int)

  type ApprovalEvent = Link<ApprovalBody>
  type ApprovalHash = Material<ApprovalBody> -> string

  datatype ApprovalState = ApprovalState(requests: map<string, ApprovalRequest>, events: seq<ApprovalEvent>)

  datatype Denial = NotFound | Conflict | Malformed | Altered

  type Outcome = Result<ApprovalRequest, Denial>

  /** The rows of one request, in ledger order. */
  function Project(events: seq<ApprovalEvent>, requestId: string): seq<ApprovalEvent> {
    if events == [] then []
    else
      var last := events[|events| - 1];
      Project(events[..|events| - 1], requestId) + if last.body.requestId == requestId then [last] else []
  }

  function NextSequence(events: seq<ApprovalEvent>): int {
    if events == [] then 1 else events[|events| - 1].sequence + 1
  }

  function Append(hash: ApprovalHash, events: seq<ApprovalEvent>, body: ApprovalBody): seq<ApprovalEvent> {
    events + [Seal(hash, Material(NextSequence(events), Tip(Some(ZERO_HASH), Project(events, body.requestId)), body))]
  }

  function Commit(hash: ApprovalHash, s: ApprovalState, record: ApprovalRequest, body: ApprovalBody): ApprovalState {
    ApprovalState(s.requests[record.requestId := record], Append(hash, s.events, body))
  }

  /** A request as the approval service creates it. */
  datatype Application = Application(
    requestId: string, campaignId: string, runId: string, actionManifestSha256: string, requestedBy: string,
    requestedAt: int, ttlSeconds: int, occurredAt: int)

  datatype Ruling = Ruling(
    requestId: string, actorId: string, decision: ApprovalDecision, reason: string, conditions: seq<string>,
    now: int, occurredAt: int)

  datatype Consumption = Consumption(
    requestId: string, actionManifestSha256: string, executionId: string, actorId: string, now: int,
    manifest: Option<ActionManifest>, plan: Option<ExecutionPlan>, occurredAt: int)

  function NewRequest(a: Application): ApprovalRequest {
    ApprovalRequest(a.requestId, a.campaignId, a.runId, a.actionManifestSha256, a.requestedBy,
                    a.requestedAt, a.requestedAt + a.ttlSeconds, Pending,
                    None, None, None, [], None, None, None)
  }

  /** The store takes any consistent record under a new identifier, whatever its status. */
  function Insert(env: Environment, hash: ApprovalHash, s: ApprovalState, record: ApprovalRequest, occurredAt: int)
    : (ApprovalState, Outcome)
  {
    var valid := Validated(env.isSpace, record);
    if valid.None? then (s, Err(Malformed))
    else if record.requestId in s.requests then (s, Err(Conflict))
    else
      var kind := Requested(record.actionManifestSha256);
      (Commit(hash, s, valid.value, ApprovalBody(record.requestId, kind, record.requestedBy, occurredAt)),
          Ok(valid.value))
  }

  /** What the approval service inserts: a fresh, pending request. */
  function Create(hash: ApprovalHash, s: ApprovalState, a: Application): (ApprovalState, Outcome) {
    if a.ttlSeconds <= 0 then (s, Err(Malformed))
    else if a.requestId in s.requests then (s, Err(Conflict))
    else
      var body := ApprovalBody(a.requestId, Requested(a.actionManifestSha256), a.requestedBy, a.occurredAt);
      (Commit(hash, s, NewRequest(a), body), Ok(NewRequest(a)))
  }

  predicate Decidable(status: ApprovalStatus) {
    status in {Pending, InformationRequired, ConditionsProposed}
  }

  function StatusAfter(decision: ApprovalDecision): ApprovalStatus {
    match decision
    case ApproveOnce => Approved
    case ApproveWithConditions => Approved
    case RequestMoreInformation => InformationRequired
    case ProposeSaferAlternative => ConditionsProposed
    case DenyContinueSafely => Denied
    case DenyStopRun => Denied
  }

  /** Expiry is committed even though the caller is told of a conflict. */
  function Expire(env: Environment, hash: ApprovalHash, s: ApprovalState, current: ApprovalRequest, actorId: string,
                  occurredAt: int): (ApprovalState, Outcome)
  {
    var updated := Validated(env.isSpace, current.(status := Expired));
    if updated.None? then (s, Err(Malformed))
    else
      (Commit(hash, s, updated.value, ApprovalBody(current.requestId, WasExpired, actorId, occurredAt)), Err(Conflict))
  }

  function Decide(env: Environment, hash: ApprovalHash, s: ApprovalState, r: Ruling): (ApprovalState, Outcome) {
    var reason := Strip(env.isSpace, r.reason);
    if |reason| < 8 then (s, Err(Conflict))
    else if r.requestId !in s.requests then (s, Err(NotFound))
    else
      var current := s.requests[r.requestId];
      if r.actorId == current.requestedBy || !Decidable(current.status) then (s, Err(Conflict))
      else if r.now >= current.expiresAt then Expire(env, hash, s, current, r.actorId, r.occurredAt)
      else
        var updated := Validated(env.isSpace, current.(
          status := StatusAfter(r.decision), decidedBy := Some(r.actorId), decision := Some(r.decision),
          decisionReason := Some(reason), conditions := r.conditions, decidedAt := Some(r.now)));
        if updated.None? then (s, Err(Malformed))
        else
          var body := ApprovalBody(r.requestId, WasDecided(r.decision, r.conditions), r.actorId, r.occurredAt);
          (Commit(hash, s, updated.value, body), Ok(updated.value))
  }

  /** The digest of the condition evaluation, or why a conditional approval cannot be used. */
  function EvaluationDigest(env: Environment, evaluator: Evaluator, current: ApprovalRequest, c: Consumption)
    : Result<Option<string>, Denial>
  {
    if current.decision != Some(ApproveWithConditions) then Ok(None)
    else if c.manifest.None? || c.plan.None? then Err(Conflict)
    else
      var evaluation := Evaluate(env, evaluator, current, c.manifest.value, c.plan.value, c.executionId, c.now);
      if evaluation.Err? then Err(Conflict)
      else if ValidateEvaluation(env, evaluator, current, c.manifest.value, c.plan.value, c.executionId,
                                 evaluation.value, c.now).Some? then Err(Conflict)
      else Ok(Some(env.evaluationDigest(evaluation.value)))
  }

  function Consume(env: Environment, evaluator: Evaluator, hash: ApprovalHash, s: ApprovalState, c: Consumption)
    : (ApprovalState, Outcome)
  {
    if c.requestId !in s.requests then (s, Err(NotFound))
    else
      var current := s.requests[c.requestId];
      if c.actorId == current.requestedBy || current.status != Approved then (s, Err(Conflict))
      else if c.now >= current.expiresAt then Expire(env, hash, s, current, c.actorId, c.occurredAt)
      else if current.actionManifestSha256 != c.actionManifestSha256 then (s, Err(Conflict))
      else
        var evaluation := EvaluationDigest(env, evaluator, current, c);
        if evaluation.Err? then (s, Err(evaluation.error))
        else
          var updated := Validated(env.isSpace, current.(
            status := Consumed, consumedAt := Some(c.now), consumedByExecutionId := Some(c.executionId)));
          if updated.None? then (s, Err(Malformed))
          else
            var body := ApprovalBody(c.requestId, WasConsumed(c.executionId, evaluation.value), c.actorId,
                c.occurredAt);
            (Commit(hash, s, updated.value, body), Ok(updated.value))
  }

  // ---------------------------------------------------------------- runs

  datatype Transaction =
    | TCreate(application: Application) | TDecide(ruling: Ruling) | TConsume(consumption: Consumption)

  function Execute(env: Environment, evaluator: Evaluator, hash: ApprovalHash, s: ApprovalState, t: Transaction)
    : (ApprovalState, Outcome)
  {
    match t
    case TCreate(a) => Create(hash, s, a)
    case TDecide(r) => Decide(env, hash, s, r)
    case TConsume(c) => Consume(env, evaluator, hash, s, c)
  }

  function Run(env: Environment, evaluator: Evaluator, hash: ApprovalHash, ts: seq<Transaction>): ApprovalState {
    if ts == [] then ApprovalState(map[], [])
    else Execute(env, evaluator, hash, Run(env, evaluator, hash, ts[..|ts| - 1]), ts[|ts| - 1]).0
  }

  /** The life of a request, read back from its ledger rows. */
  datatype Life = Unborn | Living(status: ApprovalStatus) | Unlawful

  function Advance(life: Life, kind: EventKind): Life {
    match (life, kind)
    case (Unborn, Requested(_)) => Living(Pending)
    case (Living(status), WasDecided(decision, _)) =>
      if Decidable(status) then Living(StatusAfter(decision)) else Unlawful
    case (Living(status), WasExpired) => if Decidable(status) || status == Approved then Living(Expired) else Unlawful
    case (Living(status), WasConsumed(_, _)) => if status == Approved then Living(Consumed) else Unlawful
    case _ => Unlawful
  }

  function Replay(events: seq<ApprovalEvent>): Life {
    if events == [] then Unborn
    else Advance(Replay(events[..|events| - 1]), events[|events| - 1].body.kind)
  }

  function Consumptions(events: seq<ApprovalEvent>): nat {
    if events == [] then 0
    else Consumptions(events[..|events| - 1]) + if events[|events| - 1].body.kind.WasConsumed? then 1 else 0
  }

  /**
    The status says which decisions led to it; approval was given by somebody other than the
    requester, and consumption happened before expiry.
   */
  ghost predicate Attributed(env: Environment, r: ApprovalRequest) {
    && StateIsConsistent(r) && StripAll(env.isSpace, r.conditions) == r.conditions
    && (r.status in {Approved, Consumed} ==>
          && r.decision in {Some(ApproveOnce), Some(ApproveWithConditions)}
          && Present(r.decidedBy) && r.decidedBy.value != r.requestedBy)
    && (r.status == Denied ==> r.decision in {Some(DenyContinueSafely), Some(DenyStopRun)})
    && (r.status == InformationRequired ==> r.decision == Some(RequestMoreInformation))
    && (r.status == ConditionsProposed ==> r.decision == Some(ProposeSaferAlternative))
    && (r.status == Consumed ==> r.consumedAt.Some? && r.consumedAt.value < r.expiresAt)
  }

  ghost predicate RequestIsLawful(env: Environment, s: ApprovalState, id: string) {
    if id in s.requests then
      && s.requests[id].requestId == id
      && Attributed(env, s.requests[id])
      && Replay(Project(s.events, id)) == Living(s.requests[id].status)
    else Project(s.events, id) == []
  }

  ghost predicate Lawful(env: Environment, hash: ApprovalHash, s: ApprovalState) {
    && (forall i :: 0 <= i < |s.events| ==> s.events[i].sequence == i + 1)
    && (forall id :: Chained(hash, Some(ZERO_HASH), Project(s.events, id)))
    && (forall id :: RequestIsLawful(env, s, id))
  }

  lemma CommitIsLawful(
      env: Environment, hash: ApprovalHash, s: ApprovalState, record: ApprovalRequest, body: ApprovalBody)
    requires Lawful(env, hash, s)
    requires record.requestId == body.requestId && Attributed(env, record)
    requires Advance(if record.requestId in s.requests then Living(s.requests[record.requestId].status) else Unborn,
                     body.kind) == Living(record.status)
    ensures Lawful(env, hash, Commit(hash, s, record, body))
  {
    var s' := Commit(hash, s, record, body);
    var n := |s.events|;
    assert s'.events[..n] == s.events;
    forall id
      ensures Chained(hash, Some(ZERO_HASH), Project(s'.events, id)) && RequestIsLawful(env, s', id)
    {
      assert RequestIsLawful(env, s, id);
      if id == body.requestId {
        var old', new' := Project(s.events, id), Project(s'.events, id);
        assert new' == old' + [s'.events[n]];
        ChainedExtends(hash, Some(ZERO_HASH), old', s'.events[n]);
        assert new'[..|old'|] == old';
      } else {
        assert Project(s'.events, id) == Project(s.events, id);
      }
    }
  }

  lemma ExpireIsLawful(env: Environment, hash: ApprovalHash, s: ApprovalState, id: string, actorId: string, at: int)
    requires Lawful(env, hash, s) && id in s.requests
    requires Decidable(s.requests[id].status) || s.requests[id].status == Approved
    ensures Lawful(env, hash, Expire(env, hash, s, s.requests[id], actorId, at).0)
  {
    assert RequestIsLawful(env, s, id);
    var updated := Validated(env.isSpace, s.requests[id].(status := Expired));
    if updated.Some? {
      CommitIsLawful(env, hash, s, updated.value, ApprovalBody(id, WasExpired, actorId, at));
    }
  }

  lemma ExecuteIsLawful(env: Environment, evaluator: Evaluator, hash: ApprovalHash, s: ApprovalState, t: Transaction)
    requires Lawful(env, hash, s)
    ensures Lawful(env, hash, Execute(env, evaluator, hash, s, t).0)
  {
    match t
    case TCreate(a) =>
      assert RequestIsLawful(env, s, a.requestId);
      if Create(hash, s, a).1.Ok? {
        CommitIsLawful(env, hash, s, NewRequest(a),
                       ApprovalBody(a.requestId, Requested(a.actionManifestSha256), a.requestedBy, a.occurredAt));
      }
    case TDecide(r) => DecideIsLawful(env, hash, s, r);
    case TConsume(c) => ConsumeIsLawful(env, evaluator, hash, s, c);
  }

  lemma DecideIsLawful(env: Environment, hash: ApprovalHash, s: ApprovalState, r: Ruling)
    requires Lawful(env, hash, s)
    ensures Lawful(env, hash, Decide(env, hash, s, r).0)
  {
    assert RequestIsLawful(env, s, r.requestId);
    var (s', outcome) := Decide(env, hash, s, r);
    if s' != s {
      var current := s.requests[r.requestId];
      if r.now >= current.expiresAt {
        ExpireIsLawful(env, hash, s, r.requestId, r.actorId, r.occurredAt);
      } else {
        CommitIsLawful(env, hash, s, outcome.value,
                       ApprovalBody(r.requestId, WasDecided(r.decision, r.conditions), r.actorId, r.occurredAt));
      }
    }
  }

  lemma ConsumeIsLawful(env: Environment, evaluator: Evaluator, hash: ApprovalHash, s: ApprovalState, c: Consumption)
    requires Lawful(env, hash, s)
    ensures Lawful(env, hash, Consume(env, evaluator, hash, s, c).0)
  {
    assert RequestIsLawful(env, s, c.requestId);
    var (s', outcome) := Consume(env, evaluator, hash, s, c);
    if s' != s {
      var current := s.requests[c.requestId];
      if c.now >= current.expiresAt {
        ExpireIsLawful(env, hash, s, c.requestId, c.actorId, c.occurredAt);
      } else {
        var evaluation := EvaluationDigest(env, evaluator, current, c);
        CommitIsLawful(env, hash, s, outcome.value,
                       ApprovalBody(c.requestId, WasConsumed(c.executionId, evaluation.value), c.actorId,
                           c.occurredAt));
      }
    }
  }

  /**
    After any history over any number of requests, every request's status is what its own
    rows replay to, every request's rows form a digest chain from the zero hash, and rows are
    numbered 1, 2, 3, ... across all requests.
   */
  lemma {:induction false} EveryHistoryIsLawful(
      env: Environment, evaluator: Evaluator, hash: ApprovalHash, ts: seq<Transaction>)
    ensures Lawful(env, hash, Run(env, evaluator, hash, ts))
  {
    if ts != [] {
      EveryHistoryIsLawful(env, evaluator, hash, ts[..|ts| - 1]);
      ExecuteIsLawful(env, evaluator, hash, Run(env, evaluator, hash, ts[..|ts| - 1]), ts[|ts| - 1]);
    }
  }

  /** The service's creation is the store's insertion of a new request. */
  lemma CreateIsInsert(env: Environment, hash: ApprovalHash, s: ApprovalState, a: Application)
    ensures Insert(env, hash, s, NewRequest(a), a.occurredAt) == Create(hash, s, a)
  {
    assert Validated(env.isSpace, NewRequest(a)) == if a.ttlSeconds > 0 then Some(NewRequest(a)) else None;
  }

  /** An accepted insertion keeps the ledger lawful exactly when the record is pending: its row says no more. */
  lemma InsertIsLawfulExactlyWhen(
      env: Environment, hash: ApprovalHash, s: ApprovalState, record: ApprovalRequest, occurredAt: int)
    requires Lawful(env, hash, s) && Insert(env, hash, s, record, occurredAt).1.Ok?
    ensures Lawful(env, hash, Insert(env, hash, s, record, occurredAt).0) <==> record.status == Pending
  {
    var stored := Validated(env.isSpace, record).value;
    var body := ApprovalBody(record.requestId, Requested(record.actionManifestSha256), record.requestedBy, occurredAt);
    var s' := Commit(hash, s, stored, body);
    assert RequestIsLawful(env, s, record.requestId);
    if record.status == Pending {
      CommitIsLawful(env, hash, s, stored, body);
    } else {
      var n := |s.events|;
      assert s'.events[..n] == s.events;
      var rows := Project(s'.events, record.requestId);
      assert rows == [s'.events[n]] && rows[..0] == [];
      assert Replay(rows) == Living(Pending);
      assert !RequestIsLawful(env, s', record.requestId);
    }
  }

  /** In every history, approved and consumed requests were approved, and denied ones denied. */
  lemma StatusesNameTheirDecisions(
      env: Environment, evaluator: Evaluator, hash: ApprovalHash, ts: seq<Transaction>, id: string)
    requires id in Run(env, evaluator, hash, ts).requests
    ensures var r := Run(env, evaluator, hash, ts).requests[id];
      && (r.status in {Approved, Consumed} ==>
            && r.decision in {Some(ApproveOnce), Some(ApproveWithConditions)}
            && r.decidedBy.Some? && r.decidedBy.value != r.requestedBy)
      && (r.status == Denied ==> r.decision in {Some(DenyContinueSafely), Some(DenyStopRun)})
  {
    EveryHistoryIsLawful(env, evaluator, hash, ts);
    assert RequestIsLawful(env, Run(env, evaluator, hash, ts), id);
  }

  /** Within the global numbering, each request's rows are strictly increasing. */
  lemma {:induction false} ProjectionIncreases(events: seq<ApprovalEvent>, id: string)
    requires forall i :: 0 <= i < |events| ==> events[i].sequence == i + 1
    ensures Increasing(Project(events, id))
    ensures forall e :: e in Project(events, id) ==> e.sequence <= |events| && e.body.requestId == id && e in events
  {
    if events != [] {
      ProjectionIncreases(events[..|events| - 1], id);
    }
  }

  predicate Open(status: ApprovalStatus) {
    Decidable(status) || status == Approved
  }

  /** A transaction leaves every request but its own alone, and its own too unless that one is still open. */
  ghost predicate TouchesOnlyOpen(s: ApprovalState, s': ApprovalState, id: string) {
    && (forall other :: other in s.requests && other != id ==>
        other in s'.requests && s'.requests[other] == s.requests[other])
    && (id in s.requests && !Open(s.requests[id].status) ==> id in s'.requests && s'.requests[id] == s.requests[id])
  }

  lemma DecideTouchesOnlyOpen(env: Environment, hash: ApprovalHash, s: ApprovalState, r: Ruling)
    requires RequestIsLawful(env, s, r.requestId)
    ensures TouchesOnlyOpen(s, Decide(env, hash, s, r).0, r.requestId)
  {
  }

  lemma ConsumeTouchesOnlyOpen(
      env: Environment, evaluator: Evaluator, hash: ApprovalHash, s: ApprovalState, c: Consumption)
    requires RequestIsLawful(env, s, c.requestId)
    ensures TouchesOnlyOpen(s, Consume(env, evaluator, hash, s, c).0, c.requestId)
  {
  }

  /** Consumed, denied and expired requests never change again, whatever is attempted. */
  lemma TerminalRequestsAreFrozen(
      env: Environment, evaluator: Evaluator, hash: ApprovalHash, s: ApprovalState, t: Transaction, id: string)
    requires Lawful(env, hash, s)
    requires id in s.requests && s.requests[id].status in {Consumed, Denied, Expired}
    ensures var s' := Execute(env, evaluator, hash, s, t).0;
            id in s'.requests && s'.requests[id] == s.requests[id]
  {
    match t
    case TCreate(a) =>
    case TDecide(r) =>
      assert RequestIsLawful(env, s, r.requestId);
      DecideTouchesOnlyOpen(env, hash, s, r);
    case TConsume(c) =>
      assert RequestIsLawful(env, s, c.requestId);
      ConsumeTouchesOnlyOpen(env, evaluator, hash, s, c);
  }

  /** A lawful life holds at most one consumption, and holds one exactly when it ends consumed. */
  lemma {:induction false} ConsumedAtMostOnce(events: seq<ApprovalEvent>)
    requires !Replay(events).Unlawful?
    ensures Consumptions(events) == if Replay(events) == Living(Consumed) then 1 else 0
  {
    if events != [] {
      ConsumedAtMostOnce(events[..|events| - 1]);
    }
  }

  /** A refused transaction changes nothing, except for the one committed move to expired. */
  lemma RefusalChangesNothing(
      env: Environment, evaluator: Evaluator, hash: ApprovalHash, s: ApprovalState, t: Transaction)
    requires Lawful(env, hash, s)
    ensures var (s', outcome) := Execute(env, evaluator, hash, s, t);
            outcome.Err? ==>
              s' == s ||
              exists id, now :: ExpiredBy(s, s', id, now)
                && ((t.TDecide? && t.ruling.requestId == id && t.ruling.now == now)
                    || (t.TConsume? && t.consumption.requestId == id && t.consumption.now == now))
  {
    var (s', outcome) := Execute(env, evaluator, hash, s, t);
    if outcome.Err? && s' != s {
      match t
      case TDecide(r) =>
        assert RequestIsLawful(env, s, r.requestId);
        assert ExpiredBy(s, s', r.requestId, r.now);
      case TConsume(c) =>
        assert RequestIsLawful(env, s, c.requestId);
        assert ExpiredBy(s, s', c.requestId, c.now);
    }
  }

  /** Only `id` moved, to expired, at or after its expiry time, with exactly one new row. */
  ghost predicate ExpiredBy(s: ApprovalState, s': ApprovalState, id: string, now: int) {
    && id in s.requests && id in s'.requests
    && s.requests[id].status in {Pending, InformationRequired, ConditionsProposed, Approved}
    && now >= s.requests[id].expiresAt
    && s'.requests[id].status == Expired
    && s'.requests.Keys == s.requests.Keys
    && (forall other :: other in s.requests && other != id ==> s'.requests[other] == s.requests[other])
    && |s'.events| == |s.events| + 1 && s.events <= s'.events
    && s'.events[|s.events|].body.kind == WasExpired && s'.events[|s.events|].body.requestId == id
  }

  /** Approving and denying decisions must name their actor; the others need not. */
  predicate Settles(decision: ApprovalDecision) {
    decision in {ApproveOnce, ApproveWithConditions, DenyContinueSafely, DenyStopRun}
  }

  /** The exact condition under which a decision is accepted, and what each of the six makes of the request. */
  lemma DecidedExactlyWhen(env: Environment, hash: ApprovalHash, s: ApprovalState, d: Ruling)
    requires Lawful(env, hash, s) && d.requestId in s.requests
    ensures Decide(env, hash, s, d).1.Ok?
        <==> var r := s.requests[d.requestId];
             && |Strip(env.isSpace, d.reason)| >= 8 && d.actorId != r.requestedBy
             && r.status in {Pending, InformationRequired, ConditionsProposed} && d.now < r.expiresAt
             && (forall c :: c in d.conditions ==> Strip(env.isSpace, c) != "")
             && (d.decision == ApproveWithConditions ==> d.conditions != [])
             && (Settles(d.decision) ==> d.actorId != "")
    ensures Decide(env, hash, s, d).1.Ok? ==>
      var (s', outcome) := Decide(env, hash, s, d);
      && outcome.value == s.requests[d.requestId].(
           status := match d.decision
                     case ApproveOnce => Approved
                     case ApproveWithConditions => Approved
                     case RequestMoreInformation => InformationRequired
                     case ProposeSaferAlternative => ConditionsProposed
                     case DenyContinueSafely => Denied
                     case DenyStopRun => Denied,
           decidedBy := Some(d.actorId), decision := Some(d.decision),
           decisionReason := Some(Strip(env.isSpace, d.reason)),
           conditions := StripAll(env.isSpace, d.conditions), decidedAt := Some(d.now))
      && s'.requests == s.requests[d.requestId := outcome.value]
  {
    assert RequestIsLawful(env, s, d.requestId);
    var stripped := StripAll(env.isSpace, d.conditions);
    assert forall i :: 0 <= i < |stripped| ==> stripped[i] == Strip(env.isSpace, d.conditions[i]);
    assert "" !in stripped <==> forall c :: c in d.conditions ==> Strip(env.isSpace, c) != "" by {
      if "" in stripped {
        var i :| 0 <= i < |stripped| && stripped[i] == "";
        assert d.conditions[i] in d.conditions;
      }
      forall c | c in d.conditions && "" !in stripped
        ensures Strip(env.isSpace, c) != ""
      {
        var i :| 0 <= i < |d.conditions| && d.conditions[i] == c;
        assert stripped[i] in stripped;
      }
    }
  }

  /** A request the service created can be approved exactly as long as its time to live lasts. */
  lemma CreatedRequestsExpireOnTime(env: Environment, hash: ApprovalHash, s: ApprovalState, a: Application, d: Ruling)
    requires Lawful(env, hash, s) && Create(hash, s, a).1.Ok?
    requires d.requestId == a.requestId && d.decision == ApproveOnce && d.conditions == []
    requires d.actorId != a.requestedBy && d.actorId != "" && |Strip(env.isSpace, d.reason)| >= 8
    ensures Decide(env, hash, Create(hash, s, a).0, d).1.Ok? <==> d.now < a.requestedAt + a.ttlSeconds
  {
    ExecuteIsLawful(env, Evaluator("", "", 1), hash, s, TCreate(a));
    DecidedExactlyWhen(env, hash, Create(hash, s, a).0, d);
  }

  /** The exact condition under which an approval can be consumed. */
  lemma ConsumedExactlyWhen(
      env: Environment, evaluator: Evaluator, hash: ApprovalHash, s: ApprovalState, c: Consumption)
    requires Lawful(env, hash, s) && 1 <= evaluator.validitySeconds <= 300
    requires c.requestId in s.requests
    ensures Consume(env, evaluator, hash, s, c).1.Ok?
        <==> var r := s.requests[c.requestId];
             && c.actorId != r.requestedBy && r.status == Approved && c.now < r.expiresAt
             && r.actionManifestSha256 == c.actionManifestSha256 && c.executionId != ""
             && (r.decision == Some(ApproveWithConditions) ==>
                   && c.manifest.Some? && c.plan.Some?
                   && PlanFits(env, r, c.manifest.value, c.plan.value, c.executionId)
                   && forall condition :: condition in r.conditions ==> Meets(env, condition, c.plan.value))
    ensures Consume(env, evaluator, hash, s, c).1.Ok? ==>
      var (s', outcome) := Consume(env, evaluator, hash, s, c);
      && outcome.value == s.requests[c.requestId].(
           status := Consumed, consumedAt := Some(c.now), consumedByExecutionId := Some(c.executionId))
      && s'.requests == s.requests[c.requestId := outcome.value]
  {
    var r := s.requests[c.requestId];
    assert RequestIsLawful(env, s, c.requestId);
    if r.decision == Some(ApproveWithConditions) && c.manifest.Some? && c.plan.Some? && c.now < r.expiresAt {
      AcceptedExactlyWhenEveryConditionIsMet(env, evaluator, r, c.manifest.value, c.plan.value, c.executionId, c.now);
    }
  }

  /** Whatever was consumed under conditions was consumed with a plan that fits and meets all of them. */
  lemma ConsumedPlansMeetConditions(
      env: Environment, evaluator: Evaluator, hash: ApprovalHash, s: ApprovalState, c: Consumption)
    requires Consume(env, evaluator, hash, s, c).1.Ok?
    ensures var r := s.requests[c.requestId];
      r.decision == Some(ApproveWithConditions) ==>
        && c.manifest.Some? && c.plan.Some?
        && PlanFits(env, r, c.manifest.value, c.plan.value, c.executionId)
        && forall condition :: condition in r.conditions ==> Meets(env, condition, c.plan.value)
  {
    var r := s.requests[c.requestId];
    if r.decision == Some(ApproveWithConditions) {
      AcceptedPlansMeetConditions(env, evaluator, r, c.manifest.value, c.plan.value, c.executionId, c.now);
    }
  }

  // ---------------------------------------------------------------- what the rows say

  /** One row has been added to the ledger, and this is what it says. */
  predicate OneRow(s: ApprovalState, s': ApprovalState, body: ApprovalBody) {
    |s'.events| == |s.events| + 1 && s.events <= s'.events && s'.events[|s.events|].body == body
  }

  /** An accepted transaction adds one row that says who did what. */
  lemma RowsSayWhatHappened(
      env: Environment, evaluator: Evaluator, hash: ApprovalHash, s: ApprovalState, t: Transaction)
    requires Execute(env, evaluator, hash, s, t).1.Ok?
    ensures var s' := Execute(env, evaluator, hash, s, t).0;
      match t
      case TCreate(a) =>
        OneRow(s, s', ApprovalBody(a.requestId, Requested(a.actionManifestSha256), a.requestedBy, a.occurredAt))
      case TDecide(r) =>
        OneRow(s, s', ApprovalBody(r.requestId, WasDecided(r.decision, r.conditions), r.actorId, r.occurredAt))
      case TConsume(c) => SaysConsumed(env, evaluator, s, s', c)
  {
  }

  /** The row names the execution, and under conditions the digest of the evaluation that found them met. */
  ghost predicate SaysConsumed(
      env: Environment, evaluator: Evaluator, s: ApprovalState, s': ApprovalState, c: Consumption)
  {
    && c.requestId in s.requests
    && var r := s.requests[c.requestId];
    if r.decision == Some(ApproveWithConditions) then
      && c.manifest.Some? && c.plan.Some?
      && var evaluation := Evaluate(env, evaluator, r, c.manifest.value, c.plan.value, c.executionId, c.now);
      && evaluation.Ok?
      && var kind := WasConsumed(c.executionId, Some(env.evaluationDigest(evaluation.value)));
      OneRow(s, s', ApprovalBody(c.requestId, kind, c.actorId, c.occurredAt))
    else
      OneRow(s, s', ApprovalBody(c.requestId, WasConsumed(c.executionId, None), c.actorId, c.occurredAt))
  }

  /** The request has been marked as expired, with a row that says by whose attempt. */
  ghost predicate Lapsed(s: ApprovalState, s': ApprovalState, id: string, actorId: string, occurredAt: int) {
    && id in s.requests && s'.requests == s.requests[id := s.requests[id].(status := Expired)]
    && OneRow(s, s', ApprovalBody(id, WasExpired, actorId, occurredAt))
  }

  /** A decision that comes too late is refused, and marks the request as expired; no other refusal writes anything. */
  lemma LateDecisionsExpire(env: Environment, hash: ApprovalHash, s: ApprovalState, r: Ruling)
    requires Lawful(env, hash, s) && r.requestId in s.requests
    ensures var (s', outcome) := Decide(env, hash, s, r);
      var current := s.requests[r.requestId];
      if && |Strip(env.isSpace, r.reason)| >= 8 && r.actorId != current.requestedBy
         && current.status in {Pending, InformationRequired, ConditionsProposed} && r.now >= current.expiresAt
      then outcome == Err(Conflict) && Lapsed(s, s', r.requestId, r.actorId, r.occurredAt)
      else outcome.Err? ==> s' == s
  {
    assert RequestIsLawful(env, s, r.requestId);
  }

  /** The same for a consumption that comes too late. */
  lemma LateConsumptionsExpire(
      env: Environment, evaluator: Evaluator, hash: ApprovalHash, s: ApprovalState, c: Consumption)
    requires Lawful(env, hash, s) && c.requestId in s.requests
    ensures var (s', outcome) := Consume(env, evaluator, hash, s, c);
      var current := s.requests[c.requestId];
      if c.actorId != current.requestedBy && current.status == Approved && c.now >= current.expiresAt
      then outcome == Err(Conflict) && Lapsed(s, s', c.requestId, c.actorId, c.occurredAt)
      else outcome.Err? ==> s' == s
  {
    assert RequestIsLawful(env, s, c.requestId);
  }
}
