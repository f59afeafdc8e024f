/** Immutable models of the approval centre: manifests, execution plans and requests. */
module ApprovalModels {
  import opened Common
  import opened Text

  datatype ExecutionLimits = ExecutionLimits(timeoutSeconds: nat, maximumRequests: nat, maximumOutputBytes: nat)

  /** The exact action an approval is asked for. */
  datatype ActionManifest = ActionManifest(
    manifestId: string, campaignId: string, requestedBy: string, roleId: string, skillId: string,
    action: string, toolId: string, operation: string, targetReferences: seq<string>, limits: ExecutionLimits)

  /** The plan chosen after governed planning and adapter selection. */
  datatype ExecutionPlan = ExecutionPlan(
    executionId: string, actionManifestSha256: string, targetIdentifiers: seq<string>,
    selectedTool: string, selectedProfile: string,
    requestBudget: nat, runtimeBudgetSeconds: nat, outputBudgetBytes: nat,
    credentialAttempts: bool, destructiveChecks: bool,
    filesystemPaths: seq<string>, networkDestinations: seq<string>, adapterIdentity: string)

  datatype ApprovalStatus =
    Pending | InformationRequired | ConditionsProposed | Approved | Denied | Expired | Cancelled | Consumed

  datatype ApprovalDecision =
    | ApproveOnce
    | ApproveWithConditions
    | RequestMoreInformation
    | ProposeSaferAlternative
    | DenyContinueSafely
    | DenyStopRun

  datatype ApprovalRequest = ApprovalRequest(
    requestId: string, campaignId: string, runId: string, actionManifestSha256: string, requestedBy: string,
    requestedAt: int, expiresAt: int, status: ApprovalStatus,
    decidedBy: Option<string>, decision: Option<ApprovalDecision>, decisionReason: Option<string>,
    conditions: seq<string>, decidedAt: Option<int>,
    consumedAt: Option<int>, consumedByExecutionId: Option<string>)

  /** Facts the trusted evaluator derives from the plan. */
  datatype Facts = Facts(
    maximumRequests: nat, maximumRuntimeSeconds: nat, maximumOutputBytes: nat, targetIdentifiers: seq<string>,
    filesystemPaths: seq<string>, networkDestinations: seq<string>, selectedTool: string, selectedProfile: string,
    credentialAttempts: bool, destructiveChecks: bool, adapterIdentity: string)

  datatype Evaluation = Evaluation(
    approvalRequestId: string, actionManifestSha256: string, executionId: string, executionPlanSha256: string,
    facts: Facts, evaluatorIdentity: string, evaluatorVersion: string, evaluatedAt: int, expiresAt: int)

  datatype Evaluator = Evaluator(identity: string, version: string, validitySeconds: int)

  /** What the approval code takes from its surroundings: text tables, path resolution, digests. */
  datatype Environment = Environment(
    isSpace: char -> bool,
    parseInt: string -> Option<int>,
    resolvePath: string -> seq<string>,
    manifestDigest: ActionManifest -> string,
    planDigest: ExecutionPlan -> string,
    requestDigest: ApprovalRequest -> string,
    evaluationDigest: Evaluation -> string)

  predicate Present(o: Option<string>) {
    o.Some? && o.value != ""
  }

  function StripAll(isSpace: char -> bool, values: seq<string>): (stripped: seq<string>)
    ensures |stripped| == |values|
    ensures forall i :: 0 <= i < |values| ==> stripped[i] == Strip(isSpace, values[i])
  {
    if values == [] then [] else [Strip(isSpace, values[0])] + StripAll(isSpace, values[1..])
  }

  lemma {:induction false} StripAllIdempotent(isSpace: char -> bool, values: seq<string>)
    ensures StripAll(isSpace, StripAll(isSpace, values)) == StripAll(isSpace, values)
  {
    var once := StripAll(isSpace, values);
    forall i | 0 <= i < |values|
      ensures StripAll(isSpace, once)[i] == once[i]
    {
      StripIdempotent(isSpace, values[i]);
    }
  }

  /** The consistency rules every stored request satisfies. */
  predicate StateIsConsistent(r: ApprovalRequest) {
    && "" !in r.conditions
    && r.requestedAt < r.expiresAt
    && (r.status in {Approved, Denied} ==> Present(r.decidedBy) && r.decision.Some? && r.decidedAt.Some?)
    && (r.status == Consumed ==> r.consumedAt.Some? && Present(r.consumedByExecutionId))
    && (r.decision == Some(ApproveWithConditions) ==> r.conditions != [])
  }

  /** Re-validation before a write: conditions are stripped, then the rules are checked. */
  function Validated(isSpace: char -> bool, r: ApprovalRequest): (v: Option<ApprovalRequest>)
    ensures v.Some? ==> StateIsConsistent(v.value) && v.value == r.(conditions := v.value.conditions)
    ensures v.Some? ==> StripAll(isSpace, v.value.conditions) == v.value.conditions
  {
    StripAllIdempotent(isSpace, r.conditions);
    var candidate := r.(conditions := StripAll(isSpace, r.conditions));
    if StateIsConsistent(candidate) then Some(candidate) else None
  }
}
