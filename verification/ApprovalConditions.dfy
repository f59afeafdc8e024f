/** Evaluation of approval conditions over a canonical execution plan. */
module ApprovalConditions {
  import opened Common
  import opened Text
  import opened ApprovalModels

  datatype ConditionError =
    | OtherManifest | PlanOnOtherManifest | OtherExecution | OtherTool | OtherTargets
    | RequestBudget | RuntimeBudget | OutputBudget
    | BindingInvalid | FromTheFuture | Stale
    | NotTyped | MalformedLimit | NotSatisfied | Unsupported

  function FactsOf(plan: ExecutionPlan): Facts {
    Facts(plan.requestBudget, plan.runtimeBudgetSeconds, plan.outputBudgetBytes, plan.targetIdentifiers,
          plan.filesystemPaths, plan.networkDestinations, plan.selectedTool, plan.selectedProfile,
          plan.credentialAttempts, plan.destructiveChecks, plan.adapterIdentity)
  }

  function Earlier(a: int, b: int): int { if a <= b then a else b }

  /** The evaluator: bind the approval, manifest, plan and execution, then issue a short-lived evaluation. */
  function Evaluate(env: Environment, evaluator: Evaluator, approval: ApprovalRequest, manifest: ActionManifest,
                    plan: ExecutionPlan, executionId: string, now: int): Result<Evaluation, ConditionError>
  {
    var digest := env.manifestDigest(manifest);
    if approval.actionManifestSha256 != digest then Err(OtherManifest)
    else if plan.actionManifestSha256 != digest then Err(PlanOnOtherManifest)
    else if plan.executionId != executionId then Err(OtherExecution)
    else if plan.selectedTool != manifest.toolId then Err(OtherTool)
    else if plan.targetIdentifiers != manifest.targetReferences then Err(OtherTargets)
    else if plan.requestBudget > manifest.limits.maximumRequests then Err(RequestBudget)
    else if plan.runtimeBudgetSeconds > manifest.limits.timeoutSeconds then Err(RuntimeBudget)
    else if plan.outputBudgetBytes > manifest.limits.maximumOutputBytes then Err(OutputBudget)
    else Ok(Evaluation(approval.requestId, digest, executionId, env.planDigest(plan), FactsOf(plan),
                       evaluator.identity, evaluator.version, now,
                       Earlier(approval.expiresAt, now + evaluator.validitySeconds)))
  }

  /** Independent re-validation of an evaluation before the approval is consumed. */
  function ValidateEvaluation(env: Environment, evaluator: Evaluator, approval: ApprovalRequest,
                              manifest: ActionManifest, plan: ExecutionPlan, executionId: string,
                              evaluation: Evaluation, now: int): Option<ConditionError>
  {
    if !(&& evaluation.approvalRequestId == approval.requestId
         && evaluation.actionManifestSha256 == env.manifestDigest(manifest)
         && evaluation.executionId == executionId
         && evaluation.executionPlanSha256 == env.planDigest(plan)
         && evaluation.facts == FactsOf(plan)
         && evaluation.evaluatorIdentity == evaluator.identity
         && evaluation.evaluatorVersion == evaluator.version) then Some(BindingInvalid)
    else if evaluation.evaluatedAt > now then Some(FromTheFuture)
    else if evaluation.expiresAt > approval.expiresAt || now >= evaluation.expiresAt then Some(Stale)
    else if now - evaluation.evaluatedAt > evaluator.validitySeconds then Some(Stale)
    else ValidateConditions(env, approval.conditions, evaluation.facts)
  }

  /** The first condition that is not met, in the order the approver wrote them. */
  function ValidateConditions(env: Environment, conditions: seq<string>, facts: Facts): Option<ConditionError> {
    if conditions == [] then None
    else
      var error := CheckCondition(env, conditions[0], facts);
      if error.Some? then error else ValidateConditions(env, conditions[1..], facts)
  }

  function Require(ok: bool): Option<ConditionError> { if ok then None else Some(NotSatisfied) }

  function RequireLimit(env: Environment, value: string, actual: nat): Option<ConditionError> {
    var expected := env.parseInt(value);
    if expected.None? then Some(MalformedLimit) else Require(actual <= expected.value)
  }

  /** The supported condition names. */
  datatype ConditionKey =
    | KeyRequests | KeyRuntime | KeyOutput | KeyTarget | KeyTool | KeyProfile
    | KeyNoCredentials | KeyNoDestruction | KeyPath | KeyDestination | KeyAdapter | KeyUnknown

  function KeyOf(name: string): ConditionKey {
    if name == "maximum_requests" then KeyRequests
    else if name == "maximum_runtime_seconds" then KeyRuntime
    else if name == "maximum_output_bytes" then KeyOutput
    else if name == "permitted_target_id" then KeyTarget
    else if name == "permitted_tool" then KeyTool
    else if name == "permitted_profile" then KeyProfile
    else if name == "no_credential_attempts" then KeyNoCredentials
    else if name == "no_destructive_checks" then KeyNoDestruction
    else if name == "permitted_filesystem_path" then KeyPath
    else if name == "permitted_network_destination" then KeyDestination
    else if name == "permitted_adapter" then KeyAdapter
    else KeyUnknown
  }

  /** Split at the first '=' and strip both sides; a condition without one is not typed. */
  function Split(env: Environment, condition: string): Option<(ConditionKey, string)> {
    var n := Find('=', condition);
    if n == |condition| then None
    else Some((KeyOf(Strip(env.isSpace, condition[..n])), Strip(env.isSpace, condition[n + 1..])))
  }

  function CheckCondition(env: Environment, condition: string, facts: Facts): Option<ConditionError> {
    var parts := Split(env, condition);
    if parts.None? then Some(NotTyped)
    else CheckValue(env, parts.value.0, parts.value.1, facts)
  }

  function CheckValue(env: Environment, key: ConditionKey, value: string, facts: Facts): Option<ConditionError> {
    match key
    case KeyRequests => RequireLimit(env, value, facts.maximumRequests)
    case KeyRuntime => RequireLimit(env, value, facts.maximumRuntimeSeconds)
    case KeyOutput => RequireLimit(env, value, facts.maximumOutputBytes)
    case KeyTarget => Require(value in facts.targetIdentifiers)
    case KeyTool => Require(value == facts.selectedTool)
    case KeyProfile => Require(value == facts.selectedProfile)
    case KeyNoCredentials => Require(IsTrueWord(value) && !facts.credentialAttempts)
    case KeyNoDestruction => Require(IsTrueWord(value) && !facts.destructiveChecks)
    case KeyPath => Require(AllPathsAllowed(env, value, facts.filesystemPaths))
    case KeyDestination => Require(forall d :: d in facts.networkDestinations ==> d == value)
    case KeyAdapter => Require(value == facts.adapterIdentity)
    case KeyUnknown => Some(Unsupported)
  }

  function AllPathsAllowed(env: Environment, root: string, paths: seq<string>): (allowed: bool)
    ensures allowed <==> forall p :: p in paths ==> env.resolvePath(root) <= env.resolvePath(p)
  {
    paths == [] || (env.resolvePath(root) <= env.resolvePath(paths[0]) && AllPathsAllowed(env, root, paths[1..]))
  }

  // ---------------------------------------------------------------- what conditions mean

  /** The value is a number, and the plan's budget does not exceed it. */
  predicate AtMost(env: Environment, value: string, budget: nat) {
    var limit := env.parseInt(value);
    limit.Some? && budget <= limit.value
  }

  /** The value is the word "true" in any case. */
  predicate Affirmed(value: string) {
    |value| == 4 && value[0] in {'t', 'T'} && value[1] in {'r', 'R'} && value[2] in {'u', 'U'} && value[3] in {'e', 'E'}
  }

  /** What each supported name asks of a plan; no other name is ever satisfied. */
  predicate Stated(env: Environment, name: string, value: string, plan: ExecutionPlan) {
    || (name == "maximum_requests" && AtMost(env, value, plan.requestBudget))
    || (name == "maximum_runtime_seconds" && AtMost(env, value, plan.runtimeBudgetSeconds))
    || (name == "maximum_output_bytes" && AtMost(env, value, plan.outputBudgetBytes))
    || (name == "permitted_target_id" && value in plan.targetIdentifiers)
    || (name == "permitted_tool" && plan.selectedTool == value)
    || (name == "permitted_profile" && plan.selectedProfile == value)
    || (name == "no_credential_attempts" && Affirmed(value) && !plan.credentialAttempts)
    || (name == "no_destructive_checks" && Affirmed(value) && !plan.destructiveChecks)
    || (name == "permitted_filesystem_path"
        && forall p :: p in plan.filesystemPaths ==> env.resolvePath(value) <= env.resolvePath(p))
    || (name == "permitted_network_destination" && forall d :: d in plan.networkDestinations ==> d == value)
    || (name == "permitted_adapter" && plan.adapterIdentity == value)
  }

  /** The text before the first '=' and the text after it, without the white space around them, state something true. */
  ghost predicate Meets(env: Environment, condition: string, plan: ExecutionPlan) {
    exists n :: FirstSign(condition, n)
      && Stated(env, Strip(env.isSpace, condition[..n]), Strip(env.isSpace, condition[n + 1..]), plan)
  }

  predicate FirstSign(condition: string, n: int) {
    0 <= n < |condition| && condition[n] == '=' && '=' !in condition[..n]
  }

  /** The plan stays inside the exact manifest and execution the approval names. */
  predicate PlanFits(env: Environment, approval: ApprovalRequest, manifest: ActionManifest, plan: ExecutionPlan,
                     executionId: string)
  {
    && approval.actionManifestSha256 == env.manifestDigest(manifest) == plan.actionManifestSha256
    && plan.executionId == executionId
    && plan.selectedTool == manifest.toolId
    && plan.targetIdentifiers == manifest.targetReferences
    && plan.requestBudget <= manifest.limits.maximumRequests
    && plan.runtimeBudgetSeconds <= manifest.limits.timeoutSeconds
    && plan.outputBudgetBytes <= manifest.limits.maximumOutputBytes
  }

  /** Evaluate and immediately re-validate, as consumption does. */
  predicate Accepts(env: Environment, evaluator: Evaluator, approval: ApprovalRequest, manifest: ActionManifest,
                    plan: ExecutionPlan, executionId: string, now: int)
  {
    var evaluation := Evaluate(env, evaluator, approval, manifest, plan, executionId, now);
    && evaluation.Ok?
    && ValidateEvaluation(env, evaluator, approval, manifest, plan, executionId, evaluation.value, now).None?
  }

  lemma NoEarlierSign(condition: string, n: int)
    requires FirstSign(condition, n)
    ensures forall k :: 0 <= k < n ==> condition[k] != '='
  {
    forall k | 0 <= k < n
      ensures condition[k] != '='
    {
      assert condition[..n][k] == condition[k];
    }
  }

  /**
    A condition as it is written: what stands before its first '=' is the name, what stands
    after it the value, and white space around either does not matter.  Without a '=' nothing
    is ever met.
   */
  lemma WrittenConditionMeans(env: Environment, name: string, value: string, plan: ExecutionPlan)
    requires '=' !in name
    ensures Meets(env, name + "=" + value, plan)
        <==> Stated(env, Strip(env.isSpace, name), Strip(env.isSpace, value), plan)
    ensures !Meets(env, name, plan)
  {
    var condition, n := name + "=" + value, |name|;
    assert condition[..n] == name && condition[n + 1..] == value;
    assert FirstSign(condition, n);
    forall m | FirstSign(condition, m)
      ensures m == n
    {
      NoEarlierSign(condition, n);
      NoEarlierSign(condition, m);
    }
  }

  /** Neither end of the text is white space. */
  predicate Trimmed(env: Environment, text: string) {
    text != "" ==> !env.isSpace(text[0]) && !env.isSpace(text[|text| - 1])
  }

  lemma TrimmedIsStripped(env: Environment, text: string)
    requires Trimmed(env, text)
    ensures Strip(env.isSpace, text) == text
  {
  }

  /** No letter and no underscore is white space. */
  predicate WordsHaveNoSpace(env: Environment) {
    forall c :: 'a' <= c <= 'z' || c == '_' ==> !env.isSpace(c)
  }

  lemma NamedConditionMeans(env: Environment, name: string, value: string, plan: ExecutionPlan)
    requires '=' !in name && Trimmed(env, name) && Trimmed(env, value)
    ensures Meets(env, name + "=" + value, plan) <==> Stated(env, name, value, plan)
  {
    TrimmedIsStripped(env, name);
    TrimmedIsStripped(env, value);
    WrittenConditionMeans(env, name, value, plan);
  }

  /** The three limits, each on its own budget. */
  lemma LimitsMean(env: Environment, value: string, plan: ExecutionPlan)
    requires WordsHaveNoSpace(env) && Trimmed(env, value)
    ensures var n := env.parseInt(value);
      && (Meets(env, "maximum_requests" + "=" + value, plan) <==> n.Some? && plan.requestBudget <= n.value)
      && (Meets(env, "maximum_runtime_seconds" + "=" + value, plan) <==>
            n.Some? && plan.runtimeBudgetSeconds <= n.value)
      && (Meets(env, "maximum_output_bytes" + "=" + value, plan) <==> n.Some? && plan.outputBudgetBytes <= n.value)
  {
    NamedConditionMeans(env, "maximum_requests", value, plan);
    NamedConditionMeans(env, "maximum_runtime_seconds", value, plan);
    NamedConditionMeans(env, "maximum_output_bytes", value, plan);
  }

  /** The target and the tool must be the plan's own. */
  lemma TargetAndToolMean(env: Environment, value: string, plan: ExecutionPlan)
    requires WordsHaveNoSpace(env) && Trimmed(env, value)
    ensures Meets(env, "permitted_target_id" + "=" + value, plan) <==> value in plan.targetIdentifiers
    ensures Meets(env, "permitted_tool" + "=" + value, plan) <==> plan.selectedTool == value
  {
    NamedConditionMeans(env, "permitted_target_id", value, plan);
    NamedConditionMeans(env, "permitted_tool", value, plan);
  }

  /** So must the profile and the adapter. */
  lemma ProfileAndAdapterMean(env: Environment, value: string, plan: ExecutionPlan)
    requires WordsHaveNoSpace(env) && Trimmed(env, value)
    ensures Meets(env, "permitted_profile" + "=" + value, plan) <==> plan.selectedProfile == value
    ensures Meets(env, "permitted_adapter" + "=" + value, plan) <==> plan.adapterIdentity == value
  {
    NamedConditionMeans(env, "permitted_profile", value, plan);
    NamedConditionMeans(env, "permitted_adapter", value, plan);
    assert "permitted_profile"[10] == 'p' && "permitted_adapter"[10] == 'a';
  }

  /** The two prohibitions. */
  lemma ProhibitionsMean(env: Environment, value: string, plan: ExecutionPlan)
    requires WordsHaveNoSpace(env) && Trimmed(env, value)
    ensures Meets(env, "no_credential_attempts" + "=" + value, plan) <==> Affirmed(value) && !plan.credentialAttempts
    ensures Meets(env, "no_destructive_checks" + "=" + value, plan) <==> Affirmed(value) && !plan.destructiveChecks
  {
    NamedConditionMeans(env, "no_credential_attempts", value, plan);
    NamedConditionMeans(env, "no_destructive_checks", value, plan);
  }

  /** The two conditions on everything the plan touches. */
  lemma BoundariesMean(env: Environment, value: string, plan: ExecutionPlan)
    requires WordsHaveNoSpace(env) && Trimmed(env, value)
    ensures Meets(env, "permitted_filesystem_path" + "=" + value, plan)
        <==> forall p :: p in plan.filesystemPaths ==> env.resolvePath(value) <= env.resolvePath(p)
    ensures Meets(env, "permitted_network_destination" + "=" + value, plan)
        <==> forall d :: d in plan.networkDestinations ==> d == value
  {
    NamedConditionMeans(env, "permitted_filesystem_path", value, plan);
    NamedConditionMeans(env, "permitted_network_destination", value, plan);
  }

  /** Every supported name is recognised as itself. */
  lemma KeysAreNames(name: string)
    ensures KeyOf(name) == KeyRequests <==> name == "maximum_requests"
    ensures KeyOf(name) == KeyRuntime <==> name == "maximum_runtime_seconds"
    ensures KeyOf(name) == KeyOutput <==> name == "maximum_output_bytes"
    ensures KeyOf(name) == KeyTarget <==> name == "permitted_target_id"
    ensures KeyOf(name) == KeyTool <==> name == "permitted_tool"
    ensures KeyOf(name) == KeyProfile <==> name == "permitted_profile"
    ensures KeyOf(name) == KeyNoCredentials <==> name == "no_credential_attempts"
    ensures KeyOf(name) == KeyNoDestruction <==> name == "no_destructive_checks"
    ensures KeyOf(name) == KeyPath <==> name == "permitted_filesystem_path"
    ensures KeyOf(name) == KeyDestination <==> name == "permitted_network_destination"
    ensures KeyOf(name) == KeyAdapter <==> name == "permitted_adapter"
  {
    assert "permitted_profile"[10] == 'p' && "permitted_adapter"[10] == 'a';
  }

  lemma ValueMeaning(env: Environment, name: string, value: string, plan: ExecutionPlan)
    ensures CheckValue(env, KeyOf(name), value, FactsOf(plan)).None? <==> Stated(env, name, value, plan)
  {
    KeysAreNames(name);
  }

  /** The check of one condition accepts it exactly when it is met. */
  lemma ConditionMeaning(env: Environment, condition: string, plan: ExecutionPlan)
    ensures CheckCondition(env, condition, FactsOf(plan)).None? <==> Meets(env, condition, plan)
  {
    var n := Find('=', condition);
    if n < |condition| {
      assert FirstSign(condition, n);
      ValueMeaning(env, Strip(env.isSpace, condition[..n]), Strip(env.isSpace, condition[n + 1..]), plan);
      forall m | FirstSign(condition, m)
        ensures m == n
      {
        NoEarlierSign(condition, n);
        NoEarlierSign(condition, m);
      }
    } else {
      assert condition[..n] == condition;
    }
  }

  lemma {:induction false} ConditionsMeaning(env: Environment, conditions: seq<string>, plan: ExecutionPlan)
    ensures ValidateConditions(env, conditions, FactsOf(plan)).None?
        <==> forall c :: c in conditions ==> Meets(env, c, plan)
  {
    if conditions != [] {
      ConditionMeaning(env, conditions[0], plan);
      ConditionsMeaning(env, conditions[1..], plan);
      assert forall c :: c in conditions <==> c == conditions[0] || c in conditions[1..];
    }
  }

  /**
    A conditional approval that has not expired is accepted exactly when the plan fits the
    approved manifest and every condition is met on its own.  A fresh evaluation is never
    turned away as stale or misbound.
   */
  lemma AcceptedExactlyWhenEveryConditionIsMet(
      env: Environment, evaluator: Evaluator, approval: ApprovalRequest, manifest: ActionManifest,
      plan: ExecutionPlan, executionId: string, now: int)
    requires 1 <= evaluator.validitySeconds <= 300 && now < approval.expiresAt
    ensures Accepts(env, evaluator, approval, manifest, plan, executionId, now)
        <==> PlanFits(env, approval, manifest, plan, executionId)
             && forall c :: c in approval.conditions ==> Meets(env, c, plan)
    ensures var evaluation := Evaluate(env, evaluator, approval, manifest, plan, executionId, now);
            evaluation.Ok? ==>
              ValidateEvaluation(env, evaluator, approval, manifest, plan, executionId, evaluation.value, now)
                == ValidateConditions(env, approval.conditions, FactsOf(plan))
  {
    ConditionsMeaning(env, approval.conditions, plan);
  }

  /** However long evaluations stay valid, an accepted plan fits the manifest and meets every condition. */
  lemma AcceptedPlansMeetConditions(
      env: Environment, evaluator: Evaluator, approval: ApprovalRequest, manifest: ActionManifest,
      plan: ExecutionPlan, executionId: string, now: int)
    requires Accepts(env, evaluator, approval, manifest, plan, executionId, now)
    ensures PlanFits(env, approval, manifest, plan, executionId)
    ensures forall c :: c in approval.conditions ==> Meets(env, c, plan)
  {
    ConditionsMeaning(env, approval.conditions, plan);
  }

  /** Acceptance does not depend on the order of the conditions, and more conditions never widen it. */
  lemma MoreConditionsNeverWiden(
      env: Environment, evaluator: Evaluator, approval: ApprovalRequest, conditions: seq<string>,
      manifest: ActionManifest, plan: ExecutionPlan, executionId: string, now: int)
    requires 1 <= evaluator.validitySeconds <= 300 && now < approval.expiresAt
    requires multiset(approval.conditions) <= multiset(conditions)
    ensures Accepts(env, evaluator, approval.(conditions := conditions), manifest, plan, executionId, now)
        ==> Accepts(env, evaluator, approval, manifest, plan, executionId, now)
    ensures multiset(approval.conditions) == multiset(conditions)
        ==> (Accepts(env, evaluator, approval.(conditions := conditions), manifest, plan, executionId, now)
             <==> Accepts(env, evaluator, approval, manifest, plan, executionId, now))
  {
    AcceptedExactlyWhenEveryConditionIsMet(env, evaluator, approval, manifest, plan, executionId, now);
    AcceptedExactlyWhenEveryConditionIsMet(
      env, evaluator, approval.(conditions := conditions), manifest, plan, executionId, now);
    assert forall c :: c in approval.conditions ==> c in multiset(approval.conditions);
    assert forall c :: c in conditions <==> c in multiset(conditions);
  }
}
