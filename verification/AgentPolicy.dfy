/** The fail-closed policy engine, the tool registry and the sequence planner. */
module AgentPolicy {
  import opened Common
  import opened AgentModels
  import Approvals = ApprovalModels

  datatype DenialReason =
    | NotRegistered | ManifestExpired | StepBudget | CallBudget | GloballyDenied
    | ActionNotAllowed | ToolNotAllowed | OtherTool | OtherAction | OtherOperation
    | RiskNotAllowed | CapabilityDisabled | UntrustedReference | NoBinding | OtherApprovedAction

  datatype PolicyDecision = Allowed | Denied(reason: DenialReason) | RequiresApproval

  /** Connectors are disabled by configuration, whatever the manifest says. */
  predicate CapabilityEnabled(manifest: PermissionManifest, risk: ToolRisk) {
    match risk
    case Network => manifest.allowNetwork
    case Connector => false
    case Secrets => manifest.allowSecrets
    case GitWrite => manifest.allowGitWrite
    case Deployment => manifest.allowDeployment
    case _ => true
  }

  function Decide(config: RuntimeConfig, task: AgentTask, call: ToolCall, spec: Option<ToolSpec>, now: int)
    : PolicyDecision
  {
    var manifest := task.manifest;
    if spec.None? then Denied(NotRegistered)
    else if manifest.expiresAt.Some? && now >= manifest.expiresAt.value then Denied(ManifestExpired)
    else if task.stepCount > manifest.maxSteps then Denied(StepBudget)
    else if task.toolCallCount >= manifest.maxToolCalls then Denied(CallBudget)
    else if call.action in config.globalDeniedActions then Denied(GloballyDenied)
    else if call.action !in manifest.allowedActions then Denied(ActionNotAllowed)
    else if call.toolId !in manifest.allowedTools then Denied(ToolNotAllowed)
    else if call.toolId != spec.value.toolId then Denied(OtherTool)
    else if call.action != spec.value.action then Denied(OtherAction)
    else if call.operation != spec.value.operation then Denied(OtherOperation)
    else if spec.value.risk !in manifest.allowedRisks then Denied(RiskNotAllowed)
    else if !CapabilityEnabled(manifest, spec.value.risk) then Denied(CapabilityDisabled)
    else if call.action in manifest.approvalRequiredActions then DecideApproval(task, call)
    else Allowed
  }

  function DecideApproval(task: AgentTask, call: ToolCall): PolicyDecision {
    if !Approvals.Present(call.approvalReference) then RequiresApproval
    else if call.approvalReference != task.memory.consumedApproval then Denied(UntrustedReference)
    else if task.binding.None? then Denied(NoBinding)
    else if !SameAction(task.binding.value.manifest, call) then Denied(OtherApprovedAction)
    else Allowed
  }

  predicate SameAction(manifest: Approvals.ActionManifest, call: ToolCall) {
    call.action == manifest.action && call.toolId == manifest.toolId && call.operation == manifest.operation
  }

  predicate Gated(task: AgentTask, call: ToolCall) {
    call.action in task.manifest.approvalRequiredActions
  }

  /** What a handler did when it was called. */
  datatype HandlerOutcome =
    | Returned(output: string) | Raised(errorType: string, message: string, retryable: Option<bool>)

  /**
    Every handler error becomes a failed result.  An error with an empty message cannot be
    represented as a result, so it escapes to the caller.
   */
  function Normalize(spec: ToolSpec, outcome: HandlerOutcome): Option<ToolResult> {
    match outcome
    case Returned(output) => Some(ToolResult(true, output, "", "", false))
    case Raised(errorType, message, retryable) =>
      if message == "" then None
      else
        var retry := if retryable.Some? then retryable.value else spec.retryableErrors;
        Some(ToolResult(false, "", errorType, message, retry))
  }

  class ToolRegistry {
    var tools: map<string, ToolSpec>

    /** Tools are stored under their own identifier. */
    ghost predicate Valid()
      reads this
    {
      forall id :: id in tools ==> tools[id].toolId == id
    }

    constructor ()
      ensures Valid() && tools == map[]
    {
      tools := map[];
    }

    /** A registered tool is never replaced. */
    method Register(spec: ToolSpec) returns (ok: bool)
      requires Valid()
      modifies this
      ensures Valid()
      ensures ok <==> spec.toolId !in old(tools)
      ensures tools == if ok then old(tools)[spec.toolId := spec] else old(tools)
    {
      if spec.toolId in tools {
        return false;
      }
      tools := tools[spec.toolId := spec];
      ok := true;
    }

    method Get(toolId: string) returns (spec: Option<ToolSpec>)
      ensures spec == Lookup(tools, toolId)
    {
      spec := if toolId in tools then Some(tools[toolId]) else None;
    }
  }

  function Lookup(tools: map<string, ToolSpec>, toolId: string): Option<ToolSpec> {
    if toolId in tools then Some(tools[toolId]) else None
  }

  /** The registry's own check before it calls a handler. */
  predicate CallMatchesSpec(spec: Option<ToolSpec>, call: ToolCall) {
    spec.Some? && call.action == spec.value.action && call.operation == spec.value.operation
  }

  /**
    What an allowed call may rely on: both budgets have room, the manifest has not expired,
    action, tool and risk are all allowed and no denial list names the action, the registered
    declaration is the one called, and a gated action carries the reference this task's own
    consumption produced, for exactly the approved action.
   */
  lemma AllowedCallsAreCovered(
      config: RuntimeConfig, task: AgentTask, call: ToolCall, spec: Option<ToolSpec>, now: int)
    requires Decide(config, task, call, spec, now) == Allowed
    ensures task.stepCount <= task.manifest.maxSteps && task.toolCallCount < task.manifest.maxToolCalls
    ensures task.manifest.expiresAt.Some? ==> now < task.manifest.expiresAt.value
    ensures call.action in task.manifest.allowedActions && call.action !in config.globalDeniedActions
    ensures call.toolId in task.manifest.allowedTools
    ensures CallMatchesSpec(spec, call) && spec.value.toolId == call.toolId
    ensures spec.value.risk in task.manifest.allowedRisks && CapabilityEnabled(task.manifest, spec.value.risk)
    ensures spec.value.risk != Connector
    ensures Gated(task, call) ==>
      && Approvals.Present(call.approvalReference) && call.approvalReference == task.memory.consumedApproval
      && task.binding.Some? && SameAction(task.binding.value.manifest, call)
  {
  }

  /** Everything the policy asks of a call besides approval. */
  predicate WithinLimits(config: RuntimeConfig, task: AgentTask, call: ToolCall, spec: Option<ToolSpec>, now: int) {
    var m := task.manifest;
    && spec.Some? && spec.value.toolId == call.toolId
    && spec.value.action == call.action && spec.value.operation == call.operation
    && (m.expiresAt.Some? ==> now < m.expiresAt.value)
    && task.stepCount <= m.maxSteps && task.toolCallCount < m.maxToolCalls
    && call.action in m.allowedActions && call.action !in config.globalDeniedActions && call.toolId in m.allowedTools
    && spec.value.risk in m.allowedRisks && spec.value.risk != Connector
    && (spec.value.risk == Network ==> m.allowNetwork) && (spec.value.risk == Secrets ==> m.allowSecrets)
    && (spec.value.risk == GitWrite ==> m.allowGitWrite) && (spec.value.risk == Deployment ==> m.allowDeployment)
  }

  /** The call carries the reference this task's own consumption produced, for exactly the approved action. */
  predicate Approved(task: AgentTask, call: ToolCall) {
    && Approvals.Present(call.approvalReference) && call.approvalReference == task.memory.consumedApproval
    && task.binding.Some?
    && var m := task.binding.value.manifest;
    && call.action == m.action && call.toolId == m.toolId && call.operation == m.operation
  }

  /**
    The policy's answers, each with its exact condition: a call within the limits is allowed when
    it needs no approval or has it, must wait when it needs one and brings no reference, and
    everything else is denied.
   */
  lemma DecidesExactly(config: RuntimeConfig, task: AgentTask, call: ToolCall, spec: Option<ToolSpec>, now: int)
    ensures var decision := Decide(config, task, call, spec, now);
            var gated := call.action in task.manifest.approvalRequiredActions;
            var within := WithinLimits(config, task, call, spec, now);
      && (decision.Allowed? <==> within && (gated ==> Approved(task, call)))
      && (decision.RequiresApproval? <==> within && gated && !Approvals.Present(call.approvalReference))
      && (decision.Denied? <==>
            !within || (gated && Approvals.Present(call.approvalReference) && !Approved(task, call)))
  {
  }

  /** A call that is not denied has been taken within the step budget. */
  lemma UndeniedCallsAreWithinSteps(
      config: RuntimeConfig, task: AgentTask, call: ToolCall, spec: Option<ToolSpec>, now: int)
    requires !Decide(config, task, call, spec, now).Denied?
    ensures task.stepCount <= task.manifest.maxSteps
  {
  }

  /** A playbook planner: the next entry is the one the task's cursor points at. */
  function NextInPlaybook(playbook: seq<Proposal>, task: AgentTask): Option<Proposal> {
    if task.memory.plannerCursor < |playbook| then Some(playbook[task.memory.plannerCursor]) else None
  }
}
