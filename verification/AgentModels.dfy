/** Immutable models of the bounded agent runtime and the rules for one persisted task update. */
module AgentModels {
  import opened Common
  import Approvals = ApprovalModels

  datatype TaskStatus =
    | Created | Running | PausedApproval | PausedBudget | PausedOperator
    | Blocked | Failed | Completed | Cancelled | TimedOut

  predicate Terminal(status: TaskStatus) {
    status in {Blocked, Failed, Completed, Cancelled, TimedOut}
  }

  function NextStatuses(status: TaskStatus): set<TaskStatus> {
    match status
    case Created => {Created, Running, PausedOperator, Cancelled, TimedOut}
    case Running =>
      {Running, PausedApproval, PausedBudget, PausedOperator, Blocked, Failed, Completed, Cancelled, TimedOut}
    case PausedApproval => {PausedApproval, Running, Blocked, Cancelled, TimedOut}
    case PausedBudget => {PausedBudget, Running, PausedOperator, Cancelled, TimedOut}
    case PausedOperator => {PausedOperator, Running, Cancelled, TimedOut}
    case _ => {}
  }

  datatype ToolRisk = ReadOnly | LocalWrite | Network | Connector | Secrets | GitWrite | Deployment

  datatype RuntimeConfig = RuntimeConfig(maxControllerIterations: nat, globalDeniedActions: seq<string>)

  datatype PermissionManifest = PermissionManifest(
    roleId: string, skillId: Option<string>,
    allowedActions: seq<string>, allowedTools: seq<string>, allowedRisks: seq<ToolRisk>,
    approvalRequiredActions: seq<string>,
    maxSteps: nat, maxToolCalls: nat, maxIdenticalFailures: nat, maximumRuntimeSeconds: nat,
    allowNetwork: bool, allowConnectors: bool, allowSecrets: bool, allowGitWrite: bool, allowDeployment: bool,
    expiresAt: Option<int>)

  /** The limits every accepted manifest respects. */
  predicate ManifestIsValid(m: PermissionManifest) {
    1 <= m.maxSteps <= 500 && 1 <= m.maxToolCalls <= 500 && 1 <= m.maxIdenticalFailures <= 10
  }

  /** The approval inputs bound to one agent task. */
  datatype ApprovalBinding = ApprovalBinding(
    requestId: string, executionId: string, consumerActorId: string,
    manifest: Approvals.ActionManifest, plan: Approvals.ExecutionPlan)

  datatype ToolSpec = ToolSpec(toolId: string, action: string, operation: string, risk: ToolRisk, retryableErrors: bool)

  datatype ToolCall = ToolCall(
    toolId: string, action: string, operation: string, arguments: string, approvalReference: Option<string>)

  datatype Proposal = UseTool(call: ToolCall) | Finish(finalSummary: string) | Pause(pauseReason: string)

  datatype ToolResult = ToolResult(
    success: bool, output: string, errorType: string, errorMessage: string, retryable: bool)

  datatype Memory = Memory(
    plannerCursor: nat,
    pendingProposal: Option<Proposal>,
    approvedPendingCall: Option<string>,
    consumedApproval: Option<string>,
    lastToolOutput: Option<string>)

  datatype AgentTask = AgentTask(
    taskId: string, objective: string, status: TaskStatus, manifest: PermissionManifest,
    binding: Option<ApprovalBinding>,
    stepCount: nat, toolCallCount: nat, revision: nat,
    failureCounts: map<string, nat>, memory: Memory, finalSummary: Option<string>,
    createdAt: int, updatedAt: int, deadlineAt: int)
  {
    predicate IsTerminal() { Terminal(status) }

    predicate DeadlineExpired(now: int) { now >= deadlineAt }

    /** A proposal waits for approval and the approval has been recorded. */
    predicate ReplayReady() {
      && memory.pendingProposal.Some? && memory.pendingProposal.value.UseTool?
      && Approvals.Present(memory.approvedPendingCall)
    }

    function Failures(fingerprint: string): nat {
      if fingerprint in failureCounts then failureCounts[fingerprint] else 0
    }
  }

  function NewTask(taskId: string, objective: string, manifest: PermissionManifest, binding: Option<ApprovalBinding>,
                   createdAt: int): AgentTask
  {
    AgentTask(taskId, objective, Created, manifest, binding, 0, 0, 0, map[], Memory(0, None, None, None, None), None,
              createdAt, createdAt, createdAt + manifest.maximumRuntimeSeconds)
  }

  predicate SameIdentity(a: AgentTask, b: AgentTask) {
    && a.taskId == b.taskId && a.objective == b.objective && a.manifest == b.manifest && a.binding == b.binding
    && a.createdAt == b.createdAt && a.deadlineAt == b.deadlineAt
  }

  /** The rule every persisted update must satisfy against the snapshot it replaces. */
  predicate ValidUpdate(previous: AgentTask, next: AgentTask) {
    && SameIdentity(previous, next)
    && !previous.IsTerminal()
    && next.status in NextStatuses(previous.status)
    && next.revision == previous.revision + 1
    && previous.updatedAt <= next.updatedAt
    && previous.stepCount <= next.stepCount
    && previous.toolCallCount <= next.toolCallCount
  }

  /** A change the rule accepts, provided the clock has not run backwards. */
  predicate Admissible(task: AgentTask, changed: AgentTask) {
    && SameIdentity(task, changed)
    && !task.IsTerminal()
    && changed.status in NextStatuses(task.status)
    && task.stepCount <= changed.stepCount
    && task.toolCallCount <= changed.toolCallCount
  }

  /** A copy with changes, one revision later. */
  function Evolve(task: AgentTask, changed: AgentTask, now: int): AgentTask {
    changed.(revision := task.revision + 1, updatedAt := now)
  }

  // The changes the controller makes between two saves.

  function WithStatus(task: AgentTask, status: TaskStatus): AgentTask {
    task.(status := status)
  }

  function Advanced(task: AgentTask): AgentTask {
    task.(stepCount := task.stepCount + 1, memory := task.memory.(plannerCursor := task.memory.plannerCursor + 1))
  }

  function Popped(task: AgentTask): AgentTask {
    task.(memory := task.memory.(pendingProposal := None, approvedPendingCall := None))
  }

  function AwaitingApproval(task: AgentTask, proposal: Proposal): AgentTask {
    task.(status := PausedApproval, memory := task.memory.(pendingProposal := Some(proposal)))
  }

  function ApprovalRecorded(task: AgentTask, reference: string): AgentTask {
    task.(status := Running,
          memory := task.memory.(approvedPendingCall := Some(reference), consumedApproval := Some(reference)))
  }

  function CallCounted(task: AgentTask): AgentTask {
    task.(toolCallCount := task.toolCallCount + 1)
  }

  function OutputRemembered(task: AgentTask, result: ToolResult): AgentTask {
    task.(memory := task.memory.(lastToolOutput := Some(result.output)))
  }

  function FailureCounted(task: AgentTask, fingerprint: string): AgentTask {
    task.(failureCounts := task.failureCounts[fingerprint := task.Failures(fingerprint) + 1])
  }

  function Finished(task: AgentTask, summary: string): AgentTask {
    task.(status := Completed, finalSummary := Some(summary))
  }

  /** The pending call, carrying the recorded approval. */
  function Approved(proposal: Proposal, reference: string): Proposal
    requires proposal.UseTool?
  {
    UseTool(proposal.call.(approvalReference := Some(reference)))
  }

  // Deterministic evaluation of tool results.

  datatype EvaluationStatus = Continue | Retry | Fail

  datatype Evaluation = Evaluation(status: EvaluationStatus, fingerprint: Option<string>)

  datatype FailureMaterial = FailureMaterial(
    toolId: string, action: string, operation: string, errorType: string, errorMessage: string)

  function Evaluate(digest: FailureMaterial -> string, call: ToolCall, result: ToolResult): Evaluation {
    if result.success then Evaluation(Continue, None)
    else
      var fingerprint :=
        digest(FailureMaterial(call.toolId, call.action, call.operation, result.errorType, result.errorMessage));
      Evaluation(if result.retryable then Retry else Fail, Some(fingerprint))
  }
}
