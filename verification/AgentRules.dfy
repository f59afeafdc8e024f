/**
  The accounting behind the controller loop, stated on values: a task, what its log replays
  to, and the iterations spent on it.  One lemma per kind of loop step.
 */
module AgentRules {
  import opened Common
  import opened AgentModels
  import opened AuditTable
  import opened AuditReplay
  import Policy = AgentPolicy
  import Approvals = ApprovalModels
  import Ledger = ApprovalLedger

  datatype Planner = Playbook(proposals: seq<Proposal>) | AnyPlanner

  /** `exact` is false once some call failed part-way; `denied` are the globally denied actions. */
  datatype Snap = Snap(task: AgentTask, book: Book, iterations: nat, exact: bool, denied: seq<string>)

  function Flag(b: bool): nat { if b then 1 else 0 }

  /**
    A call that may be executed once `granted` has been granted: its action and tool are allowed
    and not globally denied, and a gated action carries a granted reference of the bound request,
    for exactly the approved action.
   */
  predicate Covered(denied: seq<string>, task: AgentTask, call: ToolCall, granted: set<Grant>) {
    && call.action in task.manifest.allowedActions && call.action !in denied
    && call.toolId in task.manifest.allowedTools
    && (call.action in task.manifest.approvalRequiredActions ==>
          && task.binding.Some? && call.approvalReference.Some?
          && Grant(task.binding.value.requestId, call.approvalReference.value) in granted
          && var approved := task.binding.value.manifest;
             call.action == approved.action && call.toolId == approved.toolId && call.operation == approved.operation)
  }

  /** Both budgets have room for the call, and what was granted so far covers it. */
  ghost predicate Callable(s: Snap, call: ToolCall) {
    && s.task.stepCount <= s.task.manifest.maxSteps && s.task.toolCallCount < s.task.manifest.maxToolCalls
    && Covered(s.denied, s.task, call, s.book.granted)
  }

  /** Every executed call was covered, and a reference the task remembers was granted to its binding. */
  ghost predicate Governed(s: Snap) {
    && (forall e :: e in s.book.executed ==> Covered(s.denied, s.task, e.call, e.granted))
    && (s.task.memory.consumedApproval.Some? ==>
          && s.task.binding.Some?
          && Grant(s.task.binding.value.requestId, s.task.memory.consumedApproval.value) in s.book.granted)
  }

  /** The budgets hold, and every executed call was covered, even after calls that failed part-way. */
  ghost predicate Sound(s: Snap) {
    && Governed(s)
    && ManifestIsValid(s.task.manifest)
    && s.task.toolCallCount <= s.task.manifest.maxToolCalls
    && s.task.toolCallCount + Flag(s.task.memory.pendingProposal.Some?) <= s.task.stepCount <= s.book.view.steps
    && s.book.view.toolCalls <= s.task.toolCallCount
  }

  /** No failure has been seen often enough to stop the task. */
  ghost predicate BelowFailureLimit(task: AgentTask) {
    forall f :: f in task.failureCounts ==> task.failureCounts[f] < task.manifest.maxIdenticalFailures
  }

  /** The log determines the task. */
  ghost predicate Settled(s: Snap) {
    ViewOf(s.task) == s.book.view
  }

  /** The log determines the task up to its status, which only the next event will fix. */
  ghost predicate Matches(s: Snap) {
    ViewOf(s.task) == s.book.view.(status := s.task.status)
  }

  /** The planner's proposals so far are the first entries of the playbook, in order. */
  ghost predicate FollowsPlaybook(planner: Planner, s: Snap) {
    && s.task.memory.plannerCursor == s.task.stepCount == |s.book.proposed|
    && (planner.Playbook? ==> s.book.proposed <= planner.proposals)
  }

  /** Every iteration but the last took a step or replayed a pending call, unless an operator paused it. */
  ghost predicate IterationsPaid(s: Snap, slack: int) {
    s.iterations + Flag(s.task.memory.pendingProposal.Some?) <= 2 * s.task.stepCount + s.book.pauses + slack
  }

  /** Only a pause by the planner lets the loop go on with a step beyond the budget. */
  ghost predicate StepsWithin(s: Snap, slack: int) {
    s.task.stepCount <= s.task.manifest.maxSteps + s.book.plannerPauses + slack
  }

  /** What holds of a task between two calls. */
  ghost predicate Resting(planner: Planner, s: Snap) {
    && Sound(s)
    && (s.exact ==>
          && Settled(s)
          && (!s.task.IsTerminal() ==> BelowFailureLimit(s.task))
          && FollowsPlaybook(planner, s)
          && IterationsPaid(s, Flag(s.task.IsTerminal()))
          && StepsWithin(s, Flag(s.task.IsTerminal())))
  }

  /** What holds inside a call, before the event that fixes the next status. */
  ghost predicate Afoot(planner: Planner, s: Snap, slack: int) {
    && Sound(s) && !s.task.IsTerminal()
    && (s.exact ==> Matches(s) && BelowFailureLimit(s.task) && FollowsPlaybook(planner, s) && IterationsPaid(s, slack))
  }

  ghost predicate Live(planner: Planner, s: Snap, slack: int) {
    Afoot(planner, s, slack) && (s.exact ==> StepsWithin(s, 0))
  }

  ghost predicate InLoop(planner: Planner, s: Snap, slack: int) {
    Live(planner, s, slack) && s.task.status == Running
  }

  /** A step has been taken for this proposal and not been spent on a tool call yet. */
  ghost predicate HoldsStep(planner: Planner, s: Snap, proposal: Proposal) {
    && Afoot(planner, s, if ReferenceGiven(proposal) then 0 else -1) && s.task.status == Running
    && (s.exact ==> StepsWithin(s, 1))
    && s.task.toolCallCount + Flag(s.task.memory.pendingProposal.Some?) < s.task.stepCount
    && (s.exact ==> s.book.last == Some(proposal))
  }

  predicate ReferenceGiven(proposal: Proposal) {
    proposal.UseTool? && Approvals.Present(proposal.call.approvalReference)
  }

  function Noted(s: Snap, payload: AuditPayload): Snap {
    s.(book := Record(s.book, payload))
  }

  ghost predicate SavedAs(task: AgentTask, changed: AgentTask, saved: AgentTask) {
    saved == changed.(revision := task.revision + 1, updatedAt := saved.updatedAt)
  }

  lemma UnsureRests(planner: Planner, s: Snap)
    requires Sound(s) && !s.exact
    ensures Resting(planner, s)
  {
  }

  lemma SavedRests(planner: Planner, s: Snap, task: AgentTask, changed: AgentTask, saved: AgentTask)
    requires Resting(planner, s.(task := changed)) && SavedAs(task, changed, saved)
    ensures Resting(planner, s.(task := saved))
  {
  }

  lemma SavedLoops(planner: Planner, s: Snap, task: AgentTask, changed: AgentTask, saved: AgentTask)
    requires InLoop(planner, s.(task := changed), 0) && SavedAs(task, changed, saved)
    ensures InLoop(planner, s.(task := saved), 0)
  {
  }

  /** A resting task that is not terminal can be picked up by the loop. */
  lemma PickedUp(planner: Planner, s: Snap, changed: AgentTask, saved: AgentTask)
    requires Resting(planner, s) && !s.task.IsTerminal()
    requires changed == WithStatus(s.task, Running) && SavedAs(s.task, changed, saved)
    ensures Live(planner, s, 0)
    ensures InLoop(planner, s.(task := saved), 0)
  {
  }

  lemma RestingIsLive(planner: Planner, s: Snap)
    requires Resting(planner, s) && !s.task.IsTerminal()
    ensures Live(planner, s, 0) && Live(planner, s, 1)
  {
  }

  lemma NewTaskRests(planner: Planner, taskId: string, objective: string, manifest: PermissionManifest,
                     binding: Option<ApprovalBinding>, now: int, denied: seq<string>)
    requires ManifestIsValid(manifest)
    ensures Resting(planner,
        Noted(Snap(NewTask(taskId, objective, manifest, binding, now), EMPTY_BOOK, 0, true, denied), TaskCreated))
  {
  }

  lemma ResumeRests(planner: Planner, s: Snap, saved: AgentTask)
    requires Resting(planner, s) && s.task.status == PausedOperator
    requires SavedAs(s.task, WithStatus(s.task, Running), saved)
    ensures Resting(planner, Noted(s, OperatorResumed).(task := saved))
  {
  }

  /** An event that only fixes the status closes the task at that status. */
  lemma StatusCloses(planner: Planner, s: Snap, status: TaskStatus, payload: AuditPayload)
    requires Sound(s) && !s.task.IsTerminal()
    requires s.exact ==> Matches(s) && FollowsPlaybook(planner, s)
    requires s.exact && Terminal(status) ==> IterationsPaid(s, 1)
    requires s.exact && !Terminal(status) ==>
      IterationsPaid(s, Record(s.book, payload).pauses - s.book.pauses) && BelowFailureLimit(s.task)
    requires s.exact ==>
        StepsWithin(s, Flag(Terminal(status)) + Record(s.book, payload).plannerPauses - s.book.plannerPauses)
    requires var b := Record(s.book, payload);
             && b == s.book.(view := s.book.view.(status := status), pauses := b.pauses,
                             plannerPauses := b.plannerPauses, log := b.log)
             && b.pauses >= s.book.pauses && b.plannerPauses >= s.book.plannerPauses
    ensures Resting(planner, Noted(s, payload).(task := WithStatus(s.task, status)))
  {
  }

  lemma FinishCloses(planner: Planner, s: Snap, summary: string)
    requires Afoot(planner, s, 1) && (s.exact ==> StepsWithin(s, 1))
    ensures Resting(planner, Noted(s, TaskFinished(summary)).(task := Finished(s.task, summary)))
  {
  }

  /** A planner proposal costs one step and one playbook entry. */
  lemma StepTaken(planner: Planner, s: Snap, proposal: Proposal, saved: AgentTask)
    requires InLoop(planner, s, 1)
    requires planner.Playbook? ==> Policy.NextInPlaybook(planner.proposals, s.task) == Some(proposal)
    requires SavedAs(s.task, Advanced(s.task), saved)
    ensures HoldsStep(planner, Noted(s, PlannerProposed(proposal)).(task := saved), proposal)
  {
    if s.exact && planner.Playbook? {
      var n := s.task.stepCount;
      assert s.book.proposed == planner.proposals[..n];
      assert s.book.proposed + [proposal] == planner.proposals[..n + 1];
    }
  }

  /** Replaying an approved call spends the step its proposal once cost. */
  lemma ReplayTaken(planner: Planner, s: Snap, proposal: Proposal, saved: AgentTask)
    requires InLoop(planner, s, 1) && s.task.ReplayReady() && ReferenceGiven(proposal)
    requires SavedAs(s.task, Popped(s.task), saved)
    ensures HoldsStep(planner, Noted(s, ApprovalResumed(proposal)).(task := saved), proposal)
  {
  }

  /** The policy's answer leaves the step in hand, unless it denies the call. */
  lemma PolicyAnswered(planner: Planner, s: Snap, proposal: Proposal, decision: Policy.PolicyDecision)
    requires HoldsStep(planner, s, proposal)
    ensures decision.Denied? ==>
      Resting(planner, Noted(s, PolicyDecided(decision)).(task := WithStatus(s.task, Blocked)))
    ensures !decision.Denied? ==> HoldsStep(planner, Noted(s, PolicyDecided(decision)), proposal)
    ensures proposal.UseTool? && Callable(s, proposal.call) ==>
      Callable(Noted(s, PolicyDecided(decision)), proposal.call)
  {
  }

  /** An allowed call is within the budgets and covered by what has been granted so far. */
  lemma AllowedIsCallable(config: RuntimeConfig, s: Snap, call: ToolCall, spec: Option<ToolSpec>, now: int)
    requires Sound(s) && s.denied == config.globalDeniedActions
    requires Policy.Decide(config, s.task, call, spec, now).Allowed?
    ensures Callable(s, call)
  {
    Policy.DecidesExactly(config, s.task, call, spec, now);
  }

  /** The step in hand moves into the pending proposal. */
  lemma ApprovalAwaited(planner: Planner, s: Snap, proposal: Proposal)
    requires HoldsStep(planner, s, proposal) && !ReferenceGiven(proposal)
    requires s.task.stepCount <= s.task.manifest.maxSteps
    ensures Resting(planner, Noted(s, ApprovalRequired).(task := AwaitingApproval(s.task, proposal)))
  {
  }

  lemma ExecutedIsGoverned(s: Snap, call: ToolCall, result: ToolResult, evaluation: Evaluation)
    requires Governed(s) && Covered(s.denied, s.task, call, s.book.granted)
    ensures Governed(Noted(Noted(s, ToolExecuted(call, result)), ResultEvaluated(evaluation)))
  {
  }

  /** A counted call spends the step in hand; the three evaluations close the books differently. */
  lemma CallSpent(planner: Planner, s: Snap, call: ToolCall, result: ToolResult, digest: FailureMaterial -> string,
                  counted: AgentTask)
    requires HoldsStep(planner, s, UseTool(call)) && Callable(s, call)
    requires SavedAs(s.task, CallCounted(s.task), counted)
    ensures Evaluable(planner, Noted(s.(task := counted), ToolExecuted(call, result)), result,
                      Evaluate(digest, call, result))
  {
    var paid := s.(task := counted);
    assert Governed(paid);
    ExecutedIsGoverned(paid, call, result, Evaluate(digest, call, result));
  }

  /** A call has been counted and logged; what its evaluation leads to keeps the accounts. */
  ghost predicate Evaluable(planner: Planner, s: Snap, result: ToolResult, evaluation: Evaluation) {
    Sound(s) && Settleable(planner, Noted(s, ResultEvaluated(evaluation)), result, evaluation)
  }

  ghost predicate Settleable(planner: Planner, s: Snap, result: ToolResult, evaluation: Evaluation) {
    && Sound(s)
    && (evaluation.status == Continue <==> result.success)
    && (evaluation.status == Retry ==> evaluation.fingerprint.Some?)
    && match evaluation.status
       case Continue => InLoop(planner, s.(task := OutputRemembered(s.task, result)), 0)
       case Retry => FailureSeen(planner, s, evaluation.fingerprint.value)
       case Fail => Resting(planner, s.(task := WithStatus(s.task, Failed)))
  }

  /** A retryable failure has been logged but not counted in the task yet. */
  ghost predicate FailureSeen(planner: Planner, s: Snap, fingerprint: string) {
    && Sound(s) && s.task.status == Running
    && (s.exact ==>
          && Matches(s.(task := FailureCounted(s.task, fingerprint)))
          && BelowFailureLimit(s.task) && FollowsPlaybook(planner, s) && IterationsPaid(s, 0) && StepsWithin(s, 0))
  }

  lemma FailureIsCounted(planner: Planner, s: Snap, fingerprint: string, saved: AgentTask)
    requires FailureSeen(planner, s, fingerprint)
    requires SavedAs(s.task, FailureCounted(s.task, fingerprint), saved)
    ensures Sound(s.(task := saved)) && FailureWasCounted(planner, s.(task := saved), fingerprint)
  {
  }

  /** Below the limit the loop goes on; at the limit the task can be closed. */
  ghost predicate FailureWasCounted(planner: Planner, s: Snap, fingerprint: string) {
    && var count := s.task.Failures(fingerprint);
    && (count < s.task.manifest.maxIdenticalFailures ==> InLoop(planner, s, 0))
    && Resting(planner, Noted(s, RecoveryStopped(fingerprint, count)).(task := WithStatus(s.task, Blocked)))
  }

  lemma OperatorStopRests(planner: Planner, s: Snap, status: TaskStatus, payload: AuditPayload, saved: AgentTask)
    requires Live(planner, s, 1) && SavedAs(s.task, WithStatus(s.task, status), saved)
    requires (status == Cancelled && payload == TaskCancelled) ||
        (status == PausedOperator && payload == OperatorPaused)
    ensures Resting(planner, Noted(s.(task := saved), payload))
  {
    StatusCloses(planner, s, status, payload);
    SavedRests(planner, Noted(s, payload), s.task, WithStatus(s.task, status), saved);
  }

  lemma ApprovalRests(planner: Planner, s: Snap, requestId: string, reference: string, saved: AgentTask)
    requires Resting(planner, s) && s.task.status == PausedApproval
    requires s.task.binding.Some? && s.task.binding.value.requestId == requestId
    requires SavedAs(s.task, ApprovalRecorded(s.task, reference), saved)
    ensures Resting(planner, Noted(s, ApprovalLogged(requestId, reference)).(task := saved))
  {
  }

  /** A binding is accepted only for this task and inside its permissions. */
  predicate BindingFits(manifest: PermissionManifest, binding: ApprovalBinding, taskId: string) {
    && binding.executionId == taskId
    && binding.manifest.roleId == manifest.roleId
    && Some(binding.manifest.skillId) == manifest.skillId
    && binding.manifest.action in manifest.allowedActions
    && binding.manifest.toolId in manifest.allowedTools
    && binding.plan.runtimeBudgetSeconds <= manifest.maximumRuntimeSeconds
  }

  /** A missing or zero limit means the configured one; no limit exceeds it. */
  function IterationLimit(config: RuntimeConfig, maxIterations: Option<int>): (limit: int)
    ensures limit <= config.maxControllerIterations
    ensures maxIterations in {None, Some(0)} ==> limit == config.maxControllerIterations
    ensures forall n :: maxIterations == Some(n) && n != 0 && n <= config.maxControllerIterations ==> limit == n
  {
    var wanted := if maxIterations.None? || maxIterations.value == 0 then config.maxControllerIterations
                  else maxIterations.value;
    if wanted < config.maxControllerIterations then wanted else config.maxControllerIterations
  }

  /** What a task asks the approval centre to consume. */
  function BindingConsumption(env: Approvals.Environment, binding: ApprovalBinding, now: int, occurredAt: int)
    : Ledger.Consumption
  {
    Ledger.Consumption(binding.requestId, env.manifestDigest(binding.manifest), binding.executionId,
                       binding.consumerActorId, now, Some(binding.manifest), Some(binding.plan), occurredAt)
  }
}
