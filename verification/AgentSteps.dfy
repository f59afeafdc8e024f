/**
  The controller as a state machine: one step of one API call is one read, one guarded
  write, one event insert, one planner or handler call, or one approval transaction.

  A runner is one API call in flight.  Everything it cannot control (clock, planner, handler,
  whether an insert succeeds) arrives as an oracle.
 */
module AgentSteps {
  import opened Common
  import opened AgentModels
  import Policy = AgentPolicy
  import Approvals = ApprovalModels
  import Ledger = ApprovalLedger
  import Rules = AgentRules

  datatype Settings = Settings(
    config: RuntimeConfig, tools: map<string, ToolSpec>, failureDigest: FailureMaterial -> string,
    approvalCentre: bool, env: Approvals.Environment, evaluator: Approvals.Evaluator, hash: Ledger.ApprovalHash)

  datatype Api = CallRun(maxIterations: Option<int>) | CallApprove | CallCancel | CallPause | CallResume

  datatype Read = RunRead | ApproveRead | CancelRead | PauseRead | ResumeRead | LoopRead | Checkpoint | BudgetRead

  datatype Note =
    | ResumedNote | PlannerFailedNote | ProposedNote | FinishNote | PauseNote | PolicyNote | ApprovalNote
    | ExecutedNote | EvaluatedNote | StoppedNote | BudgetNote | TimeoutNote | ApprovalLogNote
    | CancelNote | OperatorPauseNote | ResumeNote

  datatype Save =
    | StartSave | PopSave | PlannerFailedSave | AdvanceSave | FinishSave | PauseSave | DenySave | AwaitSave
    | CountSave | RememberSave | FailureSave | StoppedSave | FailSave | BudgetSave | TimeoutSave | ApprovalSave
    | CancelSave | OperatorPauseSave | ResumeSave

  datatype Pc =
    | Idle | Reading(read: Read) | Noting(note: Note) | Saving(save: Save)
    | Planning | Deadline | Calling(at: int) | Consuming

  /**
    A runner's local variables.  `task` is its last read or written snapshot; `replayed` says
    the proposal came from the pending slot; `ticket` is the step the proposal cost.
   */
  datatype Runner = Runner(
    pc: Pc, left: int, task: AgentTask, proposal: Proposal, result: ToolResult, reference: string,
    replayed: bool, ticket: nat)

  /** What runners share: the task row, the approval centre, and which step the pending proposal cost. */
  datatype Shared = Shared(task: AgentTask, approvals: Ledger.ApprovalState, pendingTicket: nat)

  datatype Oracle = Oracle(
    api: Api, now: int, occurredAt: int, ok: bool, proposal: Option<Proposal>, outcome: Policy.HandlerOutcome)

  datatype Effect =
    | Quiet | Wrote(task: AgentTask, pendingTicket: nat) | Called | Transacted(approvals: Ledger.ApprovalState)

  function Start(cfg: Settings, r: Runner, api: Api): Runner {
    var max := cfg.config.maxControllerIterations;
    match api
    case CallRun(limit) => r.(pc := Reading(RunRead), left := Rules.IterationLimit(cfg.config, limit))
    case CallApprove => r.(pc := Reading(ApproveRead), left := max)
    case CallCancel => r.(pc := Reading(CancelRead))
    case CallPause => r.(pc := Reading(PauseRead))
    case CallResume => r.(pc := Reading(ResumeRead), left := max)
  }

  /** Where a call goes after it has read the stored task. */
  function AfterRead(cfg: Settings, sh: Shared, r: Runner, read: Read, now: int): Runner {
    var task := sh.task;
    var seen := r.(task := task);
    match read
    case RunRead =>
      if task.IsTerminal() then seen.(pc := Idle)
      else if task.DeadlineExpired(now) then seen.(pc := Noting(TimeoutNote))
      else if task.status == PausedOperator then seen.(pc := Idle)
      else if task.status == PausedApproval && !Approvals.Present(task.memory.approvedPendingCall) then
        seen.(pc := Idle)
      else seen.(pc := Saving(StartSave))
    case ApproveRead =>
      if task.status != PausedApproval then seen.(pc := Idle)
      else if task.DeadlineExpired(now) then seen.(pc := Noting(TimeoutNote))
      else if task.binding.None? || !cfg.approvalCentre then seen.(pc := Idle)
      else seen.(pc := Consuming)
    case CancelRead => seen.(pc := if task.IsTerminal() then Idle else Saving(CancelSave))
    case PauseRead =>
      seen.(pc := if task.IsTerminal() || task.status in {PausedOperator, PausedApproval} then Idle
                   else Saving(OperatorPauseSave))
    case ResumeRead =>
      if task.status != PausedOperator then seen.(pc := Idle)
      else if task.DeadlineExpired(now) then seen.(pc := Noting(TimeoutNote))
      else seen.(pc := Noting(ResumeNote))
    case LoopRead =>
      if r.left <= 0 then r.(pc := Reading(BudgetRead))
      else if task.IsTerminal() then seen.(pc := Idle)
      else if task.DeadlineExpired(now) then seen.(pc := Noting(TimeoutNote))
      else if task.ReplayReady() then
        seen.(pc := Saving(PopSave), left := r.left - 1, replayed := true,
               proposal := Approved(task.memory.pendingProposal.value, task.memory.approvedPendingCall.value))
      else seen.(pc := Planning, left := r.left - 1)
    case Checkpoint => r.(pc := if task.revision == r.task.revision then Noting(ProposedNote) else Idle)
    case BudgetRead => seen.(pc := Noting(BudgetNote))
  }

  function DispatchPc(proposal: Proposal): Pc {
    match proposal
    case UseTool(_) => Noting(PolicyNote)
    case Finish(_) => Noting(FinishNote)
    case Pause(_) => Noting(PauseNote)
  }

  function AfterNote(cfg: Settings, r: Runner, note: Note, now: int): Pc {
    match note
    case ResumedNote => DispatchPc(r.proposal)
    case PlannerFailedNote => Saving(PlannerFailedSave)
    case ProposedNote => Saving(AdvanceSave)
    case FinishNote => Saving(FinishSave)
    case PauseNote => Saving(PauseSave)
    case PolicyNote =>
      if !r.proposal.UseTool? then Idle
      else
        var spec := Policy.Lookup(cfg.tools, r.proposal.call.toolId);
        (match Policy.Decide(cfg.config, r.task, r.proposal.call, spec, now)
         case Denied(_) => Saving(DenySave)
         case RequiresApproval => Noting(ApprovalNote)
         case Allowed => Deadline)
    case ApprovalNote => Saving(AwaitSave)
    case ExecutedNote => Noting(EvaluatedNote)
    case EvaluatedNote =>
      if r.result.success then Saving(RememberSave)
      else if r.result.retryable then Saving(FailureSave)
      else Saving(FailSave)
    case StoppedNote => Saving(StoppedSave)
    case BudgetNote => Saving(BudgetSave)
    case TimeoutNote => Saving(TimeoutSave)
    case ApprovalLogNote => Saving(ApprovalSave)
    case CancelNote => Idle
    case OperatorPauseNote => Idle
    case ResumeNote => Saving(ResumeSave)
  }

  function Fingerprint(cfg: Settings, r: Runner): string {
    if r.proposal.UseTool? then
      var evaluation := Evaluate(cfg.failureDigest, r.proposal.call, r.result);
      if evaluation.fingerprint.Some? then evaluation.fingerprint.value else ""
    else ""
  }

  /** The copy a save writes. */
  function Changed(cfg: Settings, r: Runner, save: Save): AgentTask {
    match save
    case StartSave => WithStatus(r.task, Running)
    case PopSave => Popped(r.task)
    case PlannerFailedSave => WithStatus(r.task, Failed)
    case AdvanceSave => Advanced(r.task)
    case FinishSave => Finished(r.task, if r.proposal.Finish? then r.proposal.finalSummary else "")
    case PauseSave => WithStatus(r.task, PausedOperator)
    case DenySave => WithStatus(r.task, Blocked)
    case AwaitSave => AwaitingApproval(r.task, r.proposal)
    case CountSave => CallCounted(r.task)
    case RememberSave => OutputRemembered(r.task, r.result)
    case FailureSave => FailureCounted(r.task, Fingerprint(cfg, r))
    case StoppedSave => WithStatus(r.task, Blocked)
    case FailSave => WithStatus(r.task, Failed)
    case BudgetSave => WithStatus(r.task, PausedBudget)
    case TimeoutSave => WithStatus(r.task, TimedOut)
    case ApprovalSave => ApprovalRecorded(r.task, r.reference)
    case CancelSave => WithStatus(r.task, Cancelled)
    case OperatorPauseSave => WithStatus(r.task, PausedOperator)
    case ResumeSave => WithStatus(r.task, Running)
  }

  /** Where a call goes after its save was accepted. */
  function AfterSave(cfg: Settings, r: Runner, save: Save, saved: AgentTask): Pc {
    match save
    case StartSave => Reading(LoopRead)
    case PopSave => Noting(ResumedNote)
    case AdvanceSave => DispatchPc(r.proposal)
    case CountSave => Noting(ExecutedNote)
    case RememberSave => Reading(LoopRead)
    case FailureSave =>
      if saved.Failures(Fingerprint(cfg, r)) >= saved.manifest.maxIdenticalFailures then Noting(StoppedNote)
      else Reading(LoopRead)
    case ApprovalSave => Reading(RunRead)
    case CancelSave => Noting(CancelNote)
    case OperatorPauseSave => Noting(OperatorPauseNote)
    case ResumeSave => Reading(RunRead)
    case _ => Idle
  }

  function StepSave(cfg: Settings, sh: Shared, r: Runner, save: Save, now: int): (Runner, Effect) {
    var saved := Evolve(r.task, Changed(cfg, r, save), now);
    if !ValidUpdate(r.task, saved) || sh.task.revision != r.task.revision || !ValidUpdate(sh.task, saved) then
      (r.(pc := Idle), Quiet)
    else
      var ticket :=
        if save == AdvanceSave then saved.stepCount else if save == PopSave then sh.pendingTicket else r.ticket;
      var pendingTicket := if save == AwaitSave then r.ticket else if save == PopSave then 0 else sh.pendingTicket;
      (r.(pc := AfterSave(cfg, r, save, saved), task := saved, ticket := ticket), Wrote(saved, pendingTicket))
  }

  /** One step of one runner. */
  function StepRunner(cfg: Settings, sh: Shared, r: Runner, o: Oracle): (Runner, Effect) {
    match r.pc
    case Idle => (Start(cfg, r, o.api), Quiet)
    case Reading(read) => (AfterRead(cfg, sh, r, read, o.now), Quiet)
    case Noting(note) => (r.(pc := if o.ok then AfterNote(cfg, r, note, o.now) else Idle), Quiet)
    case Saving(save) => StepSave(cfg, sh, r, save, o.now)
    case Planning =>
      if !o.ok then (r.(pc := Idle), Quiet)
      else if o.proposal.None? then (r.(pc := Noting(PlannerFailedNote)), Quiet)
      else (r.(pc := Reading(Checkpoint), proposal := o.proposal.value, replayed := false), Quiet)
    case Deadline => (r.(pc := if r.task.DeadlineExpired(o.now) then Noting(TimeoutNote) else Calling(o.now)), Quiet)
    case Calling(_) =>
      var spec := if r.proposal.UseTool? then Policy.Lookup(cfg.tools, r.proposal.call.toolId) else None;
      if spec.None? then (r.(pc := Idle), Quiet)
      else
        var result := Policy.Normalize(spec.value, o.outcome);
        (if result.None? then r.(pc := Idle) else r.(pc := Saving(CountSave), result := result.value), Called)
    case Consuming =>
      if r.task.binding.None? then (r.(pc := Idle), Quiet)
      else
        var c := Rules.BindingConsumption(cfg.env, r.task.binding.value, o.now, o.occurredAt);
        var (after, outcome) := Ledger.Consume(cfg.env, cfg.evaluator, cfg.hash, sh.approvals, c);
        (if outcome.Err? then r.(pc := Idle)
         else r.(pc := Noting(ApprovalLogNote), reference := cfg.env.requestDigest(outcome.value)),
         Transacted(after))
  }
}
