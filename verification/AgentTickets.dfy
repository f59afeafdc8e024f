/** What one step does with the step it may hold, for the acting runner and for the task row. */
module AgentTickets {
  import opened Common
  import opened AgentModels
  import opened AgentSteps
  import Policy = AgentPolicy
  import Approvals = ApprovalModels
  import Ledger = ApprovalLedger

  /** The runner has a proposal in hand that cost a step and may still lead to one handler call. */
  predicate Holding(r: Runner) {
    r.pc in {Noting(ResumedNote), Noting(PolicyNote), Noting(ApprovalNote), Saving(AwaitSave)} || Cleared(r)
  }

  /** The policy allowed the proposal in hand. */
  predicate Cleared(r: Runner) {
    r.pc.Deadline? || r.pc.Calling?
  }

  /** The runner has called the handler and not counted the call yet. */
  predicate Uncounted(r: Runner) {
    r.pc == Saving(CountSave)
  }

  /** The planner itself put an approval reference on the call. */
  predicate BringsReference(proposal: Proposal) {
    proposal.UseTool? && Approvals.Present(proposal.call.approvalReference)
  }

  /** The runner has consumed the approval and not recorded it in the task yet. */
  predicate RecordsApproval(r: Runner) {
    r.pc in {Noting(ApprovalLogNote), Saving(ApprovalSave)}
  }

  /** A local snapshot is a past version of the stored task. */
  ghost predicate Snapshot(task: AgentTask, stored: AgentTask) {
    && SameIdentity(task, stored)
    && task.revision <= stored.revision
    && (task.revision == stored.revision ==> task == stored)
    && task.stepCount <= stored.stepCount && task.toolCallCount <= stored.toolCallCount
  }

  lemma SaveKeepsSnapshot(cfg: Settings, sh: Shared, r: Runner, save: Save, now: int)
    requires Snapshot(r.task, sh.task)
    ensures var (r', e) := StepSave(cfg, sh, r, save, now);
            if e.Wrote? then r.task == sh.task && ValidUpdate(sh.task, e.task) && r'.task == e.task
            else e == Quiet && r' == r.(pc := Idle)
  {
  }

  lemma StepKeepsSnapshot(cfg: Settings, sh: Shared, r: Runner, o: Oracle)
    requires Snapshot(r.task, sh.task)
    ensures var (r', e) := StepRunner(cfg, sh, r, o);
            var stored := if e.Wrote? then e.task else sh.task;
            Snapshot(r'.task, stored) && (e.Wrote? ==> r.task == sh.task && ValidUpdate(sh.task, stored))
  {
    if r.pc.Saving? {
      SaveKeepsSnapshot(cfg, sh, r, r.pc.save, o.now);
    }
  }

  /** The statuses a task may have when a call of the controller makes this save. */
  predicate Suits(save: Save, status: TaskStatus) {
    match save
    case StartSave => status in {Created, Running, PausedBudget, PausedApproval}
    case CancelSave => status in {Created, Running, PausedApproval, PausedBudget, PausedOperator}
    case TimeoutSave => status in {Created, Running, PausedApproval, PausedBudget, PausedOperator}
    case OperatorPauseSave => status in {Created, Running, PausedBudget}
    case ApprovalSave => status == PausedApproval
    case ResumeSave => status == PausedOperator
    case _ => status == Running
  }

  /** The status each save leaves. */
  predicate Leaves(save: Save, status: TaskStatus) {
    match save
    case PlannerFailedSave => status == Failed
    case FailSave => status == Failed
    case FinishSave => status == Completed
    case PauseSave => status == PausedOperator
    case OperatorPauseSave => status == PausedOperator
    case DenySave => status == Blocked
    case StoppedSave => status == Blocked
    case AwaitSave => status == PausedApproval
    case BudgetSave => status == PausedBudget
    case TimeoutSave => status == TimedOut
    case CancelSave => status == Cancelled
    case _ => status == Running
  }

  /** On a live task such a save is refused exactly when the task has moved on or the clock runs behind. */
  lemma SuitableSavesAreRefusedExactlyWhen(cfg: Settings, sh: Shared, r: Runner, save: Save, now: int)
    requires Snapshot(r.task, sh.task) && Suits(save, r.task.status)
    ensures var e := StepSave(cfg, sh, r, save, now).1;
      && (e.Wrote? <==> r.task == sh.task && r.task.updatedAt <= now)
      && (e.Wrote? ==> Leaves(save, e.task.status))
  {
  }

  /** The flow of steps: taken by an advancing save, moved to and from the pending slot, kept, or spent. */
  ghost predicate Flows(sh: Shared, r: Runner, r': Runner, e: Effect) {
    && (Holding(r') ==>
          || (Holding(r) && e == Quiet && r'.ticket == r.ticket && r'.task == r.task)
          || (e.Wrote? && r.pc == Saving(AdvanceSave) && e.task.stepCount == sh.task.stepCount + 1
              && r'.ticket == e.task.stepCount && e.pendingTicket == sh.pendingTicket)
          || (e.Wrote? && r.pc == Saving(PopSave) && e.task.stepCount == sh.task.stepCount
              && r'.ticket == sh.pendingTicket && e.pendingTicket == 0))
    && (e.Wrote? ==> r'.task == e.task)
    && (e.Wrote? ==>
          || (e.pendingTicket == sh.pendingTicket
              && e.task.memory.pendingProposal == sh.task.memory.pendingProposal)
          || (r.pc == Saving(PopSave) && e.pendingTicket == 0 && e.task.memory.pendingProposal.None?)
          || (r.pc == Saving(AwaitSave) && e.pendingTicket == r.ticket && Holding(r) && !Holding(r')))
    && (e.Called? ==> r.pc.Calling? && !Holding(r') && r'.ticket == r.ticket && r'.task == r.task)
    && (Uncounted(r') ==> e.Called?)
    && (r'.pc == Saving(PopSave) ==> r'.task.ReplayReady())
    && (e.Wrote? ==>
          if r.pc == Saving(CountSave) then e.task.toolCallCount == sh.task.toolCallCount + 1
          else e.task.toolCallCount == sh.task.toolCallCount)
  }

  lemma StepMovingSaveFlows(cfg: Settings, sh: Shared, r: Runner, save: Save, now: int)
    requires Snapshot(r.task, sh.task) && r.pc == Saving(save)
    requires save in {AdvanceSave, PopSave, AwaitSave, CountSave}
    ensures var (r', e) := StepSave(cfg, sh, r, save, now); Flows(sh, r, r', e)
  {
  }

  lemma PlainSaveFlows(cfg: Settings, sh: Shared, r: Runner, save: Save, now: int)
    requires Snapshot(r.task, sh.task) && r.pc == Saving(save)
    requires save !in {AdvanceSave, PopSave, AwaitSave, CountSave}
    ensures var (r', e) := StepSave(cfg, sh, r, save, now); Flows(sh, r, r', e)
  {
  }

  lemma SaveFlows(cfg: Settings, sh: Shared, r: Runner, save: Save, now: int)
    requires Snapshot(r.task, sh.task) && r.pc == Saving(save)
    ensures var (r', e) := StepSave(cfg, sh, r, save, now); Flows(sh, r, r', e)
  {
    if save in {AdvanceSave, PopSave, AwaitSave, CountSave} {
      StepMovingSaveFlows(cfg, sh, r, save, now);
    } else {
      PlainSaveFlows(cfg, sh, r, save, now);
    }
  }

  /** What an accepted save does to the approval part of the task's memory. */
  lemma SaveMovesApproval(cfg: Settings, sh: Shared, r: Runner, save: Save, now: int)
    ensures var (r', e) := StepSave(cfg, sh, r, save, now);
            e.Wrote? ==>
              && r'.task == e.task && e.task.binding == r.task.binding && e.task.manifest == r.task.manifest
              && !Cleared(r') && !RecordsApproval(r')
              && r'.proposal == r.proposal && r'.replayed == r.replayed
              && e.task.memory.consumedApproval
                   == (if save == ApprovalSave then Some(r.reference) else r.task.memory.consumedApproval)
              && e.task.memory.approvedPendingCall
                   == (if save == ApprovalSave then Some(r.reference)
                       else if save == PopSave then None else r.task.memory.approvedPendingCall)
  {
  }

  lemma ReadFlows(cfg: Settings, sh: Shared, r: Runner, read: Read, now: int)
    ensures var r' := AfterRead(cfg, sh, r, read, now);
      !Holding(r') && !Uncounted(r') && (r'.pc == Saving(PopSave) ==> r'.task.ReplayReady())
  {
  }

  lemma StepFlows(cfg: Settings, sh: Shared, r: Runner, o: Oracle)
    requires Snapshot(r.task, sh.task)
    ensures var (r', e) := StepRunner(cfg, sh, r, o); Flows(sh, r, r', e)
  {
    if r.pc.Saving? {
      SaveFlows(cfg, sh, r, r.pc.save, o.now);
    } else if r.pc.Reading? {
      ReadFlows(cfg, sh, r, r.pc.read, o.now);
    }
  }

  /** Only the policy clears a proposal, and only within both budgets. */
  lemma StepClears(cfg: Settings, sh: Shared, r: Runner, o: Oracle)
    ensures var r' := StepRunner(cfg, sh, r, o).0;
      Cleared(r') ==>
        && r'.task == r.task && r'.ticket == r.ticket && r'.proposal == r.proposal && r'.replayed == r.replayed
        && Holding(r)
        && (!Cleared(r) ==>
              && r.task.stepCount <= r.task.manifest.maxSteps && r.task.toolCallCount < r.task.manifest.maxToolCalls
              && r.proposal.UseTool?
              && (Policy.Gated(r.task, r.proposal.call) ==>
                    && BringsReference(r.proposal)
                    && r.proposal.call.approvalReference == r.task.memory.consumedApproval
                    && r.task.binding.Some? && Policy.SameAction(r.task.binding.value.manifest, r.proposal.call)))
  {
    if r.pc == Noting(PolicyNote) && r.proposal.UseTool? {
      var spec := Policy.Lookup(cfg.tools, r.proposal.call.toolId);
      if Policy.Decide(cfg.config, r.task, r.proposal.call, spec, o.now) == Policy.Allowed {
        Policy.AllowedCallsAreCovered(cfg.config, r.task, r.proposal.call, spec, o.now);
      }
    }
  }
}
