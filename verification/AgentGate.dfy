/**
  Gated actions under interleaving: what a handler call of an approval-required action can
  rely on, and how many such calls one consumed approval can lead to.
 */
module AgentGate {
  import opened Common
  import opened AgentModels
  import opened AgentSteps
  import opened AgentTickets
  import opened AgentInterleaving
  import Policy = AgentPolicy
  import Approvals = ApprovalModels
  import Conditions = ApprovalConditions
  import Ledger = ApprovalLedger
  import Rules = AgentRules

  /** Under an approval with conditions the bound plan fits the approved manifest and meets every condition. */
  ghost predicate ConditionsMet(cfg: Settings, r: Approvals.ApprovalRequest, b: ApprovalBinding) {
    r.decision == Some(Approvals.ApproveWithConditions) ==>
      && Conditions.PlanFits(cfg.env, r, b.manifest, b.plan, b.executionId)
      && forall condition :: condition in r.conditions ==> Conditions.Meets(cfg.env, condition, b.plan)
  }

  /** The bound request has been consumed by this execution, on the bound manifest; its digest is `reference`. */
  ghost predicate Granted(
      cfg: Settings, approvals: Ledger.ApprovalState, binding: Option<ApprovalBinding>, reference: Option<string>)
  {
    && binding.Some? && reference.Some?
    && var b := binding.value;
    && b.requestId in approvals.requests
    && var r := approvals.requests[b.requestId];
    && r.status == Approvals.Consumed
    && r.consumedByExecutionId == Some(b.executionId)
    && r.actionManifestSha256 == cfg.env.manifestDigest(b.manifest)
    && reference.value == cfg.env.requestDigest(r)
    && ConditionsMet(cfg, r, b)
  }

  ghost predicate Trusted(cfg: Settings, approvals: Ledger.ApprovalState, task: AgentTask) {
    task.memory.consumedApproval.Some? ==> Granted(cfg, approvals, task.binding, task.memory.consumedApproval)
  }

  /** A call of a gated action is for the approved action and carries a granted reference. */
  ghost predicate CallGranted(cfg: Settings, approvals: Ledger.ApprovalState, task: AgentTask, call: ToolCall) {
    Policy.Gated(task, call) ==>
      && Granted(cfg, approvals, task.binding, call.approvalReference)
      && Policy.SameAction(task.binding.value.manifest, call)
  }

  ghost predicate RunnerTrusted(cfg: Settings, approvals: Ledger.ApprovalState, r: Runner) {
    && Trusted(cfg, approvals, r.task)
    && (RecordsApproval(r) ==> Granted(cfg, approvals, r.task.binding, Some(r.reference)))
    && (Cleared(r) ==> r.proposal.UseTool? && CallGranted(cfg, approvals, r.task, r.proposal.call))
  }

  ghost predicate GateHolds(cfg: Settings, s: System) {
    && Ledger.Lawful(cfg.env, cfg.hash, s.shared.approvals)
    && Trusted(cfg, s.shared.approvals, s.shared.task)
    && (forall id :: id in s.runners ==> RunnerTrusted(cfg, s.shared.approvals, s.runners[id]))
    && (forall i :: 0 <= i < |s.calls| ==> CallGranted(cfg, s.shared.approvals, s.shared.task, s.calls[i].call))
  }

  /** No approval transaction takes a grant away. */
  lemma GrantsLast(cfg: Settings, approvals: Ledger.ApprovalState, t: Ledger.Transaction,
                   binding: Option<ApprovalBinding>, reference: Option<string>)
    requires Ledger.Lawful(cfg.env, cfg.hash, approvals) && Granted(cfg, approvals, binding, reference)
    ensures Granted(cfg, Ledger.Execute(cfg.env, cfg.evaluator, cfg.hash, approvals, t).0, binding, reference)
  {
    Ledger.TerminalRequestsAreFrozen(cfg.env, cfg.evaluator, cfg.hash, approvals, t, binding.value.requestId);
  }

  /** A successful consumption grants exactly what the binding asks for, and only once. */
  lemma ConsumptionGrants(cfg: Settings, approvals: Ledger.ApprovalState, binding: ApprovalBinding, now: int, at: int)
    requires Ledger.Lawful(cfg.env, cfg.hash, approvals)
    ensures var c := Rules.BindingConsumption(cfg.env, binding, now, at);
            var (after, outcome) := Ledger.Consume(cfg.env, cfg.evaluator, cfg.hash, approvals, c);
            outcome.Ok? ==>
              && Granted(cfg, after, Some(binding), Some(cfg.env.requestDigest(outcome.value)))
              && binding.requestId in approvals.requests
              && approvals.requests[binding.requestId].status == Approvals.Approved
  {
    assert Ledger.RequestIsLawful(cfg.env, approvals, binding.requestId);
    var c := Rules.BindingConsumption(cfg.env, binding, now, at);
    if Ledger.Consume(cfg.env, cfg.evaluator, cfg.hash, approvals, c).1.Ok? {
      Ledger.ConsumedPlansMeetConditions(cfg.env, cfg.evaluator, cfg.hash, approvals, c);
    }
  }

  /** The consumption a task asks for succeeds under exactly this condition on its binding and the request. */
  lemma BindingIsConsumedExactlyWhen(
      cfg: Settings, approvals: Ledger.ApprovalState, binding: ApprovalBinding, now: int, at: int)
    requires Ledger.Lawful(cfg.env, cfg.hash, approvals) && 1 <= cfg.evaluator.validitySeconds <= 300
    ensures var c := Rules.BindingConsumption(cfg.env, binding, now, at);
      Ledger.Consume(cfg.env, cfg.evaluator, cfg.hash, approvals, c).1.Ok? <==>
        && binding.requestId in approvals.requests
        && var r := approvals.requests[binding.requestId];
        && binding.consumerActorId != r.requestedBy && r.status == Approvals.Approved && now < r.expiresAt
        && r.actionManifestSha256 == cfg.env.manifestDigest(binding.manifest) && binding.executionId != ""
        && ConditionsMet(cfg, r, binding)
  {
    if binding.requestId in approvals.requests {
      Ledger.ConsumedExactlyWhen(cfg.env, cfg.evaluator, cfg.hash, approvals,
                                 Rules.BindingConsumption(cfg.env, binding, now, at));
    }
  }

  /** The transaction behind a runner's effect on the approval centre, if any. */
  lemma EffectIsTransaction(cfg: Settings, sh: Shared, r: Runner, o: Oracle)
    ensures var (r', e) := StepRunner(cfg, sh, r, o);
            e.Transacted? ==>
              && r.task.binding.Some? && r.pc == Consuming
              && e.approvals == Ledger.Execute(cfg.env, cfg.evaluator, cfg.hash, sh.approvals,
                   Ledger.TConsume(Rules.BindingConsumption(cfg.env, r.task.binding.value, o.now, o.occurredAt))).0
  {
  }

  lemma SaveKeepsTrust(cfg: Settings, sh: Shared, r: Runner, save: Save, now: int)
    requires RunnerTrusted(cfg, sh.approvals, r) && r.pc == Saving(save)
    ensures var (r', e) := StepSave(cfg, sh, r, save, now);
            RunnerTrusted(cfg, sh.approvals, r') && (e.Wrote? ==> r'.task == e.task)
  {
    SaveMovesApproval(cfg, sh, r, save, now);
    var (r', e) := StepSave(cfg, sh, r, save, now);
    if !e.Wrote? {
      assert r' == r.(pc := Idle);
    }
  }

  lemma ConsumingKeepsTrust(cfg: Settings, sh: Shared, r: Runner, o: Oracle)
    requires Ledger.Lawful(cfg.env, cfg.hash, sh.approvals)
    requires RunnerTrusted(cfg, sh.approvals, r) && r.pc == Consuming
    ensures var (r', e) := StepRunner(cfg, sh, r, o); RunnerTrusted(cfg, SharedAfter(sh, e).approvals, r')
  {
    if r.task.binding.Some? {
      var binding := r.task.binding.value;
      ConsumptionGrants(cfg, sh.approvals, binding, o.now, o.occurredAt);
      if r.task.memory.consumedApproval.Some? {
        GrantsLast(cfg, sh.approvals,
                   Ledger.TConsume(Rules.BindingConsumption(cfg.env, binding, o.now, o.occurredAt)),
                   r.task.binding, r.task.memory.consumedApproval);
      }
    }
  }

  lemma ReadKeepsTrust(cfg: Settings, sh: Shared, r: Runner, read: Read, now: int)
    requires Trusted(cfg, sh.approvals, sh.task) && RunnerTrusted(cfg, sh.approvals, r)
    ensures RunnerTrusted(cfg, sh.approvals, AfterRead(cfg, sh, r, read, now))
  {
  }

  /** The acting runner only trusts what was granted. */
  lemma StepKeepsTrust(cfg: Settings, sh: Shared, r: Runner, o: Oracle)
    requires Ledger.Lawful(cfg.env, cfg.hash, sh.approvals)
    requires Trusted(cfg, sh.approvals, sh.task) && RunnerTrusted(cfg, sh.approvals, r)
    ensures var (r', e) := StepRunner(cfg, sh, r, o);
            RunnerTrusted(cfg, SharedAfter(sh, e).approvals, r') && (e.Wrote? ==> r'.task == e.task)
  {
    match r.pc
    case Saving(save) => SaveKeepsTrust(cfg, sh, r, save, o.now);
    case Reading(read) => ReadKeepsTrust(cfg, sh, r, read, o.now);
    case Consuming => ConsumingKeepsTrust(cfg, sh, r, o);
    case Noting(note) => StepClears(cfg, sh, r, o);
    case _ =>
  }

  /** Any change of the approval centre is one of its transactions, so everything granted stays granted. */
  lemma GrantsLastOverStep(
      cfg: Settings, s: System, a: Action, binding: Option<ApprovalBinding>, reference: Option<string>)
    requires Ledger.Lawful(cfg.env, cfg.hash, s.shared.approvals)
    requires Granted(cfg, s.shared.approvals, binding, reference)
    ensures Granted(cfg, Apply(cfg, s, a).shared.approvals, binding, reference)
  {
    match a
    case Govern(t) => GrantsLast(cfg, s.shared.approvals, t, binding, reference);
    case Act(actor, o) =>
      var r := RunnerAt(s, actor);
      EffectIsTransaction(cfg, s.shared, r, o);
      if StepRunner(cfg, s.shared, r, o).1.Transacted? {
        GrantsLast(cfg, s.shared.approvals,
                   Ledger.TConsume(Rules.BindingConsumption(cfg.env, r.task.binding.value, o.now, o.occurredAt)),
                   binding, reference);
      }
  }

  lemma ApprovalsStayLawful(cfg: Settings, s: System, a: Action)
    requires Ledger.Lawful(cfg.env, cfg.hash, s.shared.approvals)
    ensures Ledger.Lawful(cfg.env, cfg.hash, Apply(cfg, s, a).shared.approvals)
  {
    match a
    case Govern(t) => Ledger.ExecuteIsLawful(cfg.env, cfg.evaluator, cfg.hash, s.shared.approvals, t);
    case Act(actor, o) =>
      var r := RunnerAt(s, actor);
      EffectIsTransaction(cfg, s.shared, r, o);
      if StepRunner(cfg, s.shared, r, o).1.Transacted? {
        Ledger.ExecuteIsLawful(cfg.env, cfg.evaluator, cfg.hash, s.shared.approvals,
          Ledger.TConsume(Rules.BindingConsumption(cfg.env, r.task.binding.value, o.now, o.occurredAt)));
      }
  }

  lemma RunnerStaysTrusted(cfg: Settings, s: System, a: Action, r: Runner)
    requires Ledger.Lawful(cfg.env, cfg.hash, s.shared.approvals) && RunnerTrusted(cfg, s.shared.approvals, r)
    ensures RunnerTrusted(cfg, Apply(cfg, s, a).shared.approvals, r)
  {
    if r.task.memory.consumedApproval.Some? {
      GrantsLastOverStep(cfg, s, a, r.task.binding, r.task.memory.consumedApproval);
    }
    if RecordsApproval(r) {
      GrantsLastOverStep(cfg, s, a, r.task.binding, Some(r.reference));
    }
    if Cleared(r) && Policy.Gated(r.task, r.proposal.call) {
      GrantsLastOverStep(cfg, s, a, r.task.binding, r.proposal.call.approvalReference);
    }
  }

  lemma TaskStaysTrusted(cfg: Settings, s: System, a: Action)
    requires StepsPaid(s) && GateHolds(cfg, s)
    ensures Trusted(cfg, Apply(cfg, s, a).shared.approvals, Apply(cfg, s, a).shared.task)
  {
    if s.shared.task.memory.consumedApproval.Some? {
      GrantsLastOverStep(cfg, s, a, s.shared.task.binding, s.shared.task.memory.consumedApproval);
    }
    if a.Act? {
      StepKeepsTrust(cfg, s.shared, RunnerAt(s, a.actor), a.oracle);
    }
  }

  lemma CallsStayGranted(cfg: Settings, s: System, a: Action, i: nat)
    requires StepsPaid(s) && GateHolds(cfg, s) && i < |Apply(cfg, s, a).calls|
    ensures CallGranted(cfg, Apply(cfg, s, a).shared.approvals, Apply(cfg, s, a).shared.task,
        Apply(cfg, s, a).calls[i].call)
  {
    var s' := Apply(cfg, s, a);
    TaskMovesByValidUpdates(cfg, s, a);
    if i < |s.calls| {
      assert s'.calls[i] == s.calls[i];
      if Policy.Gated(s.shared.task, s.calls[i].call) {
        GrantsLastOverStep(cfg, s, a, s.shared.task.binding, s.calls[i].call.approvalReference);
      }
    } else {
      var r := RunnerAt(s, a.actor);
      StepFlows(cfg, s.shared, r, a.oracle);
      assert RunnerTrusted(cfg, s.shared.approvals, r) && RunnerOk(s, r);
    }
  }

  lemma StepKeepsGate(cfg: Settings, s: System, a: Action)
    requires StepsPaid(s) && GateHolds(cfg, s)
    ensures GateHolds(cfg, Apply(cfg, s, a))
  {
    var s' := Apply(cfg, s, a);
    ApprovalsStayLawful(cfg, s, a);
    TaskStaysTrusted(cfg, s, a);
    forall i | 0 <= i < |s'.calls|
      ensures CallGranted(cfg, s'.shared.approvals, s'.shared.task, s'.calls[i].call)
    {
      CallsStayGranted(cfg, s, a, i);
    }
    forall id | id in s'.runners
      ensures RunnerTrusted(cfg, s'.shared.approvals, s'.runners[id])
    {
      if a.Act? && a.actor == id {
        StepKeepsTrust(cfg, s.shared, RunnerAt(s, id), a.oracle);
      } else {
        RunnerStaysTrusted(cfg, s, a, s.runners[id]);
      }
    }
  }

  /** A task as it is created, on a lawful approval centre. */
  ghost predicate IsStart(cfg: Settings, task: AgentTask, approvals: Ledger.ApprovalState) {
    && Ledger.Lawful(cfg.env, cfg.hash, approvals)
    && task == NewTask(task.taskId, task.objective, task.manifest, task.binding, task.createdAt)
    && (task.binding.Some? ==> Rules.BindingFits(task.manifest, task.binding.value, task.taskId))
  }

  lemma {:induction false} RunKeepsGate(
      cfg: Settings, task: AgentTask, approvals: Ledger.ApprovalState, actions: seq<Action>)
    requires IsStart(cfg, task, approvals)
    ensures GateHolds(cfg, Run(cfg, task, approvals, actions))
    ensures StepsPaid(Run(cfg, task, approvals, actions))
    ensures SameIdentity(Run(cfg, task, approvals, actions).shared.task, task)
  {
    RunKeepsStepsPaid(cfg, task, approvals, actions);
    if actions != [] {
      var before := actions[..|actions| - 1];
      RunKeepsGate(cfg, task, approvals, before);
      StepKeepsGate(cfg, Run(cfg, task, approvals, before), actions[|actions| - 1]);
    }
  }

  /**
    Whenever a handler was called for an approval-required action, the bound request had been
    consumed for this very task, before its expiry, on the bound manifest, after somebody other
    than the requester approved it, the bound plan meets the conditions the approval was given
    under, and the call names exactly the approved action.
   */
  lemma GatedCallsAreApproved(
      cfg: Settings, task: AgentTask, approvals: Ledger.ApprovalState, actions: seq<Action>, i: nat)
    requires IsStart(cfg, task, approvals)
    requires i < |Run(cfg, task, approvals, actions).calls|
    requires Policy.Gated(task, Run(cfg, task, approvals, actions).calls[i].call)
    ensures var s := Run(cfg, task, approvals, actions);
            var call := s.calls[i].call;
            && task.binding.Some?
            && var b := task.binding.value;
            && Policy.SameAction(b.manifest, call)
            && b.requestId in s.shared.approvals.requests
            && var r := s.shared.approvals.requests[b.requestId];
            && r.status == Approvals.Consumed
            && r.consumedByExecutionId == Some(task.taskId)
            && r.actionManifestSha256 == cfg.env.manifestDigest(b.manifest)
            && r.decidedBy.Some? && r.decidedBy.value != r.requestedBy
            && r.decision in {Some(Approvals.ApproveOnce), Some(Approvals.ApproveWithConditions)}
            && r.consumedAt.Some? && r.consumedAt.value < r.expiresAt
            && ConditionsMet(cfg, r, b)
            && call.approvalReference == Some(cfg.env.requestDigest(r))
  {
    RunKeepsGate(cfg, task, approvals, actions);
    var s := Run(cfg, task, approvals, actions);
    assert CallGranted(cfg, s.shared.approvals, s.shared.task, s.calls[i].call);
    assert Ledger.RequestIsLawful(cfg.env, s.shared.approvals, task.binding.value.requestId);
  }
}
