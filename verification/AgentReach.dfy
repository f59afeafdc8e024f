/**
  What runs of the state machine can reach: a call within the limits gets to its handler, and a
  call that needs approval gets there by way of the approval centre.
 */
module AgentReach {
  import opened Common
  import opened AgentModels
  import opened AgentSteps
  import opened AgentInterleaving
  import Policy = AgentPolicy
  import Approvals = ApprovalModels
  import Ledger = ApprovalLedger
  import Rules = AgentRules

  /**
    A call proposed on a new task, at a moment `now`; when it needs approval, `granted` is the
    approval centre after the consumption and `reference` what the consumption produces.
   */
  datatype Case = Case(
    cfg: Settings, task: AgentTask, approvals: Ledger.ApprovalState, call: ToolCall, now: int,
    granted: Ledger.ApprovalState, reference: string)

  /** The task is new, and the call is within all limits once its step has been taken. */
  ghost predicate Callable(k: Case) {
    && k.task == NewTask(k.task.taskId, k.task.objective, k.task.manifest, k.task.binding, k.task.createdAt)
    && k.task.createdAt <= k.now < k.task.deadlineAt && k.cfg.config.maxControllerIterations >= 1
    && Policy.WithinLimits(k.cfg.config, Advanced(k.task), k.call, Policy.Lookup(k.cfg.tools, k.call.toolId), k.now)
  }

  /** The call needs approval, brings no reference, and is what the binding is for. */
  ghost predicate Approvable(k: Case) {
    && Callable(k) && Policy.Gated(k.task, k.call) && !Approvals.Present(k.call.approvalReference)
    && k.cfg.approvalCentre && k.task.binding.Some? && Policy.SameAction(k.task.binding.value.manifest, k.call)
  }

  /** The bound request can be consumed, with this effect. */
  ghost predicate Grants(k: Case) {
    && k.task.binding.Some? && k.reference != ""
    && var c := Rules.BindingConsumption(k.cfg.env, k.task.binding.value, k.now, k.now);
    && var (after, outcome) := Ledger.Consume(k.cfg.env, k.cfg.evaluator, k.cfg.hash, k.approvals, c);
    && after == k.granted && outcome.Ok? && k.cfg.env.requestDigest(outcome.value) == k.reference
  }

  /** The task after each save of the path. */
  function Row(k: Case, saves: nat): AgentTask {
    var pending, reference := Some(UseTool(k.call)), Some(k.reference);
    if saves == 0 then k.task
    else
      var status := if saves == 3 then PausedApproval else Running;
      var row := k.task.(status := status, revision := saves, updatedAt := k.now);
      if saves == 1 then row
      else
        row.(stepCount := 1,
             memory := Memory(1, if saves in {3, 4, 5} then pending else None,
                              if saves in {4, 5} then reference else None,
                              if saves >= 4 then reference else None, None))
  }

  /** Where the call stands after so many moves, and how many saves have been made. */
  function Place(gated: bool, now: int, phase: nat): (Pc, nat) {
    match phase
    case 1 => (Reading(RunRead), 0)
    case 2 => (Saving(StartSave), 0)
    case 3 => (Reading(LoopRead), 1)
    case 4 => (Planning, 1)
    case 5 => (Reading(Checkpoint), 1)
    case 6 => (Noting(ProposedNote), 1)
    case 7 => (Saving(AdvanceSave), 1)
    case 8 => (Noting(PolicyNote), 2)
    case _ => if gated then GatedPlace(now, phase) else PlainPlace(now, phase)
  }

  function PlainPlace(now: int, phase: nat): (Pc, nat) {
    match phase
    case 9 => (Deadline, 2)
    case 10 => (Calling(now), 2)
    case 11 => (Saving(CountSave), 2)
    case _ => (Idle, 0)
  }

  function GatedPlace(now: int, phase: nat): (Pc, nat) {
    match phase
    case 9 => (Noting(ApprovalNote), 2)
    case 10 => (Saving(AwaitSave), 2)
    case 11 => (Idle, 3)
    case 12 => (Reading(ApproveRead), 3)
    case 13 => (Consuming, 3)
    case 14 => (Noting(ApprovalLogNote), 3)
    case 15 => (Saving(ApprovalSave), 3)
    case 16 => (Reading(RunRead), 4)
    case 17 => (Saving(StartSave), 4)
    case 18 => (Reading(LoopRead), 5)
    case 19 => (Saving(PopSave), 5)
    case 20 => (Noting(ResumedNote), 6)
    case 21 => (Noting(PolicyNote), 6)
    case 22 => (Deadline, 6)
    case 23 => (Calling(now), 6)
    case 24 => (Saving(CountSave), 6)
    case _ => (Idle, 0)
  }

  /** The call as it reaches the handler. */
  function Carried(gated: bool, k: Case): ToolCall {
    if gated then k.call.(approvalReference := Some(k.reference)) else k.call
  }

  function Moves(gated: bool): nat {
    if gated then 24 else 11
  }

  /** One runner has come so far, alone. */
  predicate Stands(gated: bool, k: Case, phase: nat, s: System) {
    var (pc, saves) := Place(gated, k.now, phase);
    var r := RunnerAt(s, 0);
    && r.pc == pc && s.shared.task == Row(k, saves) == r.task
    && (phase in {1, 2, 3} || (gated && 12 <= phase <= 18) ==> r.left >= 1)
    && (5 <= phase <= 11 ==> r.proposal == UseTool(k.call))
    && (gated && 14 <= phase <= 15 ==> r.reference == k.reference)
    && (gated && 19 <= phase ==> r.proposal == UseTool(Carried(true, k)))
    && s.shared.approvals == (if gated && phase >= 14 then k.granted else k.approvals)
    && if phase == Moves(gated) then |s.calls| == 1 && s.calls[0].call == Carried(gated, k)
       else s.calls == []
  }

  ghost predicate Goes(gated: bool, k: Case) {
    if gated then Approvable(k) && k.reference != "" else Callable(k) && !Policy.Gated(k.task, k.call)
  }

  /** Nothing fails and the planner proposes the call; the runner first runs the task, then resolves its approval. */
  function Move(k: Case, phase: nat): Action {
    var api := if phase < 11 then CallRun(None) else CallApprove;
    Act(0, Oracle(api, k.now, k.now, true, Some(UseTool(k.call)), Policy.Returned("")))
  }

  function Moving(k: Case): nat -> Action {
    (phase: nat) => Move(k, phase)
  }

  function Path(move: nat -> Action, n: nat): seq<Action> {
    if n == 0 then [] else Path(move, n - 1) + [move(n - 1)]
  }

  lemma StartMove(gated: bool, k: Case, s: System)
    requires Goes(gated, k) && Stands(gated, k, 0, s)
    ensures Stands(gated, k, 1, Apply(k.cfg, s, Move(k, 0)))
  {
  }

  lemma FirstReadMove(gated: bool, k: Case, s: System)
    requires Goes(gated, k) && Stands(gated, k, 1, s)
    ensures Stands(gated, k, 2, Apply(k.cfg, s, Move(k, 1)))
  {
  }

  lemma PickupMoves(gated: bool, k: Case, phase: nat, s: System)
    requires 2 <= phase < 4 && Goes(gated, k) && Stands(gated, k, phase, s)
    ensures Stands(gated, k, phase + 1, Apply(k.cfg, s, Move(k, phase)))
  {
  }

  lemma PlanningMoves(gated: bool, k: Case, phase: nat, s: System)
    requires 4 <= phase < 8 && Goes(gated, k) && Stands(gated, k, phase, s)
    ensures Stands(gated, k, phase + 1, Apply(k.cfg, s, Move(k, phase)))
  {
  }

  /** The policy allows the call, or asks for approval. */
  lemma PolicyMoves(gated: bool, k: Case, s: System)
    requires Goes(gated, k) && Stands(gated, k, 8, s)
    ensures Stands(gated, k, 9, Apply(k.cfg, s, Move(k, 8)))
  {
    Policy.DecidesExactly(k.cfg.config, Row(k, 2), k.call, Policy.Lookup(k.cfg.tools, k.call.toolId), k.now);
  }

  /** The policy allows the replayed call. */
  lemma AllowingMoves(k: Case, s: System)
    requires Goes(true, k) && Stands(true, k, 21, s)
    ensures Stands(true, k, 22, Apply(k.cfg, s, Move(k, 21)))
  {
    var call := Carried(true, k);
    Policy.DecidesExactly(k.cfg.config, Row(k, 6), call, Policy.Lookup(k.cfg.tools, call.toolId), k.now);
  }

  lemma CallingMoves(gated: bool, k: Case, phase: nat, s: System)
    requires (!gated && 9 <= phase < 11) || (gated && 22 <= phase < 24)
    requires Goes(gated, k) && Stands(gated, k, phase, s)
    ensures Stands(gated, k, phase + 1, Apply(k.cfg, s, Move(k, phase)))
  {
  }

  lemma AskingMove(k: Case, s: System)
    requires Goes(true, k) && Stands(true, k, 9, s)
    ensures Stands(true, k, 10, Apply(k.cfg, s, Move(k, 9)))
  {
  }

  lemma WaitingMove(k: Case, s: System)
    requires Goes(true, k) && Stands(true, k, 10, s)
    ensures Stands(true, k, 11, Apply(k.cfg, s, Move(k, 10)))
  {
  }

  lemma ResolvingMoves(k: Case, phase: nat, s: System)
    requires 11 <= phase < 13 && Goes(true, k) && Stands(true, k, phase, s)
    ensures Stands(true, k, phase + 1, Apply(k.cfg, s, Move(k, phase)))
  {
  }

  lemma ConsumingMove(k: Case, s: System)
    requires Goes(true, k) && Grants(k) && Stands(true, k, 13, s)
    ensures Stands(true, k, 14, Apply(k.cfg, s, Move(k, 13)))
  {
  }

  lemma LoggingMove(k: Case, s: System)
    requires Goes(true, k) && Stands(true, k, 14, s)
    ensures Stands(true, k, 15, Apply(k.cfg, s, Move(k, 14)))
  {
  }

  lemma RecordingMove(k: Case, s: System)
    requires Goes(true, k) && Stands(true, k, 15, s)
    ensures Stands(true, k, 16, Apply(k.cfg, s, Move(k, 15)))
  {
  }

  lemma ResumingMoves(k: Case, phase: nat, s: System)
    requires 16 <= phase < 18 && Goes(true, k) && Stands(true, k, phase, s)
    ensures Stands(true, k, phase + 1, Apply(k.cfg, s, Move(k, phase)))
  {
  }

  lemma PendingMove(k: Case, s: System)
    requires Goes(true, k) && Stands(true, k, 18, s)
    ensures Stands(true, k, 19, Apply(k.cfg, s, Move(k, 18)))
  {
  }

  lemma ReplayingMoves(k: Case, phase: nat, s: System)
    requires 19 <= phase < 21 && Goes(true, k) && Stands(true, k, phase, s)
    ensures Stands(true, k, phase + 1, Apply(k.cfg, s, Move(k, phase)))
  {
  }

  lemma ApprovalMoves(k: Case, phase: nat, s: System)
    requires 9 <= phase < 22 && Goes(true, k) && Grants(k) && Stands(true, k, phase, s)
    ensures Stands(true, k, phase + 1, Apply(k.cfg, s, Move(k, phase)))
  {
    if phase == 9 {
      AskingMove(k, s);
    } else if phase == 10 {
      WaitingMove(k, s);
    } else if phase < 13 {
      ResolvingMoves(k, phase, s);
    } else if phase == 13 {
      ConsumingMove(k, s);
    } else if phase == 14 {
      LoggingMove(k, s);
    } else if phase == 15 {
      RecordingMove(k, s);
    } else if phase < 18 {
      ResumingMoves(k, phase, s);
    } else if phase == 18 {
      PendingMove(k, s);
    } else if phase < 21 {
      ReplayingMoves(k, phase, s);
    } else {
      AllowingMoves(k, s);
    }
  }

  lemma OneMove(gated: bool, k: Case, phase: nat, s: System)
    requires Goes(gated, k) && (gated ==> Grants(k)) && phase < Moves(gated) && Stands(gated, k, phase, s)
    ensures Stands(gated, k, phase + 1, Apply(k.cfg, s, Move(k, phase)))
  {
    if phase == 0 {
      StartMove(gated, k, s);
    } else if phase == 1 {
      FirstReadMove(gated, k, s);
    } else if phase < 4 {
      PickupMoves(gated, k, phase, s);
    } else if phase < 8 {
      PlanningMoves(gated, k, phase, s);
    } else if phase == 8 {
      PolicyMoves(gated, k, s);
    } else if !gated || phase > 21 {
      CallingMoves(gated, k, phase, s);
    } else {
      ApprovalMoves(k, phase, s);
    }
  }

  lemma RunGrows(cfg: Settings, task: AgentTask, approvals: Ledger.ApprovalState, actions: seq<Action>, a: Action)
    ensures Run(cfg, task, approvals, actions + [a]) == Apply(cfg, Run(cfg, task, approvals, actions), a)
  {
    assert (actions + [a])[..|actions|] == actions;
  }

  /** Whatever every move of a path carries forward holds at its end. */
  lemma {:induction false} PathCarries(
      good: (nat, System) -> bool, move: nat -> Action, cfg: Settings, task: AgentTask,
      approvals: Ledger.ApprovalState, n: nat)
    requires good(0, Init(task, approvals))
    requires forall phase: nat, s: System {:trigger Apply(cfg, s, move(phase))} ::
      phase < n && good(phase, s) ==> good(phase + 1, Apply(cfg, s, move(phase)))
    ensures good(n, Run(cfg, task, approvals, Path(move, n)))
  {
    if n > 0 {
      PathCarries(good, move, cfg, task, approvals, n - 1);
      RunGrows(cfg, task, approvals, Path(move, n - 1), move(n - 1));
    }
  }

  lemma StartStands(gated: bool, k: Case)
    ensures Stands(gated, k, 0, Init(k.task, k.approvals))
  {
  }

  lemma PathLeads(gated: bool, k: Case)
    requires Goes(gated, k) && (gated ==> Grants(k))
    ensures Stands(gated, k, Moves(gated), Run(k.cfg, k.task, k.approvals, Path(Moving(k), Moves(gated))))
  {
    var good := (phase: nat, s: System) => Stands(gated, k, phase, s);
    StartStands(gated, k);
    forall phase: nat, s: System | phase < Moves(gated) && good(phase, s)
      ensures good(phase + 1, Apply(k.cfg, s, Moving(k)(phase)))
    {
      OneMove(gated, k, phase, s);
    }
    PathCarries(good, Moving(k), k.cfg, k.task, k.approvals, Moves(gated));
  }

  /** Some run of a new task calls the handler for any ungated call that is within the limits. */
  lemma AllowedCallsReachHandlers(k: Case)
    requires Callable(k) && !Policy.Gated(k.task, k.call)
    ensures exists actions ::
      var s := Run(k.cfg, k.task, k.approvals, actions);
      |s.calls| == 1 && s.calls[0].call == k.call
  {
    PathLeads(false, k);
  }

  /**
    Some run of a new task calls the handler for any call that needs approval, is within the other
    limits and has a bound request that can be consumed; the call carries the consumed reference.
   */
  lemma ApprovedCallsReachHandlers(k: Case)
    requires Approvable(k) && Grants(k)
    ensures exists actions ::
      var s := Run(k.cfg, k.task, k.approvals, actions);
      && |s.calls| == 1 && s.calls[0].call == k.call.(approvalReference := Some(k.reference))
      && s.shared.approvals == k.granted
  {
    PathLeads(true, k);
  }
}
