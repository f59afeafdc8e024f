/**
  The step count and the step budget under interleaving.

  Handler calls keep within the step budget; the step count itself need not.  With a playbook
  planner it can pass the budget exactly when the playbook is longer than the budget.
 */
module AgentBudget {
  import opened Common
  import opened AgentModels
  import opened AgentSteps
  import opened AgentTickets
  import opened AgentInterleaving
  import Policy = AgentPolicy
  import Ledger = ApprovalLedger

  /** Whenever the planner is asked, it answers with the playbook's entry at the task's cursor. */
  predicate PlannedBy(playbook: seq<Proposal>, s: System, a: Action) {
    a.Act? && RunnerAt(s, a.actor).pc == Planning && a.oracle.ok ==>
      a.oracle.proposal == Policy.NextInPlaybook(playbook, RunnerAt(s, a.actor).task)
  }

  predicate Planned(
      cfg: Settings, playbook: seq<Proposal>, task: AgentTask, approvals: Ledger.ApprovalState, actions: seq<Action>)
  {
    actions == [] ||
    (var before := actions[..|actions| - 1];
     && Planned(cfg, playbook, task, approvals, before)
     && PlannedBy(playbook, Run(cfg, task, approvals, before), actions[|actions| - 1]))
  }

  predicate CursorFits(playbook: seq<Proposal>, task: AgentTask) {
    task.memory.plannerCursor == task.stepCount <= |playbook|
  }

  /** A runner that is about to take a step has an entry of the playbook for it. */
  predicate EntryLeft(playbook: seq<Proposal>, r: Runner) {
    && CursorFits(playbook, r.task)
    && (r.pc in {Reading(Checkpoint), Noting(ProposedNote), Saving(AdvanceSave)} ==> r.task.stepCount < |playbook|)
  }

  ghost predicate PlaybookHeld(playbook: seq<Proposal>, s: System) {
    && CursorFits(playbook, s.shared.task)
    && forall id :: id in s.runners ==> EntryLeft(playbook, s.runners[id])
  }

  lemma SaveKeepsEntry(cfg: Settings, playbook: seq<Proposal>, sh: Shared, r: Runner, save: Save, now: int)
    requires EntryLeft(playbook, r) && r.pc == Saving(save)
    ensures var (r', e) := StepSave(cfg, sh, r, save, now);
      EntryLeft(playbook, r') && (e.Wrote? ==> CursorFits(playbook, e.task))
  {
  }

  lemma StepKeepsEntry(cfg: Settings, playbook: seq<Proposal>, sh: Shared, r: Runner, o: Oracle)
    requires CursorFits(playbook, sh.task) && EntryLeft(playbook, r)
    requires r.pc == Planning && o.ok ==> o.proposal == Policy.NextInPlaybook(playbook, r.task)
    ensures var (r', e) := StepRunner(cfg, sh, r, o);
      EntryLeft(playbook, r') && (e.Wrote? ==> CursorFits(playbook, e.task))
  {
    if r.pc.Saving? {
      SaveKeepsEntry(cfg, playbook, sh, r, r.pc.save, o.now);
    }
  }

  lemma {:induction false} PlaybookIsHeld(
      cfg: Settings, playbook: seq<Proposal>, task: AgentTask, approvals: Ledger.ApprovalState, actions: seq<Action>)
    requires CursorFits(playbook, task) && Planned(cfg, playbook, task, approvals, actions)
    ensures PlaybookHeld(playbook, Run(cfg, task, approvals, actions))
  {
    if actions != [] {
      var before, last := actions[..|actions| - 1], actions[|actions| - 1];
      PlaybookIsHeld(cfg, playbook, task, approvals, before);
      var s := Run(cfg, task, approvals, before);
      if last.Act? {
        StepKeepsEntry(cfg, playbook, s.shared, RunnerAt(s, last.actor), last.oracle);
      }
    }
  }

  // ---------------------------------------------------------------- a run that takes n steps

  /** The same move of one runner: nothing fails, and the planner answers `proposal`. */
  function Move(actor: nat, now: int, proposal: Proposal): Action {
    Act(actor, Oracle(CallRun(None), now, now, true, Some(proposal), Policy.Returned("")))
  }

  function Repeated(a: Action, n: nat): seq<Action> {
    if n == 0 then [] else Repeated(a, n - 1) + [a]
  }

  /** Eight moves start a call of its own and take one step; then the call is never heard of again. */
  function Rounds(playbook: seq<Proposal>, now: int, n: nat): seq<Action>
    requires n <= |playbook|
  {
    if n == 0 then [] else Rounds(playbook, now, n - 1) + Repeated(Move(n - 1, now, playbook[n - 1]), 8)
  }

  /** A task that any new call can take a step on. */
  predicate Steppable(task: AgentTask, now: int) {
    && task.status in {Created, Running} && task.memory.pendingProposal.None?
    && task.updatedAt <= now < task.deadlineAt
  }

  function Started(task: AgentTask, now: int): AgentTask {
    Evolve(task, WithStatus(task, Running), now)
  }

  function Stepped(task: AgentTask, now: int): AgentTask {
    Evolve(Started(task, now), Advanced(Started(task, now)), now)
  }

  function PhasePc(phase: nat): Pc {
    match phase
    case 1 => Reading(RunRead)
    case 2 => Saving(StartSave)
    case 3 => Reading(LoopRead)
    case 4 => Planning
    case 5 => Reading(Checkpoint)
    case 6 => Noting(ProposedNote)
    case 7 => Saving(AdvanceSave)
    case _ => Idle
  }

  /** How far the call of `actor` on the task `was` has come after so many moves. */
  predicate InPhase(phase: nat, was: AgentTask, actor: nat, now: int, s: System) {
    && (phase > 0 ==> actor in s.runners)
    && s.shared.task == (if phase < 3 then was else if phase < 8 then Started(was, now) else Stepped(was, now))
    && (phase < 8 ==>
          && RunnerAt(s, actor).pc == PhasePc(phase)
          && (phase in {1, 3} ==> RunnerAt(s, actor).left >= 1)
          && (phase == 2 ==> RunnerAt(s, actor).task == was && RunnerAt(s, actor).left >= 1)
          && (phase >= 4 ==> RunnerAt(s, actor).task == Started(was, now)))
  }

  lemma PickupMoves(cfg: Settings, phase: nat, was: AgentTask, actor: nat, now: int, proposal: Proposal, s: System)
    requires phase < 4 && InPhase(phase, was, actor, now, s)
    requires Steppable(was, now) && cfg.config.maxControllerIterations >= 1
    ensures InPhase(phase + 1, was, actor, now, Apply(cfg, s, Move(actor, now, proposal)))
  {
  }

  lemma StepMoves(cfg: Settings, phase: nat, was: AgentTask, actor: nat, now: int, proposal: Proposal, s: System)
    requires 4 <= phase < 8 && InPhase(phase, was, actor, now, s) && Steppable(was, now)
    ensures InPhase(phase + 1, was, actor, now, Apply(cfg, s, Move(actor, now, proposal)))
  {
  }

  lemma RunExtends(
      cfg: Settings, playbook: seq<Proposal>, task: AgentTask, approvals: Ledger.ApprovalState,
      actions: seq<Action>, a: Action)
    ensures Run(cfg, task, approvals, actions + [a]) == Apply(cfg, Run(cfg, task, approvals, actions), a)
    ensures Planned(cfg, playbook, task, approvals, actions + [a])
        <==>
          && Planned(cfg, playbook, task, approvals, actions)
          && PlannedBy(playbook, Run(cfg, task, approvals, actions), a)
  {
    assert (actions + [a])[..|actions|] == actions;
  }

  lemma MoveKeepsOthers(cfg: Settings, s: System, actor: nat, now: int, proposal: Proposal)
    ensures Apply(cfg, s, Move(actor, now, proposal)).runners.Keys == s.runners.Keys + {actor}
  {
  }

  /** Where a call stands after `actions`; `others` are the runners there were before it. */
  ghost predicate Standing(
      cfg: Settings, playbook: seq<Proposal>, task: AgentTask, approvals: Ledger.ApprovalState,
      was: AgentTask, actor: nat, now: int, others: set<nat>, actions: seq<Action>, phase: nat)
  {
    && Planned(cfg, playbook, task, approvals, actions)
    && InPhase(phase, was, actor, now, Run(cfg, task, approvals, actions))
    && Run(cfg, task, approvals, actions).runners.Keys <= others + {actor}
  }

  lemma CallComesForward(
      cfg: Settings, playbook: seq<Proposal>, task: AgentTask, approvals: Ledger.ApprovalState,
      was: AgentTask, actor: nat, now: int, others: set<nat>, actions: seq<Action>, phase: nat)
    requires phase < 8 && cfg.config.maxControllerIterations >= 1 && Steppable(was, now)
    requires CursorFits(playbook, was) && was.stepCount < |playbook|
    requires Standing(cfg, playbook, task, approvals, was, actor, now, others, actions, phase)
    ensures Standing(cfg, playbook, task, approvals, was, actor, now, others,
                     actions + [Move(actor, now, playbook[was.stepCount])], phase + 1)
  {
    var s, a := Run(cfg, task, approvals, actions), Move(actor, now, playbook[was.stepCount]);
    RunExtends(cfg, playbook, task, approvals, actions, a);
    MoveKeepsOthers(cfg, s, actor, now, playbook[was.stepCount]);
    if phase < 4 {
      PickupMoves(cfg, phase, was, actor, now, playbook[was.stepCount], s);
    } else {
      StepMoves(cfg, phase, was, actor, now, playbook[was.stepCount], s);
    }
  }

  lemma {:induction false} RepeatedMoves(good: (seq<Action>, nat) -> bool, before: seq<Action>, a: Action, n: nat)
    requires n <= 8 && good(before, 0)
    requires forall actions: seq<Action>, p: nat :: p < 8 && good(actions, p) ==> good(actions + [a], p + 1)
    ensures good(before + Repeated(a, n), n)
  {
    if n == 0 {
      assert before + Repeated(a, 0) == before;
    } else {
      RepeatedMoves(good, before, a, n - 1);
      assert before + Repeated(a, n) == before + Repeated(a, n - 1) + [a];
    }
  }

  lemma RoundTakesAStep(
      cfg: Settings, playbook: seq<Proposal>, task: AgentTask, approvals: Ledger.ApprovalState,
      was: AgentTask, actor: nat, now: int, others: set<nat>, before: seq<Action>)
    requires cfg.config.maxControllerIterations >= 1 && Steppable(was, now)
    requires CursorFits(playbook, was) && was.stepCount < |playbook|
    requires Standing(cfg, playbook, task, approvals, was, actor, now, others, before, 0)
    ensures Standing(cfg, playbook, task, approvals, was, actor, now, others,
                     before + Repeated(Move(actor, now, playbook[was.stepCount]), 8), 8)
  {
    var good := (actions: seq<Action>, p: nat) =>
      Standing(cfg, playbook, task, approvals, was, actor, now, others, actions, p);
    var a := Move(actor, now, playbook[was.stepCount]);
    forall actions: seq<Action>, p: nat | p < 8 && good(actions, p)
      ensures good(actions + [a], p + 1)
    {
      CallComesForward(cfg, playbook, task, approvals, was, actor, now, others, actions, p);
    }
    RepeatedMoves(good, before, a, 8);
  }

  /** A new task has had `n` steps taken on it by `n` calls. */
  ghost predicate HasStepped(
      cfg: Settings, playbook: seq<Proposal>, task: AgentTask, approvals: Ledger.ApprovalState,
      actions: seq<Action>, n: nat)
  {
    var s := Run(cfg, task, approvals, actions);
    && Planned(cfg, playbook, task, approvals, actions)
    && s.shared.task.stepCount == n && CursorFits(playbook, s.shared.task) && Steppable(s.shared.task, task.createdAt)
    && (forall id :: id in s.runners ==> id < n)
  }

  lemma OneMoreRound(
      cfg: Settings, playbook: seq<Proposal>, task: AgentTask, approvals: Ledger.ApprovalState,
      before: seq<Action>, n: nat)
    requires cfg.config.maxControllerIterations >= 1 && n < |playbook|
    requires HasStepped(cfg, playbook, task, approvals, before, n)
    ensures HasStepped(cfg, playbook, task, approvals,
                       before + Repeated(Move(n, task.createdAt, playbook[n]), 8), n + 1)
  {
    var s := Run(cfg, task, approvals, before);
    RoundTakesAStep(cfg, playbook, task, approvals, s.shared.task, n, task.createdAt, s.runners.Keys, before);
  }

  /** `n` calls, each abandoned after its step, take the first `n` steps of any playbook. */
  lemma {:induction false} RoundsTakeSteps(
      cfg: Settings, playbook: seq<Proposal>, task: AgentTask, approvals: Ledger.ApprovalState, n: nat)
    requires cfg.config.maxControllerIterations >= 1 && task.manifest.maximumRuntimeSeconds >= 1
    requires task == NewTask(task.taskId, task.objective, task.manifest, task.binding, task.createdAt)
    requires n <= |playbook|
    ensures HasStepped(cfg, playbook, task, approvals, Rounds(playbook, task.createdAt, n), n)
  {
    if n > 0 {
      RoundsTakeSteps(cfg, playbook, task, approvals, n - 1);
      OneMoreRound(cfg, playbook, task, approvals, Rounds(playbook, task.createdAt, n - 1), n - 1);
    }
  }

  /** The concrete run: with a longer playbook a new task takes one step more than its budget allows. */
  lemma StepsMayPassTheBudget(
      cfg: Settings, playbook: seq<Proposal>, task: AgentTask, approvals: Ledger.ApprovalState)
    requires cfg.config.maxControllerIterations >= 1 && task.manifest.maximumRuntimeSeconds >= 1
    requires task == NewTask(task.taskId, task.objective, task.manifest, task.binding, task.createdAt)
    requires |playbook| > task.manifest.maxSteps
    ensures var n := task.manifest.maxSteps + 1;
            var actions := Rounds(playbook, task.createdAt, n);
      Planned(cfg, playbook, task, approvals, actions) && Run(cfg, task, approvals, actions).shared.task.stepCount == n
  {
    RoundsTakeSteps(cfg, playbook, task, approvals, task.manifest.maxSteps + 1);
  }

  /** Some run takes more steps than the budget exactly when the playbook is longer than the budget. */
  lemma StepsPassTheBudgetExactlyWhen(
      cfg: Settings, playbook: seq<Proposal>, task: AgentTask, approvals: Ledger.ApprovalState)
    requires cfg.config.maxControllerIterations >= 1 && task.manifest.maximumRuntimeSeconds >= 1
    requires task == NewTask(task.taskId, task.objective, task.manifest, task.binding, task.createdAt)
    ensures (exists actions ::
               && Planned(cfg, playbook, task, approvals, actions)
               && Run(cfg, task, approvals, actions).shared.task.stepCount > task.manifest.maxSteps)
        <==> |playbook| > task.manifest.maxSteps
  {
    if |playbook| > task.manifest.maxSteps {
      StepsMayPassTheBudget(cfg, playbook, task, approvals);
    } else {
      forall actions | Planned(cfg, playbook, task, approvals, actions)
        ensures Run(cfg, task, approvals, actions).shared.task.stepCount <= task.manifest.maxSteps
      {
        PlaybookIsHeld(cfg, playbook, task, approvals, actions);
      }
    }
  }
}
