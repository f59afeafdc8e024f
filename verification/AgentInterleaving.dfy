/**
  Any number of API calls on one task, interleaved step by step with each other and with any
  use of the approval centre.

  `calls` lists every handler invocation.  Steps are named by the step count they were taken
  at; following each step shows that it pays for at most one invocation.
 */
module AgentInterleaving {
  import opened Common
  import opened AgentModels
  import opened AgentSteps
  import opened AgentTickets
  import Policy = AgentPolicy
  import Ledger = ApprovalLedger

  /**
    `late` says the task was already terminal when the handler was called, `at` is the reading of
    the clock that the deadline was checked with.
   */
  datatype Invocation = Invocation(
    actor: nat, ticket: nat, call: ToolCall, replayed: bool, late: bool, at: int)

  /**
    `counted` and `echoed` are bookkeeping: steps whose call was counted, and whose proposal
    brought its own reference.
   */
  datatype System = System(
    shared: Shared, runners: map<nat, Runner>, calls: seq<Invocation>, counted: set<nat>, echoed: set<nat>)

  datatype Action = Act(actor: nat, oracle: Oracle) | Govern(transaction: Ledger.Transaction)

  function NewRunner(task: AgentTask): Runner {
    Runner(Idle, 0, task, Pause(""), ToolResult(false, "", "", "", false), "", false, 0)
  }

  function RunnerAt(s: System, actor: nat): Runner {
    if actor in s.runners then s.runners[actor] else NewRunner(s.shared.task)
  }

  function SharedAfter(sh: Shared, e: Effect): Shared {
    match e
    case Wrote(task, pendingTicket) => sh.(task := task, pendingTicket := pendingTicket)
    case Transacted(approvals) => sh.(approvals := approvals)
    case _ => sh
  }

  function ProposedCall(proposal: Proposal): ToolCall {
    if proposal.UseTool? then proposal.call else ToolCall("", "", "", "", None)
  }

  function Apply(cfg: Settings, s: System, a: Action): System {
    match a
    case Govern(t) =>
      s.(shared := s.shared.(approvals := Ledger.Execute(cfg.env, cfg.evaluator, cfg.hash, s.shared.approvals, t).0))
    case Act(actor, o) =>
      var r := RunnerAt(s, actor);
      var (r', e) := StepRunner(cfg, s.shared, r, o);
      System(
        SharedAfter(s.shared, e),
        s.runners[actor := r'],
        if e.Called?
        then s.calls + [Invocation(actor, r.ticket, ProposedCall(r.proposal), r.replayed, s.shared.task.IsTerminal(),
                                   if r.pc.Calling? then r.pc.at else o.now)]
        else s.calls,
        if e.Wrote? && r.pc == Saving(CountSave) then s.counted + {r.ticket} else s.counted,
        if e.Wrote? && r.pc == Saving(AdvanceSave) && BringsReference(r.proposal) then s.echoed + {r'.ticket}
        else s.echoed)
  }

  function Init(task: AgentTask, approvals: Ledger.ApprovalState): System {
    System(Shared(task, approvals, 0), map[], [], {}, {})
  }

  function Run(cfg: Settings, task: AgentTask, approvals: Ledger.ApprovalState, actions: seq<Action>): System {
    if actions == [] then Init(task, approvals)
    else Apply(cfg, Run(cfg, task, approvals, actions[..|actions| - 1]), actions[|actions| - 1])
  }

  function Tickets(calls: seq<Invocation>): set<nat> {
    set i | 0 <= i < |calls| :: calls[i].ticket
  }

  // ---------------------------------------------------------------- the step budget

  /** What holds of one runner, whatever the others do. */
  ghost predicate RunnerOk(s: System, r: Runner) {
    var task := s.shared.task;
    && Snapshot(r.task, task)
    && (Holding(r) ==>
        1 <= r.ticket <= r.task.stepCount && r.ticket !in Tickets(s.calls) && r.ticket != s.shared.pendingTicket)
    && (r.pc == Saving(PopSave) ==> r.task.ReplayReady())
    && (Cleared(r) ==> r.ticket <= task.manifest.maxSteps && r.task.toolCallCount < task.manifest.maxToolCalls)
    && (Uncounted(r) ==>
          && r.ticket in Tickets(s.calls) && r.ticket !in s.counted
          && r.task.toolCallCount < task.manifest.maxToolCalls)
  }

  /** Two runners never hold the same step. */
  ghost predicate Apart(a: Runner, b: Runner) {
    (Holding(a) && Holding(b)) || (Uncounted(a) && Uncounted(b)) ==> a.ticket != b.ticket
  }

  ghost predicate SlotOk(s: System) {
    var task := s.shared.task;
    && s.shared.pendingTicket <= task.stepCount
    && (s.shared.pendingTicket >= 1 ==> s.shared.pendingTicket !in Tickets(s.calls))
    && (task.memory.pendingProposal.Some? ==> s.shared.pendingTicket >= 1)
    && task.toolCallCount <= task.manifest.maxToolCalls
  }

  ghost predicate CallsOk(s: System) {
    var task := s.shared.task;
    && (forall i :: 0 <= i < |s.calls| ==>
        1 <= s.calls[i].ticket <= task.manifest.maxSteps && s.calls[i].ticket <= task.stepCount)
    && (forall i, j :: 0 <= i < j < |s.calls| ==> s.calls[i].ticket != s.calls[j].ticket)
    && s.counted <= Tickets(s.calls) && |s.counted| == task.toolCallCount
  }

  ghost predicate StepsPaid(s: System) {
    && SlotOk(s) && CallsOk(s)
    && (forall id :: id in s.runners ==> RunnerOk(s, s.runners[id]))
    && (forall a, b :: a in s.runners && b in s.runners && a != b ==> Apart(s.runners[a], s.runners[b]))
  }

  lemma TicketsGrow(calls: seq<Invocation>, invocation: Invocation)
    ensures Tickets(calls + [invocation]) == Tickets(calls) + {invocation.ticket}
  {
    var all := calls + [invocation];
    forall t | t in Tickets(calls) + {invocation.ticket}
      ensures t in Tickets(all)
    {
      if t in Tickets(calls) {
        var i :| 0 <= i < |calls| && calls[i].ticket == t;
        assert all[i].ticket == t;
      } else {
        assert all[|calls|].ticket == t;
      }
    }
  }

  /** The acting runner keeps its own promise. */
  lemma ActorStaysOk(cfg: Settings, s: System, actor: nat, o: Oracle)
    requires SlotOk(s) && CallsOk(s) && RunnerOk(s, RunnerAt(s, actor))
    ensures var s' := Apply(cfg, s, Act(actor, o)); RunnerOk(s', s'.runners[actor])
  {
    var r := RunnerAt(s, actor);
    var (r', e) := StepRunner(cfg, s.shared, r, o);
    var s' := Apply(cfg, s, Act(actor, o));
    StepKeepsSnapshot(cfg, s.shared, r, o);
    StepFlows(cfg, s.shared, r, o);
    StepClears(cfg, s.shared, r, o);
    if e.Called? {
      TicketsGrow(s.calls, s'.calls[|s.calls|]);
    } else {
      assert s'.calls == s.calls;
    }
  }

  /** Every other runner keeps its promise too. */
  lemma OtherStaysOk(cfg: Settings, s: System, actor: nat, o: Oracle, other: Runner)
    requires RunnerOk(s, RunnerAt(s, actor)) && RunnerOk(s, other) && Apart(RunnerAt(s, actor), other)
    ensures RunnerOk(Apply(cfg, s, Act(actor, o)), other)
  {
    var r := RunnerAt(s, actor);
    var (r', e) := StepRunner(cfg, s.shared, r, o);
    var s' := Apply(cfg, s, Act(actor, o));
    StepKeepsSnapshot(cfg, s.shared, r, o);
    StepFlows(cfg, s.shared, r, o);
    if e.Called? {
      TicketsGrow(s.calls, s'.calls[|s.calls|]);
    }
  }

  lemma StaysApart(cfg: Settings, s: System, actor: nat, o: Oracle, other: Runner)
    requires SlotOk(s) && CallsOk(s)
    requires RunnerOk(s, RunnerAt(s, actor)) && RunnerOk(s, other) && Apart(RunnerAt(s, actor), other)
    ensures Apart(Apply(cfg, s, Act(actor, o)).runners[actor], other)
  {
    var r := RunnerAt(s, actor);
    StepKeepsSnapshot(cfg, s.shared, r, o);
    StepFlows(cfg, s.shared, r, o);
  }

  lemma SlotStaysOk(cfg: Settings, s: System, actor: nat, o: Oracle)
    requires SlotOk(s) && CallsOk(s) && RunnerOk(s, RunnerAt(s, actor))
    ensures SlotOk(Apply(cfg, s, Act(actor, o)))
  {
    var r := RunnerAt(s, actor);
    var (r', e) := StepRunner(cfg, s.shared, r, o);
    var s' := Apply(cfg, s, Act(actor, o));
    StepKeepsSnapshot(cfg, s.shared, r, o);
    StepFlows(cfg, s.shared, r, o);
    if e.Called? {
      TicketsGrow(s.calls, s'.calls[|s.calls|]);
    }
  }

  lemma CallsStayOk(cfg: Settings, s: System, actor: nat, o: Oracle)
    requires SlotOk(s) && CallsOk(s) && RunnerOk(s, RunnerAt(s, actor))
    ensures CallsOk(Apply(cfg, s, Act(actor, o)))
  {
    var r := RunnerAt(s, actor);
    var (r', e) := StepRunner(cfg, s.shared, r, o);
    var s' := Apply(cfg, s, Act(actor, o));
    StepKeepsSnapshot(cfg, s.shared, r, o);
    StepFlows(cfg, s.shared, r, o);
    if e.Called? {
      NewCallIsOk(s, s', r.ticket);
    }
  }

  lemma NewCallIsOk(s: System, s': System, ticket: nat)
    requires CallsOk(s) && ticket !in Tickets(s.calls)
    requires 1 <= ticket <= s.shared.task.manifest.maxSteps && ticket <= s.shared.task.stepCount
    requires s'.shared.task == s.shared.task && s'.counted == s.counted
    requires |s'.calls| == |s.calls| + 1 && s'.calls == s.calls + [s'.calls[|s.calls|]]
    requires s'.calls[|s.calls|].ticket == ticket
    ensures CallsOk(s')
  {
    TicketsGrow(s.calls, s'.calls[|s.calls|]);
    assert forall i :: 0 <= i < |s.calls| ==> s.calls[i].ticket in Tickets(s.calls);
  }

  lemma Assemble(s: System, s': System, actor: nat, r': Runner)
    requires StepsPaid(s) && SlotOk(s') && CallsOk(s') && s'.runners == s.runners[actor := r'] && RunnerOk(s', r')
    requires forall id :: id in s.runners && id != actor ==> RunnerOk(s', s.runners[id]) && Apart(r', s.runners[id])
    ensures StepsPaid(s')
  {
  }

  lemma StepKeepsStepsPaid(cfg: Settings, s: System, a: Action)
    requires StepsPaid(s)
    ensures StepsPaid(Apply(cfg, s, a))
  {
    if a.Act? {
      var s' := Apply(cfg, s, a);
      SlotStaysOk(cfg, s, a.actor, a.oracle);
      CallsStayOk(cfg, s, a.actor, a.oracle);
      ActorStaysOk(cfg, s, a.actor, a.oracle);
      forall id | id in s.runners && id != a.actor
        ensures RunnerOk(s', s.runners[id]) && Apart(s'.runners[a.actor], s.runners[id])
      {
        OtherStaysOk(cfg, s, a.actor, a.oracle, s.runners[id]);
        StaysApart(cfg, s, a.actor, a.oracle, s.runners[id]);
      }
      Assemble(s, s', a.actor, s'.runners[a.actor]);
    }
  }

  lemma {:induction false} RunKeepsStepsPaid(
      cfg: Settings, task: AgentTask, approvals: Ledger.ApprovalState, actions: seq<Action>)
    requires task.stepCount == task.toolCallCount == 0 && task.memory.pendingProposal.None?
    ensures StepsPaid(Run(cfg, task, approvals, actions))
    ensures SameIdentity(Run(cfg, task, approvals, actions).shared.task, task)
  {
    if actions != [] {
      var before := actions[..|actions| - 1];
      RunKeepsStepsPaid(cfg, task, approvals, before);
      StepKeepsStepsPaid(cfg, Run(cfg, task, approvals, before), actions[|actions| - 1]);
      TaskMovesByValidUpdates(cfg, Run(cfg, task, approvals, before), actions[|actions| - 1]);
    } else {
      assert Tickets([]) == {};
    }
  }

  /** The stored task only ever changes by a valid update of itself. */
  lemma TaskMovesByValidUpdates(cfg: Settings, s: System, a: Action)
    requires StepsPaid(s)
    ensures var task' := Apply(cfg, s, a).shared.task;
            task' == s.shared.task || ValidUpdate(s.shared.task, task')
  {
    if a.Act? {
      StepKeepsSnapshot(cfg, s.shared, RunnerAt(s, a.actor), a.oracle);
    }
  }

  lemma {:induction false} DistinctTicketsFit(tickets: set<nat>, n: nat)
    requires forall t :: t in tickets ==> 1 <= t <= n
    ensures |tickets| <= n
    decreases n
  {
    if n > 0 {
      DistinctTicketsFit(tickets - {n}, n - 1);
      assert tickets <= (tickets - {n}) + {n};
    } else {
      assert tickets == {};
    }
  }

  lemma {:induction false} OneTicketPerCall(calls: seq<Invocation>)
    requires forall i, j :: 0 <= i < j < |calls| ==> calls[i].ticket != calls[j].ticket
    ensures |Tickets(calls)| == |calls|
  {
    if calls == [] {
      assert Tickets(calls) == {};
    } else {
      var n := |calls| - 1;
      OneTicketPerCall(calls[..n]);
      assert calls == calls[..n] + [calls[n]];
      TicketsGrow(calls[..n], calls[n]);
      assert calls[n].ticket !in Tickets(calls[..n]);
    }
  }

  /**
    The step budget bounds the handler: in any interleaving of any number of calls, handlers
    are invoked at most `maxSteps` times, every counted call was really made, and the counted
    calls stay within the call budget.
   */
  lemma HandlerCallsAreBounded(
      cfg: Settings, task: AgentTask, approvals: Ledger.ApprovalState, actions: seq<Action>)
    requires task.stepCount == task.toolCallCount == 0 && task.memory.pendingProposal.None?
    ensures var s := Run(cfg, task, approvals, actions);
            && s.shared.task.toolCallCount <= |s.calls| <= task.manifest.maxSteps
            && s.shared.task.toolCallCount <= task.manifest.maxToolCalls
  {
    RunKeepsStepsPaid(cfg, task, approvals, actions);
    var s := Run(cfg, task, approvals, actions);
    OneTicketPerCall(s.calls);
    DistinctTicketsFit(Tickets(s.calls), task.manifest.maxSteps);
    CountedFits(s.counted, Tickets(s.calls));
  }

  lemma {:induction false} CountedFits(a: set<nat>, b: set<nat>)
    requires a <= b
    ensures |a| <= |b|
    decreases a
  {
    if a != {} {
      var x :| x in a;
      CountedFits(a - {x}, b - {x});
    }
  }

  // ---------------------------------------------------------------- terminal tasks

  /** A runner that has called a handler after the end can only count that call in vain. */
  predicate Spent(r: Runner) {
    r.pc in {Idle, Reading(RunRead), Reading(ApproveRead), Reading(CancelRead), Reading(PauseRead), Reading(ResumeRead),
             Saving(CountSave)}
  }

  function LateCalls(calls: seq<Invocation>, actor: nat): nat {
    if calls == [] then 0
    else
      var last := calls[|calls| - 1];
      LateCalls(calls[..|calls| - 1], actor) + if last.late && last.actor == actor then 1 else 0
  }

  ghost predicate EndRespected(s: System, actor: nat) {
    && LateCalls(s.calls, actor) <= 1
    && (LateCalls(s.calls, actor) == 1 ==> s.shared.task.IsTerminal() && Spent(RunnerAt(s, actor)))
  }

  /** A terminal task is never written again. */
  lemma TerminalTaskIsFrozen(cfg: Settings, s: System, a: Action)
    requires StepsPaid(s) && s.shared.task.IsTerminal()
    ensures Apply(cfg, s, a).shared.task == s.shared.task
  {
    TaskMovesByValidUpdates(cfg, s, a);
  }

  lemma SpentStaysSpent(cfg: Settings, sh: Shared, r: Runner, o: Oracle)
    requires sh.task.IsTerminal() && Spent(r)
    ensures var (r', e) := StepRunner(cfg, sh, r, o); Spent(r') && !e.Called?
  {
  }

  lemma StepRespectsEnd(cfg: Settings, s: System, a: Action, actor: nat)
    requires StepsPaid(s) && EndRespected(s, actor)
    ensures EndRespected(Apply(cfg, s, a), actor)
  {
    if a.Act? {
      var s' := Apply(cfg, s, a);
      var r := RunnerAt(s, a.actor);
      StepKeepsSnapshot(cfg, s.shared, r, a.oracle);
      StepFlows(cfg, s.shared, r, a.oracle);
      if s.shared.task.IsTerminal() {
        TerminalTaskIsFrozen(cfg, s, a);
        if Spent(r) {
          SpentStaysSpent(cfg, s.shared, r, a.oracle);
        }
      }
      if s'.calls != s.calls {
        assert s'.calls[..|s.calls|] == s.calls;
      }
    }
  }

  /**
    Once a task has ended, every call still in flight reaches a handler at most once more,
    and nothing it computes is ever written: the stored task stays what it was.
   */
  lemma {:induction false} EndedTasksStayEnded(
      cfg: Settings, task: AgentTask, approvals: Ledger.ApprovalState, actions: seq<Action>, n: nat, actor: nat)
    requires task.stepCount == task.toolCallCount == 0 && task.memory.pendingProposal.None?
    requires n <= |actions|
    ensures LateCalls(Run(cfg, task, approvals, actions).calls, actor) <= 1
    ensures EndRespected(Run(cfg, task, approvals, actions), actor)
    ensures var ended := Run(cfg, task, approvals, actions[..n]).shared.task;
            ended.IsTerminal() ==> Run(cfg, task, approvals, actions).shared.task == ended
  {
    if actions != [] {
      var before := actions[..|actions| - 1];
      EndedTasksStayEnded(cfg, task, approvals, before, if n < |actions| then n else n - 1, actor);
      RunKeepsStepsPaid(cfg, task, approvals, before);
      StepRespectsEnd(cfg, Run(cfg, task, approvals, before), actions[|actions| - 1], actor);
      if n < |actions| {
        assert before[..n] == actions[..n];
        if Run(cfg, task, approvals, actions[..n]).shared.task.IsTerminal() {
          TerminalTaskIsFrozen(cfg, Run(cfg, task, approvals, before), actions[|actions| - 1]);
        }
      } else {
        assert actions[..n] == actions;
      }
    } else {
      assert actions[..n] == actions;
    }
  }

  // ---------------------------------------------------------------- the deadline

  /** Whoever is about to call a handler, or has called one, has read the clock before the deadline. */
  ghost predicate InTime(s: System) {
    && (forall id :: id in s.runners ==>
          (s.runners[id].pc.Calling? ==> s.runners[id].pc.at < s.shared.task.deadlineAt))
    && (forall i :: 0 <= i < |s.calls| ==> s.calls[i].at < s.shared.task.deadlineAt)
  }

  lemma ClearingReadsTheClock(cfg: Settings, sh: Shared, r: Runner, o: Oracle)
    ensures var (r', e) := StepRunner(cfg, sh, r, o);
      && (r'.pc.Calling? ==> r.pc == Deadline && r'.pc.at < r.task.deadlineAt)
      && (e.Called? ==> r.pc.Calling?)
  {
  }

  lemma StepKeepsInTime(cfg: Settings, s: System, a: Action)
    requires StepsPaid(s) && InTime(s)
    ensures InTime(Apply(cfg, s, a))
  {
    TaskMovesByValidUpdates(cfg, s, a);
    if a.Act? {
      ClearingReadsTheClock(cfg, s.shared, RunnerAt(s, a.actor), a.oracle);
    }
  }

  lemma {:induction false} RunKeepsInTime(
      cfg: Settings, task: AgentTask, approvals: Ledger.ApprovalState, actions: seq<Action>)
    requires task.stepCount == task.toolCallCount == 0 && task.memory.pendingProposal.None?
    ensures InTime(Run(cfg, task, approvals, actions))
  {
    if actions != [] {
      var before := actions[..|actions| - 1];
      RunKeepsInTime(cfg, task, approvals, before);
      RunKeepsStepsPaid(cfg, task, approvals, before);
      StepKeepsInTime(cfg, Run(cfg, task, approvals, before), actions[|actions| - 1]);
    }
  }

  /** In any interleaving a reading of the clock before the task's deadline stands behind every handler call. */
  lemma HandlerCallsAreInTime(
      cfg: Settings, task: AgentTask, approvals: Ledger.ApprovalState, actions: seq<Action>, i: nat)
    requires task.stepCount == task.toolCallCount == 0 && task.memory.pendingProposal.None?
    requires i < |Run(cfg, task, approvals, actions).calls|
    ensures Run(cfg, task, approvals, actions).calls[i].at < task.deadlineAt
  {
    RunKeepsInTime(cfg, task, approvals, actions);
    RunKeepsStepsPaid(cfg, task, approvals, actions);
  }
}
