/** Reading a task's counters off its audit log, without replaying it. */
module AuditCounts {
  import opened Common
  import opened AgentModels
  import opened AuditTable
  import opened AuditReplay
  import opened AgentRules
  import opened AgentController

  predicate IsProposal(payload: AuditPayload) { payload.PlannerProposed? }

  predicate IsExecution(payload: AuditPayload) { payload.ToolExecuted? }

  predicate IsOperatorPause(payload: AuditPayload) { payload.OperatorPaused? }

  predicate IsPlannerPause(payload: AuditPayload) { payload.TaskPaused? }

  predicate IsRetryOf(payload: AuditPayload, fingerprint: string) {
    payload.ResultEvaluated? && payload.evaluation == Evaluation(Retry, Some(fingerprint))
  }

  /** How many events of a log have the property. */
  function HowMany(log: seq<AuditPayload>, property: AuditPayload -> bool): nat {
    if log == [] then 0 else Flag(property(log[0])) + HowMany(log[1..], property)
  }

  function Proposals(log: seq<AuditPayload>): seq<Proposal> {
    if log == [] then []
    else (if log[0].PlannerProposed? then [log[0].proposal] else []) + Proposals(log[1..])
  }

  lemma {:induction false} HowManyExtends(log: seq<AuditPayload>, payload: AuditPayload, property: AuditPayload -> bool)
    ensures HowMany(log + [payload], property) == HowMany(log, property) + Flag(property(payload))
  {
    if log != [] {
      HowManyExtends(log[1..], payload, property);
      assert (log + [payload])[1..] == log[1..] + [payload];
    } else {
      assert (log + [payload])[1..] == [];
    }
  }

  lemma {:induction false} ProposalsExtend(log: seq<AuditPayload>, payload: AuditPayload)
    ensures Proposals(log + [payload]) == Proposals(log) + if payload.PlannerProposed? then [payload.proposal] else []
  {
    if log != [] {
      ProposalsExtend(log[1..], payload);
      assert (log + [payload])[1..] == log[1..] + [payload];
    } else {
      assert (log + [payload])[1..] == [];
    }
  }

  lemma RecordCounts(b: Book, payload: AuditPayload)
    ensures var after := Record(b, payload);
            && after.view.steps == b.view.steps + Flag(IsProposal(payload))
            && after.view.toolCalls == b.view.toolCalls + Flag(IsExecution(payload))
            && after.pauses == b.pauses + Flag(IsOperatorPause(payload))
            && after.plannerPauses == b.plannerPauses + Flag(IsPlannerPause(payload))
            && after.proposed == b.proposed + if payload.PlannerProposed? then [payload.proposal] else []
  {
  }

  lemma {:induction false} ReplayCounts(log: seq<AuditPayload>)
    ensures var b := Replay(log);
            && b.view.steps == HowMany(log, IsProposal)
            && b.view.toolCalls == HowMany(log, IsExecution)
            && b.pauses == HowMany(log, IsOperatorPause)
            && b.plannerPauses == HowMany(log, IsPlannerPause)
            && b.proposed == Proposals(log)
  {
    if log != [] {
      var before, last := log[..|log| - 1], log[|log| - 1];
      ReplayCounts(before);
      assert log == before + [last];
      ReplayExtends(before, last);
      RecordCounts(Replay(before), last);
      HowManyExtends(before, last, IsProposal);
      HowManyExtends(before, last, IsExecution);
      HowManyExtends(before, last, IsOperatorPause);
      HowManyExtends(before, last, IsPlannerPause);
      ProposalsExtend(before, last);
    }
  }

  function FailuresOf(b: Book, fingerprint: string): nat {
    if fingerprint in b.view.failures then b.view.failures[fingerprint] else 0
  }

  lemma RecordCountsFailures(b: Book, payload: AuditPayload, fingerprint: string)
    ensures FailuresOf(Record(b, payload), fingerprint) ==
        FailuresOf(b, fingerprint) + Flag(IsRetryOf(payload, fingerprint))
  {
  }

  lemma {:induction false} ReplayCountsFailures(log: seq<AuditPayload>, fingerprint: string)
    ensures FailuresOf(Replay(log), fingerprint) == HowMany(log, (p: AuditPayload) => IsRetryOf(p, fingerprint))
  {
    if log != [] {
      var before, last := log[..|log| - 1], log[|log| - 1];
      assert log == before + [last];
      ReplayCountsFailures(before, fingerprint);
      RecordCountsFailures(Replay(before), last, fingerprint);
      ReplayExtends(before, last);
      HowManyExtends(before, last, (p: AuditPayload) => IsRetryOf(p, fingerprint));
    }
  }

  lemma BookIsReplay(c: AgentController, taskId: string)
    requires c.Valid() && c.Known(taskId)
    ensures c.SnapOf(taskId).book == Replay(Log(c.store.events, taskId))
    ensures c.LogOf(taskId) == Log(c.store.events, taskId)
  {
  }

  /**
    At every return of an API call the log accounts for the task, unless a call on it answered
    with an error part-way.  Steps are the planner's proposals, tool calls are the executions,
    and each failure count is the number of retries of that failure; the budgets hold, with one
    step set aside for a pending proposal, and a task that can go on has seen no failure too
    often.
   */
  lemma LogAccountsForTask(c: AgentController, taskId: string)
    requires c.Valid() && c.Known(taskId) && c.AtRest(taskId) && taskId !in c.interrupted
    ensures var task, log := c.store.tasks[taskId], Log(c.store.events, taskId);
      && ViewOf(task) == Replay(log).view
      && task.stepCount == HowMany(log, IsProposal)
      && task.toolCallCount == HowMany(log, IsExecution)
      && task.toolCallCount + Flag(task.memory.pendingProposal.Some?) <= task.stepCount
      && task.toolCallCount <= task.manifest.maxToolCalls
    ensures var task, log := c.store.tasks[taskId], Log(c.store.events, taskId);
      forall f ::
        && task.Failures(f) == HowMany(log, (p: AuditPayload) => IsRetryOf(p, f))
        && (!task.IsTerminal() ==> task.Failures(f) < task.manifest.maxIdenticalFailures)
  {
    var task, log := c.store.tasks[taskId], Log(c.store.events, taskId);
    BookIsReplay(c, taskId);
    ReplayCounts(log);
    forall f
      ensures task.Failures(f) == HowMany(log, (p: AuditPayload) => IsRetryOf(p, f))
      ensures !task.IsTerminal() ==> task.Failures(f) < task.manifest.maxIdenticalFailures
    {
      ReplayCountsFailures(log, f);
    }
  }

  /**
    The step count passes the step budget only by pauses of the planner, or by the one step
    that ended the task.
   */
  lemma OnlyPausesPassTheBudget(c: AgentController, taskId: string)
    requires c.Valid() && c.Known(taskId) && c.AtRest(taskId) && taskId !in c.interrupted
    ensures var task, log := c.store.tasks[taskId], Log(c.store.events, taskId);
      task.stepCount <= task.manifest.maxSteps + HowMany(log, IsPlannerPause) + Flag(task.IsTerminal())
  {
    BookIsReplay(c, taskId);
    ReplayCounts(Log(c.store.events, taskId));
  }

  /**
    With a fixed playbook the cursor is the step count, the log proposes exactly the first
    entries of the playbook in order, and the loop has turned at most twice per entry, once
    more per operator pause, and once to stop.  So a playbook no longer than the step budget
    keeps within it.
   */
  lemma PlaybookBoundsTheLoop(c: AgentController, taskId: string)
    requires c.Valid() && c.Known(taskId) && c.AtRest(taskId) && taskId !in c.interrupted && c.planner.Playbook?
    ensures var task, log := c.store.tasks[taskId], Log(c.store.events, taskId);
      && task.memory.plannerCursor == task.stepCount <= |c.planner.proposals|
      && Proposals(log) == c.planner.proposals[..task.stepCount]
      && c.iterations[taskId] <= 2 * |c.planner.proposals| + HowMany(log, IsOperatorPause) + 1
      && (|c.planner.proposals| <= task.manifest.maxSteps ==> task.stepCount <= task.manifest.maxSteps)
  {
    BookIsReplay(c, taskId);
    ReplayCounts(Log(c.store.events, taskId));
  }

  lemma RecordGrants(b: Book, payload: AuditPayload, grant: Grant)
    ensures grant in Record(b, payload).granted <==>
      grant in b.granted || payload == ApprovalLogged(grant.requestId, grant.reference)
  {
  }

  /** What a log grants is what its approval events say. */
  lemma {:induction false} GrantsAreLogged(log: seq<AuditPayload>, grant: Grant)
    ensures grant in Replay(log).granted <==> ApprovalLogged(grant.requestId, grant.reference) in log
  {
    if log != [] {
      var before, last := log[..|log| - 1], log[|log| - 1];
      assert log == before + [last];
      GrantsAreLogged(before, grant);
      ReplayExtends(before, last);
      RecordGrants(Replay(before), last, grant);
    }
  }

  lemma RecordExecutes(b: Book, payload: AuditPayload)
    ensures Record(b, payload).executed
        == b.executed + if payload.ToolExecuted? then [Execution(payload.call, b.granted)] else []
  {
  }

  /** Every executed call is kept with what had been granted before it. */
  lemma {:induction false} ExecutionsAreKept(log: seq<AuditPayload>, i: nat)
    requires i < |log| && log[i].ToolExecuted?
    ensures Execution(log[i].call, Replay(log[..i]).granted) in Replay(log).executed
  {
    var before, last := log[..|log| - 1], log[|log| - 1];
    assert log == before + [last];
    RecordExecutes(Replay(before), last);
    if i < |before| {
      ExecutionsAreKept(before, i);
      assert before[..i] == log[..i];
    } else {
      assert before == log[..i];
    }
  }

  /**
    Whatever a task's log says was executed was allowed, even on a task that some call left
    part-way: the action and the tool are in the manifest's lists and not globally denied, and a
    call of an approval-required action carries the reference of an approval of the bound request
    that the log records earlier, for exactly the approved action, tool and operation.
   */
  lemma ExecutedCallsAreApproved(c: AgentController, taskId: string, i: nat)
    requires c.Valid() && c.Known(taskId) && c.AtRest(taskId)
    requires var log := Log(c.store.events, taskId); i < |log| && log[i].ToolExecuted?
    ensures var task, log := c.store.tasks[taskId], Log(c.store.events, taskId);
      var call := log[i].call;
      && call.action in task.manifest.allowedActions && call.action !in c.config.globalDeniedActions
      && call.toolId in task.manifest.allowedTools
      && (call.action in task.manifest.approvalRequiredActions ==>
            && task.binding.Some? && call.approvalReference.Some?
            && ApprovalLogged(task.binding.value.requestId, call.approvalReference.value) in log[..i]
            && var approved := task.binding.value.manifest;
               call.action == approved.action && call.toolId == approved.toolId
               && call.operation == approved.operation)
  {
    var task, log := c.store.tasks[taskId], Log(c.store.events, taskId);
    BookIsReplay(c, taskId);
    ExecutionsAreKept(log, i);
    assert Sound(c.SnapOf(taskId));
    if task.binding.Some? && log[i].call.approvalReference.Some? {
      GrantsAreLogged(log[..i], Grant(task.binding.value.requestId, log[i].call.approvalReference.value));
    }
  }
}
