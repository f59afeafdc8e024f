/**
  One pass of the controller loop as a script: which events it logs, which handler it calls and
  how it ends, given what the clock, the planner and the handler answer.  A pass plays its script
  out, or fails part-way through it.
 */
module AgentPasses {
  import opened Common
  import opened AgentModels
  import opened AgentWorld
  import opened AuditTable
  import Policy = AgentPolicy
  import Approvals = ApprovalModels

  datatype Reply = Answer(task: AgentTask) | Error

  /** How one loop iteration ends. */
  datatype Turn = Again | Done(reply: Reply)

  /** What can be seen of a task's log and of the world at one moment. */
  datatype Sight = Sight(
    log: seq<AuditPayload>, clock: seq<int>, answers: seq<PlannerAnswer>, calls: seq<HandlerCall>)

  datatype End = GoesOn | Ends(status: TaskStatus) | Breaks

  /** The events, the handler calls with the number of events logged before them, and the end. */
  datatype Script = Script(events: seq<AuditPayload>, calls: seq<HandlerCall>, before: nat, end: End)

  /** What a pass is played with besides the task. */
  datatype Rules = Rules(config: RuntimeConfig, digest: FailureMaterial -> string, tools: map<string, ToolSpec>)

  function Ending(event: AuditPayload, status: TaskStatus): Script {
    Script([event], [], 0, Ends(status))
  }

  function Only(end: End): Script {
    Script([], [], 0, end)
  }

  /** First these events, then these handler calls, then the rest. */
  function Then(events: seq<AuditPayload>, calls: seq<HandlerCall>, rest: Script): Script {
    Script(events + rest.events, calls + rest.calls, |events| + if calls == [] then rest.before else 0, rest.end)
  }

  /**
    The script was played out, or an error stopped it part-way.  The planner was not asked, and
    playing a script out takes a reading of the clock.
   */
  predicate Follows(script: Script, from: Sight, to: Sight, turn: Turn) {
    && from.log <= to.log <= from.log + script.events
    && from.calls <= to.calls <= from.calls + script.calls
    && (to.calls != from.calls ==> |from.log| + script.before <= |to.log|)
    && from.clock <= to.clock && from.answers == to.answers
    && (turn != Done(Error) ==>
          && to.log == from.log + script.events && to.calls == from.calls + script.calls
          && |from.clock| < |to.clock|
          && script.end == if turn.Again? then GoesOn else Ends(turn.reply.task.status))
  }

  /** How far a script has been played: these events are logged and these handlers were called. */
  predicate Reached(events: seq<AuditPayload>, calls: seq<HandlerCall>, from: Sight, now: Sight) {
    && now.log == from.log + events && now.calls == from.calls + calls
    && from.clock <= now.clock && now.answers == from.answers
  }

  lemma FollowsThen(events: seq<AuditPayload>, calls: seq<HandlerCall>, script: Script, from: Sight, mid: Sight,
                    to: Sight, turn: Turn)
    requires Reached(events, calls, from, mid) && Follows(script, mid, to, turn)
    ensures Follows(Then(events, calls, script), from, to, turn)
  {
    assert from.log + (events + script.events) == mid.log + script.events;
    assert from.calls + (calls + script.calls) == mid.calls + script.calls;
  }

  function ReadAt(clock: seq<int>, i: nat): int {
    if i < |clock| then clock[i] else 0
  }

  function OutcomeAt(calls: seq<HandlerCall>, i: nat): Policy.HandlerOutcome {
    if i < |calls| then calls[i].outcome else Policy.Returned("")
  }

  /** A retryable failure is counted; the same failure too often blocks the task. */
  function RetryScript(task: AgentTask, fingerprint: string): Script {
    CountedScript(FailureCounted(task, fingerprint), fingerprint)
  }

  function CountedScript(task: AgentTask, fingerprint: string): Script {
    var count := task.Failures(fingerprint);
    if count >= task.manifest.maxIdenticalFailures then Ending(RecoveryStopped(fingerprint, count), Blocked)
    else Only(GoesOn)
  }

  lemma RetriesGoOn(task: AgentTask, saved: AgentTask, fingerprint: string)
    requires saved.failureCounts == FailureCounted(task, fingerprint).failureCounts && saved.manifest == task.manifest
    ensures CountedScript(saved, fingerprint) == RetryScript(task, fingerprint)
  {
  }

  function EvaluatedScript(task: AgentTask, evaluation: Evaluation): Script {
    match evaluation.status
    case Continue => Only(GoesOn)
    case Retry => if evaluation.fingerprint.Some? then RetryScript(task, evaluation.fingerprint.value)
                  else Only(Breaks)
    case Fail => Only(Ends(Failed))
  }

  function EvaluationScript(task: AgentTask, evaluation: Evaluation): Script {
    Then([ResultEvaluated(evaluation)], [], EvaluatedScript(task, evaluation))
  }

  /** What follows once a handler has given a result. */
  function ResultScript(digest: FailureMaterial -> string, task: AgentTask, call: ToolCall, result: ToolResult)
    : Script
  {
    Then([ToolExecuted(call, result)], [], EvaluationScript(task, Evaluate(digest, call, result)))
  }

  /** After an executed call its evaluation has been logged too. */
  lemma EvaluationStands(script: Script, executed: AuditPayload, evaluated: AuditPayload, rest: Script, from: Sight,
                         now: Sight, after: Sight)
    requires script == Then([executed], [], Then([evaluated], [], rest)) && Reached([executed], [], from, now)
    requires after == now.(log := now.log + [evaluated], clock := after.clock) && now.clock <= after.clock
    ensures script == Then([executed, evaluated], [], rest) && Reached([executed, evaluated], [], from, after)
  {
    assert [executed] + ([evaluated] + rest.events) == [executed, evaluated] + rest.events;
    assert from.log + [executed] + [evaluated] == from.log + [executed, evaluated];
  }

  /** Counting the call matters to nothing that follows. */
  lemma CountingKeepsScripts(digest: FailureMaterial -> string, task: AgentTask, counted: AgentTask, call: ToolCall,
                             result: ToolResult)
    requires counted.failureCounts == task.failureCounts && counted.manifest == task.manifest
    ensures ResultScript(digest, task, call, result)
        == Then([ToolExecuted(call, result)], [], EvaluationScript(counted, Evaluate(digest, call, result)))
  {
  }

  /** An allowed call: the deadline is checked once more, then the handler is called once. */
  function ToolScript(digest: FailureMaterial -> string, task: AgentTask, call: ToolCall, spec: ToolSpec,
                      startedAt: int, outcome: Policy.HandlerOutcome): Script
  {
    if task.DeadlineExpired(startedAt) then Ending(TaskTimedOut, TimedOut)
    else
      var result := Policy.Normalize(spec, outcome);
      Then([], [HandlerCall(call, outcome)],
           if result.None? then Only(Breaks) else ResultScript(digest, task, call, result.value))
  }

  /** A call that was not denied waits for approval, or its tool is run. */
  function UndeniedScript(digest: FailureMaterial -> string, task: AgentTask, call: ToolCall, spec: Option<ToolSpec>,
                          decision: Policy.PolicyDecision, startedAt: int, outcome: Policy.HandlerOutcome): Script
  {
    if decision.RequiresApproval? then Ending(ApprovalRequired, PausedApproval)
    else if spec.None? then Only(Breaks)
    else ToolScript(digest, task, call, spec.value, startedAt, outcome)
  }

  /** What follows the policy's decision. */
  function DecidedScript(digest: FailureMaterial -> string, task: AgentTask, call: ToolCall, spec: Option<ToolSpec>,
                         decision: Policy.PolicyDecision, startedAt: int, outcome: Policy.HandlerOutcome): Script
  {
    if decision.Denied? then Ending(PolicyDecided(decision), Blocked)
    else Then([PolicyDecided(decision)], [], UndeniedScript(digest, task, call, spec, decision, startedAt, outcome))
  }

  function CallScript(rules: Rules, task: AgentTask, call: ToolCall, decidedAt: int, startedAt: int,
                      outcome: Policy.HandlerOutcome): Script
  {
    var spec := Policy.Lookup(rules.tools, call.toolId);
    DecidedScript(rules.digest, task, call, spec, Policy.Decide(rules.config, task, call, spec, decidedAt),
                  startedAt, outcome)
  }

  /** What follows a proposal of the planner, or a replayed one. */
  function ProposalScript(rules: Rules, task: AgentTask, proposal: Proposal, decidedAt: int, startedAt: int,
                          outcome: Policy.HandlerOutcome): Script
  {
    match proposal
    case Finish(summary) => Ending(TaskFinished(summary), Completed)
    case Pause(reason) => Ending(TaskPaused(reason), PausedOperator)
    case UseTool(call) => CallScript(rules, task, call, decidedAt, startedAt, outcome)
  }

  /** Neither the revision nor the update time of a task matters to what may follow. */
  lemma SavesKeepScripts(rules: Rules, task: AgentTask, revision: nat, updatedAt: int, proposal: Proposal,
                         decidedAt: int, startedAt: int, outcome: Policy.HandlerOutcome)
    ensures var saved := task.(revision := revision, updatedAt := updatedAt);
      ProposalScript(rules, saved, proposal, decidedAt, startedAt, outcome)
      == ProposalScript(rules, task, proposal, decidedAt, startedAt, outcome)
  {
  }

  /**
    A proposal whose event has been logged, with the step taken or the pending call popped; the
    clock has been read n times by then.
   */
  datatype Opening = Opening(
    rules: Rules, task: AgentTask, proposal: Proposal, event: AuditPayload, n: nat, from: Sight)

  function ScriptOf(o: Opening, to: Sight): Script {
    Then([o.event], [], ProposalScript(o.rules, o.task, o.proposal, ReadAt(to.clock, o.n), ReadAt(to.clock, o.n + 2),
                                       OutcomeAt(to.calls, |o.from.calls|)))
  }

  /** The rest of the pass played on from its opening; played out, it has read the clock again. */
  predicate Played(o: Opening, to: Sight, turn: Turn) {
    && Follows(ScriptOf(o, to), o.from, to, turn)
    && (turn != Done(Error) ==> o.n < |to.clock|) && (to.calls != o.from.calls ==> o.n + 2 < |to.clock|)
  }

  predicate Opened(o: Opening, now: Sight) {
    Reached([o.event], [], o.from, now) && |now.clock| == o.n
  }

  /** The call has been put to the policy, which decided by the next reading of the clock. */
  predicate Judged(o: Opening, now: Sight, call: ToolCall, spec: Option<ToolSpec>, decision: Policy.PolicyDecision) {
    && Reached([o.event], [], o.from, now) && |now.clock| == o.n + 1
    && o.proposal == UseTool(call) && spec == Policy.Lookup(o.rules.tools, call.toolId)
    && decision == Policy.Decide(o.rules.config, o.task, call, spec, now.clock[o.n])
  }

  /** The decision has been logged, and it was no denial. */
  predicate Permitted(o: Opening, now: Sight, call: ToolCall, spec: Option<ToolSpec>, decision: Policy.PolicyDecision) {
    && Reached([o.event, PolicyDecided(decision)], [], o.from, now) && |now.clock| == o.n + 2
    && o.proposal == UseTool(call) && spec == Policy.Lookup(o.rules.tools, call.toolId)
    && decision == Policy.Decide(o.rules.config, o.task, call, spec, now.clock[o.n]) && !decision.Denied?
  }

  /** The allowed call is in time. */
  predicate InTime(o: Opening, now: Sight, call: ToolCall, spec: ToolSpec) {
    && Reached([o.event, PolicyDecided(Policy.Allowed)], [], o.from, now) && |now.clock| == o.n + 3
    && o.proposal == UseTool(call) && Some(spec) == Policy.Lookup(o.rules.tools, call.toolId)
    && Policy.Decide(o.rules.config, o.task, call, Some(spec), now.clock[o.n]) == Policy.Allowed
    && !o.task.DeadlineExpired(now.clock[o.n + 2])
  }

  lemma JudgedThenPermitted(o: Opening, now: Sight, after: Sight, call: ToolCall, spec: Option<ToolSpec>,
                            decision: Policy.PolicyDecision)
    requires Judged(o, now, call, spec, decision) && !decision.Denied?
    requires after == now.(log := now.log + [PolicyDecided(decision)], clock := after.clock)
    requires now.clock <= after.clock && |after.clock| == |now.clock| + 1
    ensures Permitted(o, after, call, spec, decision)
  {
    assert o.from.log + [o.event] + [PolicyDecided(decision)] == o.from.log + [o.event, PolicyDecided(decision)];
  }

  lemma ClosingPlays(o: Opening, now: Sight, script: Script, to: Sight, turn: Turn)
    requires Opened(o, now) && Follows(script, now, to, turn)
    requires match o.proposal
             case Finish(summary) => script == Ending(TaskFinished(summary), Completed)
             case Pause(reason) => script == Ending(TaskPaused(reason), PausedOperator)
             case UseTool(_) => false
    ensures Played(o, to, turn)
  {
    FollowsThen([o.event], [], script, o.from, now, to, turn);
  }

  lemma DenialPlays(o: Opening, now: Sight, call: ToolCall, spec: Option<ToolSpec>, decision: Policy.PolicyDecision,
                    to: Sight, turn: Turn)
    requires Judged(o, now, call, spec, decision) && decision.Denied?
    requires Follows(Ending(PolicyDecided(decision), Blocked), now, to, turn)
    ensures Played(o, to, turn)
  {
    FollowsThen([o.event], [], Ending(PolicyDecided(decision), Blocked), o.from, now, to, turn);
  }

  lemma PermissionPlays(o: Opening, now: Sight, call: ToolCall, spec: Option<ToolSpec>,
                        decision: Policy.PolicyDecision, to: Sight, turn: Turn)
    requires Permitted(o, now, call, spec, decision)
    requires Follows(UndeniedScript(o.rules.digest, o.task, call, spec, decision, ReadAt(to.clock, o.n + 2),
                                    OutcomeAt(to.calls, |o.from.calls|)),
                     now, to, turn)
    requires to.calls != now.calls ==> o.n + 2 < |to.clock|
    ensures Played(o, to, turn)
  {
    var rest := UndeniedScript(o.rules.digest, o.task, call, spec, decision, ReadAt(to.clock, o.n + 2),
                               OutcomeAt(to.calls, |o.from.calls|));
    FollowsThen([o.event, PolicyDecided(decision)], [], rest, o.from, now, to, turn);
    assert Then([o.event], [], Then([PolicyDecided(decision)], [], rest))
        == Then([o.event, PolicyDecided(decision)], [], rest);
  }

  lemma WaitingPlays(o: Opening, now: Sight, call: ToolCall, spec: Option<ToolSpec>, to: Sight, turn: Turn)
    requires Permitted(o, now, call, spec, Policy.RequiresApproval)
    requires Follows(Ending(ApprovalRequired, PausedApproval), now, to, turn)
    ensures Played(o, to, turn)
  {
    PermissionPlays(o, now, call, spec, Policy.RequiresApproval, to, turn);
  }

  lemma LatenessPlays(o: Opening, now: Sight, call: ToolCall, spec: ToolSpec, to: Sight, turn: Turn)
    requires Permitted(o, now, call, Some(spec), Policy.Allowed)
    requires o.n + 2 < |to.clock| && o.task.DeadlineExpired(to.clock[o.n + 2])
    requires Follows(Ending(TaskTimedOut, TimedOut), now, to, turn)
    ensures Played(o, to, turn)
  {
    PermissionPlays(o, now, call, Some(spec), Policy.Allowed, to, turn);
  }

  /** The handler was called; what follows depends on what came of it. */
  lemma HandlingPlays(o: Opening, now: Sight, call: ToolCall, spec: ToolSpec, outcome: Policy.HandlerOutcome,
                      script: Script, mid: Sight, to: Sight, turn: Turn)
    requires InTime(o, now, call, spec) && mid == now.(calls := now.calls + [HandlerCall(call, outcome)])
    requires var result := Policy.Normalize(spec, outcome);
      script == if result.None? then Only(Breaks)
                else ResultScript(o.rules.digest, o.task, call, result.value)
    requires Follows(script, mid, to, turn)
    ensures Played(o, to, turn)
  {
    assert to.calls[|o.from.calls|] == HandlerCall(call, outcome);
    var events, calls := [o.event, PolicyDecided(Policy.Allowed)], [HandlerCall(call, outcome)];
    FollowsThen(events, calls, script, o.from, mid, to, turn);
    assert Then([o.event], [], Then([PolicyDecided(Policy.Allowed)], [], Then([], calls, script)))
        == Then(events, calls, script);
  }

  /** A pass may be told with the task as it was changed or as it was saved. */
  lemma SavedPlays(o: Opening, saved: AgentTask, to: Sight, turn: Turn)
    requires saved == o.task.(revision := saved.revision, updatedAt := saved.updatedAt)
    requires Played(o.(task := saved), to, turn)
    ensures Played(o, to, turn)
  {
    SavesKeepScripts(o.rules, o.task, saved.revision, saved.updatedAt, o.proposal, ReadAt(to.clock, o.n),
                     ReadAt(to.clock, o.n + 2), OutcomeAt(to.calls, |o.from.calls|));
  }

  lemma RefusedFollows(event: AuditPayload, rest: Script, from: Sight, to: Sight)
    requires to.log == from.log || to.log == from.log + [event]
    requires to.calls == from.calls && to.answers == from.answers && from.clock <= to.clock
    ensures Follows(Then([event], [], rest), from, to, Done(Error))
  {
    assert from.log + ([event] + rest.events) == from.log + [event] + rest.events;
  }

  /** The first save was refused, with the event logged or not. */
  lemma RefusalPlays(o: Opening, to: Sight)
    requires to.log == o.from.log || to.log == o.from.log + [o.event]
    requires to.calls == o.from.calls && to.answers == o.from.answers && o.from.clock <= to.clock
    ensures Played(o, to, Done(Error))
  {
    RefusedFollows(
        o.event, ProposalScript(o.rules, o.task, o.proposal, ReadAt(to.clock, o.n), ReadAt(to.clock, o.n + 2),
                                OutcomeAt(to.calls, |o.from.calls|)), o.from, to);
  }

  /** An operator stepped in while the planner was thinking; the planner's answer is dropped. */
  predicate Interrupted(status: TaskStatus, event: AuditPayload, answer: PlannerAnswer, from: Sight, to: Sight,
                        turn: Turn)
  {
    && to.calls == from.calls
    && match answer
       case PlannerError => to.log == from.log + [event, PlannerFailed] && turn == Done(Error)
       case Proposed(_) =>
         to.log == from.log + [event] && turn.Done? && turn.reply.Answer? && turn.reply.task.status == status
  }

  /**
    A pass with the planner's answer, from the n-th reading of the clock on.  The request of an
    operator that was refused may have read the clock once more.
   */
  predicate PlannedPass(rules: Rules, task: AgentTask, answer: PlannerAnswer, n: nat, from: Sight, to: Sight,
                        turn: Turn)
  {
    || Interrupted(Cancelled, TaskCancelled, answer, from, to, turn)
    || Interrupted(PausedOperator, OperatorPaused, answer, from, to, turn)
    || match answer
       case PlannerError => Follows(Ending(PlannerFailed, Failed), from, to, turn)
       case Proposed(proposal) =>
         || Played(Opening(rules, Advanced(task), proposal, PlannerProposed(proposal), n + 2, from), to, turn)
         || Played(Opening(rules, Advanced(task), proposal, PlannerProposed(proposal), n + 3, from), to, turn)
  }

  /** The pending call with the recorded approval. */
  function Replayed(task: AgentTask): Proposal
    requires task.ReplayReady()
  {
    Approved(task.memory.pendingProposal.value, task.memory.approvedPendingCall.value)
  }

  /** What follows when the deadline has not been reached: the pending call is replayed, or the planner asked. */
  predicate Continued(rules: Rules, task: AgentTask, begun: Sight, to: Sight, turn: Turn) {
    if task.ReplayReady() then
      Played(Opening(rules, Popped(task), Replayed(task), ApprovalResumed(Replayed(task)), |begun.clock| + 2, begun),
             to, turn)
    else
      && |to.answers| == |begun.answers| + 1
      && PlannedPass(rules, task, to.answers[|begun.answers|], |begun.clock|, begun.(answers := to.answers), to, turn)
  }

  /** One whole pass over a running task, which begins with checking the deadline. */
  predicate Pass(rules: Rules, task: AgentTask, from: Sight, to: Sight, turn: Turn) {
    var n := |from.clock|;
    && n < |to.clock| && from.clock <= to.clock
    && if task.DeadlineExpired(to.clock[n]) then Follows(Ending(TaskTimedOut, TimedOut), from, to, turn)
       else Continued(rules, task, from.(clock := to.clock[..n + 1]), to, turn)
  }

  lemma TimelyPass(rules: Rules, task: AgentTask, from: Sight, begun: Sight, to: Sight, turn: Turn)
    requires |begun.clock| == |from.clock| + 1 && from.clock <= begun.clock && begun == from.(clock := begun.clock)
    requires !task.DeadlineExpired(begun.clock[|from.clock|]) && begun.clock <= to.clock
    requires Continued(rules, task, begun, to, turn)
    ensures Pass(rules, task, from, to, turn)
  {
    assert to.clock[..|from.clock| + 1] == begun.clock;
  }

  /** A replayed call plays on with the saved task. */
  lemma ReplayContinues(rules: Rules, task: AgentTask, saved: AgentTask, begun: Sight, to: Sight, turn: Turn)
    requires task.ReplayReady() && saved == Popped(task).(revision := saved.revision, updatedAt := saved.updatedAt)
    requires Played(Opening(rules, saved, Replayed(task), ApprovalResumed(Replayed(task)), |begun.clock| + 2, begun),
                    to, turn)
    ensures Continued(rules, task, begun, to, turn) && begun.clock <= to.clock
  {
    SavedPlays(
        Opening(rules, Popped(task), Replayed(task), ApprovalResumed(Replayed(task)), |begun.clock| + 2, begun),
        saved, to, turn);
  }

  lemma RefusedReplayContinues(rules: Rules, task: AgentTask, begun: Sight, to: Sight)
    requires task.ReplayReady() && begun.clock <= to.clock && to == begun.(clock := to.clock)
    ensures Continued(rules, task, begun, to, Done(Error))
  {
    RefusalPlays(
        Opening(rules, Popped(task), Replayed(task), ApprovalResumed(Replayed(task)), |begun.clock| + 2, begun), to);
  }

  /** A planner's proposal plays on with the saved task. */
  lemma StepContinues(rules: Rules, task: AgentTask, proposal: Proposal, saved: AgentTask, n: nat, begun: Sight,
                      to: Sight, turn: Turn)
    requires !task.ReplayReady() && |begun.clock| + 2 <= n <= |begun.clock| + 3
    requires saved == Advanced(task).(revision := saved.revision, updatedAt := saved.updatedAt)
    requires to.answers == begun.answers + [Proposed(proposal)]
    requires Played(Opening(rules, saved, proposal, PlannerProposed(proposal), n, begun.(answers := to.answers)),
                    to, turn)
    ensures Continued(rules, task, begun, to, turn) && begun.clock <= to.clock
  {
    var asked := begun.(answers := to.answers);
    var n0 := |begun.clock| + 2;
    if n == n0 {
      SavedPlays(Opening(rules, Advanced(task), proposal, PlannerProposed(proposal), n0, asked), saved, to, turn);
    } else {
      SavedPlays(Opening(rules, Advanced(task), proposal, PlannerProposed(proposal), n0 + 1, asked), saved, to, turn);
    }
  }

  lemma RefusedStepContinues(rules: Rules, task: AgentTask, proposal: Proposal, begun: Sight, to: Sight)
    requires !task.ReplayReady() && to.log == begun.log + [PlannerProposed(proposal)] && to.calls == begun.calls
    requires begun.clock <= to.clock && to.answers == begun.answers + [Proposed(proposal)]
    ensures Continued(rules, task, begun, to, Done(Error))
  {
    var asked := begun.(answers := to.answers);
    RefusalPlays(Opening(rules, Advanced(task), proposal, PlannerProposed(proposal), |begun.clock| + 2, asked), to);
  }

  /** The planner failed; when an operator stopped the task meanwhile, the failure cannot be saved. */
  lemma PlannerFailureContinues(rules: Rules, task: AgentTask, begun: Sight, now: Sight, to: Sight, turn: Turn)
    requires !task.ReplayReady() && now.calls == begun.calls && begun.clock <= now.clock
    requires now.answers == begun.answers + [PlannerError] && to.log == now.log + [PlannerFailed]
    requires || now.log == begun.log
             || (turn == Done(Error) && now.log in {begun.log + [TaskCancelled], begun.log + [OperatorPaused]})
    requires Follows(Ending(PlannerFailed, Failed), now, to, turn)
    ensures Continued(rules, task, begun, to, turn) && begun.clock <= to.clock
  {
    var asked := begun.(answers := to.answers);
    if now.log == begun.log {
      assert Follows(Ending(PlannerFailed, Failed), asked, to, turn);
    } else {
      assert begun.log + [TaskCancelled] + [PlannerFailed] == begun.log + [TaskCancelled, PlannerFailed];
      assert begun.log + [OperatorPaused] + [PlannerFailed] == begun.log + [OperatorPaused, PlannerFailed];
      assert Interrupted(Cancelled, TaskCancelled, PlannerError, asked, to, turn)
          || Interrupted(PausedOperator, OperatorPaused, PlannerError, asked, to, turn);
    }
  }

  lemma InterruptionContinues(rules: Rules, task: AgentTask, status: TaskStatus, event: AuditPayload,
                              answer: PlannerAnswer, begun: Sight, to: Sight, turn: Turn)
    requires !task.ReplayReady() && to.answers == begun.answers + [answer]
    requires (status == Cancelled && event == TaskCancelled) || (status == PausedOperator && event == OperatorPaused)
    requires Interrupted(status, event, answer, begun, to, turn)
    ensures Continued(rules, task, begun, to, turn)
  {
    var asked := begun.(answers := to.answers);
    assert Interrupted(status, event, answer, asked, to, turn);
  }

  // ---------------------------------------------------------------- what the scripts say

  /**
    A handler is called for a proposed call exactly when the call is within all limits at the
    policy's reading of the clock, has its approval if it needs one, and the deadline has not been
    reached at the next check; then it is called once.
   */
  lemma HandlerIsCalledExactlyWhen(rules: Rules, task: AgentTask, call: ToolCall, decidedAt: int, startedAt: int,
                                   outcome: Policy.HandlerOutcome)
    ensures CallScript(rules, task, call, decidedAt, startedAt, outcome).calls ==
            if && Policy.WithinLimits(rules.config, task, call, Policy.Lookup(rules.tools, call.toolId), decidedAt)
               && (call.action in task.manifest.approvalRequiredActions ==> Policy.Approved(task, call))
               && startedAt < task.deadlineAt
            then [HandlerCall(call, outcome)] else []
  {
    var spec := Policy.Lookup(rules.tools, call.toolId);
    var decision := Policy.Decide(rules.config, task, call, spec, decidedAt);
    Policy.DecidesExactly(rules.config, task, call, spec, decidedAt);
    DecisionsCall(rules.digest, task, call, spec, decision, startedAt, outcome);
  }

  lemma DecisionsCall(digest: FailureMaterial -> string, task: AgentTask, call: ToolCall, spec: Option<ToolSpec>,
                      decision: Policy.PolicyDecision, startedAt: int, outcome: Policy.HandlerOutcome)
    ensures DecidedScript(digest, task, call, spec, decision, startedAt, outcome).calls
        == if decision.Allowed? && spec.Some? && startedAt < task.deadlineAt then [HandlerCall(call, outcome)] else []
  {
    if decision.Allowed? && spec.Some? {
      ResultsCallNobody(digest, task, call, spec.value, startedAt, outcome);
    }
  }

  lemma ResultsCallNobody(digest: FailureMaterial -> string, task: AgentTask, call: ToolCall, spec: ToolSpec,
                          startedAt: int, outcome: Policy.HandlerOutcome)
    ensures ToolScript(digest, task, call, spec, startedAt, outcome).calls
        == if startedAt < task.deadlineAt then [HandlerCall(call, outcome)] else []
  {
  }

  /** What the log says of a handler's answer, and where it leads. */
  lemma AnswersLead(digest: FailureMaterial -> string, task: AgentTask, call: ToolCall, spec: ToolSpec,
                    startedAt: int, outcome: Policy.HandlerOutcome)
    requires startedAt < task.deadlineAt
    ensures var script := ToolScript(digest, task, call, spec, startedAt, outcome);
      match outcome
      case Returned(output) =>
        && script.end == GoesOn
        && script.events == [ToolExecuted(call, ToolResult(true, output, "", "", false)),
                             ResultEvaluated(Evaluation(Continue, None))]
      case Raised(errorType, message, retryable) =>
        if message == "" then script.end == Breaks && script.events == []
        else
          var retry := if retryable.Some? then retryable.value else spec.retryableErrors;
          var result := ToolResult(false, "", errorType, message, retry);
          var f := digest(FailureMaterial(call.toolId, call.action, call.operation, errorType, message));
          var evaluation := Evaluation(if retry then Retry else Fail, Some(f));
          var logged := [ToolExecuted(call, result), ResultEvaluated(evaluation)];
          if !retry then script.end == Ends(Failed) && script.events == logged
          else if task.Failures(f) + 1 < task.manifest.maxIdenticalFailures then
            script.end == GoesOn && script.events == logged
          else
            script.end == Ends(Blocked) && script.events == logged + [RecoveryStopped(f, task.Failures(f) + 1)]
  {
  }

  /** The first event of a played opening is its own. */
  lemma FirstEvent(o: Opening, to: Sight, turn: Turn)
    requires Played(o, to, turn) && |o.from.log| < |to.log|
    ensures to.log[|o.from.log|] == o.event
  {
    assert (o.from.log + ScriptOf(o, to).events)[|o.from.log|] == o.event;
  }

  lemma PlannedOpens(rules: Rules, task: AgentTask, answer: PlannerAnswer, n: nat, from: Sight, to: Sight, turn: Turn)
    returns (o: Opening)
    requires PlannedPass(rules, task, answer, n, from, to, turn)
    requires to.calls != from.calls || (|from.log| < |to.log| && to.log[|from.log|].PlannerProposed?)
    ensures o.rules == rules && o.from == from && n < o.n && o.task == Advanced(task)
    ensures o.event == PlannerProposed(o.proposal) && Played(o, to, turn)
  {
    assert answer.Proposed?;
    o := Opening(rules, Advanced(task), answer.proposal, PlannerProposed(answer.proposal), n + 2, from);
    if !Played(o, to, turn) {
      o := Opening(rules, Advanced(task), answer.proposal, PlannerProposed(answer.proposal), n + 3, from);
    }
  }

  /** A pass that calls a handler or begins with a planner's proposal plays on from an opening. */
  lemma PassOpens(rules: Rules, task: AgentTask, from: Sight, to: Sight, turn: Turn) returns (o: Opening)
    requires Pass(rules, task, from, to, turn)
    requires to.calls != from.calls || (|from.log| < |to.log| && to.log[|from.log|].PlannerProposed?)
    ensures o.rules == rules && o.from.log == from.log && o.from.calls == from.calls && |from.clock| < o.n
    ensures || (o.task == Advanced(task) && o.event == PlannerProposed(o.proposal))
            || (o.task == Popped(task) && o.event == ApprovalResumed(o.proposal))
    ensures Played(o, to, turn)
  {
    var begun := from.(clock := to.clock[..|from.clock| + 1]);
    assert !task.DeadlineExpired(to.clock[|from.clock|]);
    if task.ReplayReady() {
      o := Opening(rules, Popped(task), Replayed(task), ApprovalResumed(Replayed(task)), |from.clock| + 3, begun);
    } else {
      var answer := to.answers[|from.answers|];
      o := PlannedOpens(rules, task, answer, |begun.clock|, begun.(answers := to.answers), to, turn);
    }
  }

  lemma OpeningWaits(o: Opening, call: ToolCall, to: Sight, turn: Turn)
    requires Played(o, to, turn) && o.proposal == UseTool(call)
    requires call.action in o.task.manifest.approvalRequiredActions && !Approvals.Present(call.approvalReference)
    requires o.n < |to.clock| ==>
      Policy.WithinLimits(o.rules.config, o.task, call, Policy.Lookup(o.rules.tools, call.toolId), to.clock[o.n])
    ensures to.calls == o.from.calls
    ensures turn != Done(Error) ==>
      && turn.Done? && turn.reply.task.status == PausedApproval
      && to.log == o.from.log + [o.event, PolicyDecided(Policy.RequiresApproval), ApprovalRequired]
  {
    var decidedAt, startedAt := ReadAt(to.clock, o.n), ReadAt(to.clock, o.n + 2);
    var outcome := OutcomeAt(to.calls, |o.from.calls|);
    Policy.DecidesExactly(o.rules.config, o.task, call, Policy.Lookup(o.rules.tools, call.toolId), decidedAt);
    HandlerIsCalledExactlyWhen(o.rules, o.task, call, decidedAt, startedAt, outcome);
    if turn != Done(Error) {
      var script := CallScript(o.rules, o.task, call, decidedAt, startedAt, outcome);
      assert script.events == [PolicyDecided(Policy.RequiresApproval), ApprovalRequired];
    }
  }

  /**
    A proposed call of an approval-required action that brings no reference, and that is within all
    other limits whenever the clock is read, ends the pass waiting for approval, or with an error;
    no handler is called.
   */
  lemma UnreferencedCallsWait(rules: Rules, task: AgentTask, call: ToolCall, from: Sight, to: Sight, turn: Turn)
    requires Pass(rules, task, from, to, turn)
    requires |from.log| < |to.log| && to.log[|from.log|] == PlannerProposed(UseTool(call))
    requires call.action in task.manifest.approvalRequiredActions && !Approvals.Present(call.approvalReference)
    requires forall i :: |from.clock| <= i < |to.clock| ==>
      Policy.WithinLimits(rules.config, Advanced(task), call, Policy.Lookup(rules.tools, call.toolId), to.clock[i])
    ensures to.calls == from.calls
    ensures turn != Done(Error) ==>
      && turn.Done? && turn.reply.task.status == PausedApproval
      && to.log == from.log +
                   [PlannerProposed(UseTool(call)), PolicyDecided(Policy.RequiresApproval), ApprovalRequired]
  {
    var o := PassOpens(rules, task, from, to, turn);
    FirstEvent(o, to, turn);
    OpeningWaits(o, call, to, turn);
  }

  /** A script that calls a handler begins with the decision to allow the call. */
  lemma CallsFollowDecisions(rules: Rules, task: AgentTask, call: ToolCall, decidedAt: int, startedAt: int,
                             outcome: Policy.HandlerOutcome)
    requires CallScript(rules, task, call, decidedAt, startedAt, outcome).calls != []
    ensures var script := CallScript(rules, task, call, decidedAt, startedAt, outcome);
      script.before == 1 && script.events != [] && script.events[0] == PolicyDecided(Policy.Allowed)
  {
    var spec := Policy.Lookup(rules.tools, call.toolId);
    var decision := Policy.Decide(rules.config, task, call, spec, decidedAt);
    DecisionsCall(rules.digest, task, call, spec, decision, startedAt, outcome);
  }

  lemma CallsComeAfter(event: AuditPayload, rest: Script, from: Sight, to: Sight, turn: Turn)
    requires Follows(Then([event], [], rest), from, to, turn) && to.calls != from.calls
    requires rest.before == 1 && rest.events != []
    ensures from.log + [event, rest.events[0]] <= to.log
  {
    assert from.log + ([event] + rest.events) == from.log + [event, rest.events[0]] + rest.events[1..];
  }

  /** The call of an opening that reached a handler, and the decision logged before it. */
  lemma OpeningPermits(o: Opening, to: Sight, turn: Turn) returns (call: ToolCall)
    requires Played(o, to, turn) && to.calls != o.from.calls
    ensures o.proposal == UseTool(call) && o.n + 2 < |to.clock|
    ensures |to.calls| == |o.from.calls| + 1 && to.calls[|o.from.calls|].call == call
    ensures Policy.WithinLimits(o.rules.config, o.task, call, Policy.Lookup(o.rules.tools, call.toolId), to.clock[o.n])
    ensures call.action in o.task.manifest.approvalRequiredActions ==> Policy.Approved(o.task, call)
    ensures to.clock[o.n + 2] < o.task.deadlineAt
    ensures o.from.log + [o.event, PolicyDecided(Policy.Allowed)] <= to.log
  {
    assert ScriptOf(o, to).calls != [];
    assert o.proposal.UseTool?;
    call := o.proposal.call;
    var decidedAt, startedAt, outcome := to.clock[o.n], to.clock[o.n + 2], OutcomeAt(to.calls, |o.from.calls|);
    HandlerIsCalledExactlyWhen(o.rules, o.task, call, decidedAt, startedAt, outcome);
    CallsFollowDecisions(o.rules, o.task, call, decidedAt, startedAt, outcome);
    CallsComeAfter(o.event, CallScript(o.rules, o.task, call, decidedAt, startedAt, outcome), o.from, to, turn);
  }

  /**
    Whenever a pass calls a handler it calls one, for the call it proposed or replayed; the task,
    with its step taken or its pending call popped, was within all limits at one reading of the
    clock and in time at a later one, the call had its approval if it needs one, and the decision
    to allow it had been logged.
   */
  lemma CallsArePermitted(rules: Rules, task: AgentTask, from: Sight, to: Sight, turn: Turn)
    returns (call: ToolCall, changed: AgentTask, event: AuditPayload, i: nat)
    requires Pass(rules, task, from, to, turn) && to.calls != from.calls
    ensures |to.calls| == |from.calls| + 1 && to.calls[|from.calls|].call == call
    ensures || (changed == Advanced(task) && event == PlannerProposed(UseTool(call)))
            || (changed == Popped(task) && event == ApprovalResumed(UseTool(call)))
    ensures |from.clock| < i && i + 2 < |to.clock| && to.clock[i + 2] < task.deadlineAt
    ensures Policy.WithinLimits(rules.config, changed, call, Policy.Lookup(rules.tools, call.toolId), to.clock[i])
    ensures call.action in task.manifest.approvalRequiredActions ==> Policy.Approved(changed, call)
    ensures from.log + [event, PolicyDecided(Policy.Allowed)] <= to.log
  {
    var o := PassOpens(rules, task, from, to, turn);
    call := OpeningPermits(o, to, turn);
    changed, event, i := o.task, o.event, o.n;
  }
}
