/** What one task's audit log says about the task: a fold over its payloads. */
module AuditReplay {
  import opened Common
  import opened AgentModels
  import opened AuditTable
  import Policy = AgentPolicy

  /** The part of a task that its log determines. */
  datatype View = View(
    status: TaskStatus, steps: nat, toolCalls: nat, failures: map<string, nat>,
    memory: Memory, finalSummary: Option<string>)

  /** A consumed request and the reference its consumption produced, as the log records them. */
  datatype Grant = Grant(requestId: string, reference: string)

  /** An executed call with what had been granted before it. */
  datatype Execution = Execution(call: ToolCall, granted: set<Grant>)

  /**
    The view, the last proposal seen, all planner proposals in order, the pauses by operators
    and by the planner, what was granted, what was executed, and the payloads themselves.
   */
  datatype Book = Book(
    view: View, last: Option<Proposal>, proposed: seq<Proposal>, pauses: nat, plannerPauses: nat,
    granted: set<Grant>, executed: seq<Execution>, log: seq<AuditPayload>)

  function ViewOf(task: AgentTask): View {
    View(task.status, task.stepCount, task.toolCallCount, task.failureCounts, task.memory, task.finalSummary)
  }

  const EMPTY_BOOK :=
    Book(View(Created, 0, 0, map[], Memory(0, None, None, None, None), None), None, [], 0, 0, {}, [], [])

  function Count(counts: map<string, nat>, key: string): map<string, nat> {
    counts[key := if key in counts then counts[key] + 1 else 1]
  }

  function RecordView(v: View, last: Option<Proposal>, payload: AuditPayload): View {
    match payload
    case TaskCreated => v
    case PlannerProposed(_) =>
      v.(status := Running, steps := v.steps + 1,
         memory := v.memory.(plannerCursor := v.memory.plannerCursor + 1))
    case PlannerFailed => v.(status := Failed)
    case ApprovalResumed(_) =>
      v.(status := Running, memory := v.memory.(pendingProposal := None, approvedPendingCall := None))
    case ApprovalLogged(_, reference) =>
      v.(status := Running,
         memory := v.memory.(approvedPendingCall := Some(reference), consumedApproval := Some(reference)))
    case PolicyDecided(decision) => if decision.Denied? then v.(status := Blocked) else v
    case ApprovalRequired => v.(status := PausedApproval, memory := v.memory.(pendingProposal := last))
    case ToolExecuted(_, result) =>
      v.(toolCalls := v.toolCalls + 1,
         memory := if result.success then v.memory.(lastToolOutput := Some(result.output)) else v.memory)
    case ResultEvaluated(evaluation) =>
      if evaluation.status == Retry && evaluation.fingerprint.Some? then
        v.(failures := Count(v.failures, evaluation.fingerprint.value))
      else if evaluation.status == Fail then v.(status := Failed)
      else v
    case RecoveryStopped(_, _) => v.(status := Blocked)
    case TaskFinished(summary) => v.(status := Completed, finalSummary := Some(summary))
    case TaskPaused(_) => v.(status := PausedOperator)
    case BudgetPaused(_) => v.(status := PausedBudget)
    case OperatorPaused => v.(status := PausedOperator)
    case OperatorResumed => v.(status := Running)
    case TaskCancelled => v.(status := Cancelled)
    case TaskTimedOut => v.(status := TimedOut)
  }

  function Record(b: Book, payload: AuditPayload): (after: Book)
    ensures after.log == b.log + [payload]
  {
    var next := b.(view := RecordView(b.view, b.last, payload), log := b.log + [payload]);
    match payload
    case PlannerProposed(p) => next.(last := Some(p), proposed := b.proposed + [p])
    case ApprovalResumed(p) => next.(last := Some(p))
    case OperatorPaused => next.(pauses := b.pauses + 1)
    case TaskPaused(_) => next.(plannerPauses := b.plannerPauses + 1)
    case ApprovalLogged(requestId, reference) => next.(granted := b.granted + {Grant(requestId, reference)})
    case ToolExecuted(call, _) => next.(executed := b.executed + [Execution(call, b.granted)])
    case _ => next
  }

  /** Read a whole log; the book still holds it. */
  function Replay(log: seq<AuditPayload>): (book: Book)
    ensures book.log == log
  {
    if log == [] then EMPTY_BOOK
    else
      var before, last := log[..|log| - 1], log[|log| - 1];
      assert log == before + [last];
      Record(Replay(before), last)
  }

  /** The payloads of a task's rows. */
  ghost function Log(table: EventTable, taskId: string): seq<AuditPayload> {
    var rows := Rows(table, taskId);
    seq(|rows|, i requires 0 <= i < |rows| => rows[i].body.payload)
  }

  lemma ReplayExtends(log: seq<AuditPayload>, payload: AuditPayload)
    ensures Replay(log + [payload]) == Record(Replay(log), payload)
  {
    assert (log + [payload])[..|log|] == log;
  }
}
