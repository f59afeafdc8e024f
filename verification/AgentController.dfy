/**
  The bounded controller loop, one API call at a time.

  The planner, the tool handlers and the clock may answer anything, and an operator may
  cancel or pause the task while the planner is thinking.  A call either answers with the
  stored task or fails with an error part-way through.
 */
module AgentController {
  import opened Common
  import opened Text
  import opened AgentModels
  import opened AgentStore
  import opened AuditTable
  import opened AuditReplay
  import opened AgentRules
  import opened AgentWorld
  import opened AgentPasses
  import Policy = AgentPolicy
  import Approvals = ApprovalModels
  import Ledger = ApprovalLedger
  import ApprovalStore

  class AgentController {
    const config: RuntimeConfig
    const planner: Planner
    const failureDigest: FailureMaterial -> string
    const isSpace: char -> bool
    const store: AgentStore
    const tools: Policy.ToolRegistry
    const approvals: ApprovalStore.ApprovalStore?
    const world: World
    /** Tasks for which some call failed part-way. */
    ghost var interrupted: set<string>
    /** Loop iterations begun so far, over all calls. */
    ghost var iterations: map<string, nat>

    ghost predicate Valid()
      reads this, store, approvals
    {
      && store.Valid()
      && iterations.Keys == store.tasks.Keys && interrupted <= store.tasks.Keys
      && (approvals != null ==> approvals.Valid())
    }

    ghost predicate Known(taskId: string)
      reads this, store
    {
      taskId in store.tasks && taskId in store.books && taskId in iterations
    }

    ghost function SnapOf(taskId: string): Snap
      requires Known(taskId)
      reads this, store
    {
      Snap(store.tasks[taskId], store.books[taskId], iterations[taskId], taskId !in interrupted,
           config.globalDeniedActions)
    }

    /** What holds of every task between two calls. */
    ghost predicate AtRest(taskId: string)
      reads this, store
    {
      Known(taskId) ==> Resting(planner, SnapOf(taskId))
    }

    /** What holds at the end of an iteration. */
    ghost predicate TurnIsSound(taskId: string, turn: Turn)
      reads this, store
    {
      Known(taskId) &&
      match turn
      case Again => InLoop(planner, SnapOf(taskId), 0)
      case Done(reply) =>
        && Resting(planner, SnapOf(taskId))
        && (reply.Answer? ==>
            SnapOf(taskId).task == reply.task && reply.task.status !in {Created, Running, PausedBudget})
    }

    /** What holds when a call is over; its answer is the stored task. */
    ghost predicate Over(taskId: string, reply: Reply)
      reads this, store
    {
      Known(taskId) && Resting(planner, SnapOf(taskId)) && (reply.Answer? ==> SnapOf(taskId).task == reply.task)
    }

    /** Everything kept about one task: its row with its accounts, if there is one, and its log. */
    ghost function AccountOf(taskId: string): (Option<Snap>, seq<AuditEvent>)
      reads this, store
    {
      (if Known(taskId) then Some(SnapOf(taskId)) else None, Rows(store.events, taskId))
    }

    twostate predicate OthersKept(taskId: string)
      reads this, store
    {
      forall other :: other != taskId ==> AccountOf(other) == old(AccountOf(other))
    }

    /** The payloads of a task's log. */
    ghost function LogOf(taskId: string): seq<AuditPayload>
      reads store
    {
      if taskId in store.books then store.books[taskId].log else []
    }

    ghost function SightOf(taskId: string): Sight
      reads store, world
    {
      Sight(LogOf(taskId), world.clock, world.answers, world.calls)
    }

    ghost function RulesOf(): Rules
      reads tools
    {
      Rules(config, failureDigest, tools.tools)
    }

    /** The i-th reading of the clock from now on. */
    twostate function Reading(i: nat): int
      reads world
    {
      ReadAt(world.clock, |old(world.clock)| + i)
    }

    /** The script was played, or an error stopped it part-way. */
    twostate predicate Plays(taskId: string, new script: Script, new turn: Turn)
      reads store, world
    {
      Follows(script, old(SightOf(taskId)), SightOf(taskId), turn)
    }

    /** The clock was read n times, and nothing else of the world was met but trouble. */
    twostate predicate Ticked(n: nat)
      reads world
    {
      && old(world.clock) <= world.clock && |world.clock| == |old(world.clock)| + n
      && world.answers == old(world.answers) && world.calls == old(world.calls)
      && |old(world.troubles)| <= |world.troubles|
    }

    twostate predicate ClockWentOn()
      reads world
    {
      old(world.clock) <= world.clock
    }

    twostate predicate Troubled()
      reads world
    {
      |old(world.troubles)| < |world.troubles|
    }

    /**
      A call marks its own task, and only when it fails; it fails only when it met trouble, and it
      never takes anything back from the log.
     */
    twostate predicate Proceeds(taskId: string, failed: bool)
      reads this, store, world
    {
      && (interrupted == old(interrupted) || (failed && interrupted == old(interrupted) + {taskId}))
      && (failed ==> Troubled())
      && old(LogOf(taskId)) <= LogOf(taskId)
      && |old(world.troubles)| <= |world.troubles|
    }

    twostate predicate Untouched()
      reads this, store
    {
      store.tasks == old(store.tasks) && store.events == old(store.events) && interrupted == old(interrupted)
    }

    constructor (config: RuntimeConfig, planner: Planner, failureDigest: FailureMaterial -> string,
                 isSpace: char -> bool, store: AgentStore, tools: Policy.ToolRegistry,
                 approvals: ApprovalStore.ApprovalStore?, world: World)
      requires store.Valid() && store.tasks == map[] && (approvals != null ==> approvals.Valid())
      ensures this.config == config && this.planner == planner && this.failureDigest == failureDigest &&
          this.isSpace == isSpace
      ensures this.store == store && this.tools == tools && this.approvals == approvals && this.world == world
      ensures Valid() && forall taskId :: AtRest(taskId)
    {
      this.config, this.planner, this.failureDigest, this.isSpace := config, planner, failureDigest, isSpace;
      this.store, this.tools, this.approvals, this.world := store, tools, approvals, world;
      interrupted, iterations := {}, map[];
    }

    /** Write one audit event of an existing task. */
    method Note(taskId: string, payload: AuditPayload)
      requires Valid() && Known(taskId)
      modifies store`events, store`books, world`clock
      ensures Valid() && Known(taskId) && OthersKept(taskId) && Ticked(1)
      ensures SnapOf(taskId) == Noted(old(SnapOf(taskId)), payload)
      ensures LogOf(taskId) == old(LogOf(taskId)) + [payload]
    {
      var now := world.Now();
      var event := store.AppendEvent(taskId, payload, now);
      assert event.Some?;
      forall other | other != taskId
        ensures AccountOf(other) == old(AccountOf(other))
      {
        assert Rows(store.events, other) == old(Rows(store.events, other));
      }
    }

    /** Save a changed copy one revision later; a stale copy or a clock that runs backwards makes the save fail. */
    method Save(task: AgentTask, changed: AgentTask) returns (saved: Option<AgentTask>)
      requires Valid() && Known(task.taskId) && SameIdentity(task, changed)
      requires SnapOf(task.taskId).task.revision == task.revision ==> SnapOf(task.taskId).task == task
      modifies store`tasks, world`clock, world`troubles
      ensures Valid() && Known(task.taskId) && OthersKept(task.taskId) && Ticked(1)
      ensures saved.Some? <==>
        old(SnapOf(task.taskId)).task == task && Admissible(task, changed) && task.updatedAt <= Reading(0)
      ensures saved.None? ==> store.tasks == old(store.tasks) && (Admissible(task, changed) ==> Troubled())
      ensures saved.Some? ==>
        && SnapOf(task.taskId) == old(SnapOf(task.taskId)).(task := saved.value)
        && SavedAs(task, changed, saved.value) && saved.value.updatedAt == Reading(0)
        && world.troubles == old(world.troubles)
    {
      var now := world.Now();
      var evolved := Evolve(task, changed, now);
      if ValidUpdate(task, evolved) {
        var ok := store.SaveTask(evolved, task.revision);
        if ok {
          return Some(evolved);
        }
        world.Suffer(Overtaken(task.revision, store.tasks[task.taskId].revision));
      } else if now < task.updatedAt {
        world.Suffer(ClockBehind(task.updatedAt, now));
      }
      saved := None;
    }

    /** Give up part-way: from here on only the budgets are known of the task. */
    method Fail(taskId: string) returns (turn: Turn)
      requires Valid() && Known(taskId) && Sound(SnapOf(taskId))
      modifies this`interrupted
      ensures Valid() && OthersKept(taskId) && turn == Done(Error) && Over(taskId, Error)
      ensures interrupted == old(interrupted) + {taskId}
    {
      interrupted := interrupted + {taskId};
      UnsureRests(planner, SnapOf(taskId));
      turn := Done(Error);
    }

    /** Save; without the save the task is given up. */
    method SaveOrFail(task: AgentTask, changed: AgentTask) returns (saved: Option<AgentTask>)
      requires Valid() && Known(task.taskId) && Admissible(task, changed) && Sound(SnapOf(task.taskId))
      requires SnapOf(task.taskId).task.revision == task.revision ==> SnapOf(task.taskId).task == task
      modifies this`interrupted, store`tasks, world
      ensures Valid() && OthersKept(task.taskId) && Proceeds(task.taskId, saved.None?) && Ticked(1)
      ensures LogOf(task.taskId) == old(LogOf(task.taskId))
      ensures saved.None? ==> Over(task.taskId, Error)
      ensures saved.Some? ==>
        && Known(task.taskId) && SavedAs(task, changed, saved.value) && old(SnapOf(task.taskId)).task == task
        && SnapOf(task.taskId) == old(SnapOf(task.taskId)).(task := saved.value)
    {
      saved := Save(task, changed);
      if saved.None? {
        var turn := Fail(task.taskId);
      }
    }

    /** Log first, then save; without the save the task is given up. */
    method NoteAndSave(task: AgentTask, payload: AuditPayload, changed: AgentTask) returns (saved: Option<AgentTask>)
      requires Valid() && Known(task.taskId) && Admissible(task, changed) && SnapOf(task.taskId).task == task
      requires Sound(Noted(SnapOf(task.taskId), payload))
      modifies this`interrupted, store, world
      ensures Valid() && OthersKept(task.taskId) && Proceeds(task.taskId, saved.None?) && Ticked(2)
      ensures LogOf(task.taskId) == old(LogOf(task.taskId)) + [payload]
      ensures saved.None? ==> Over(task.taskId, Error)
      ensures saved.Some? ==>
        && Known(task.taskId) && SavedAs(task, changed, saved.value)
        && SnapOf(task.taskId) == Noted(old(SnapOf(task.taskId)), payload).(task := saved.value)
    {
      Note(task.taskId, payload);
      saved := SaveOrFail(task, changed);
    }

    /** Save first, then log; without the save the task is given up. */
    method SaveAndNote(task: AgentTask, changed: AgentTask, payload: AuditPayload) returns (saved: Option<AgentTask>)
      requires Valid() && Known(task.taskId) && Admissible(task, changed) && SnapOf(task.taskId).task == task
      requires Sound(SnapOf(task.taskId))
      modifies this`interrupted, store, world
      ensures Valid() && OthersKept(task.taskId) && Proceeds(task.taskId, saved.None?)
      ensures Ticked(if saved.Some? then 2 else 1)
      ensures saved.None? ==> Over(task.taskId, Error) && LogOf(task.taskId) == old(LogOf(task.taskId))
      ensures saved.Some? ==>
        && Known(task.taskId) && SavedAs(task, changed, saved.value)
        && SnapOf(task.taskId) == Noted(old(SnapOf(task.taskId)), payload).(task := saved.value)
    {
      saved := SaveOrFail(task, changed);
      if saved.Some? {
        Note(task.taskId, payload);
      }
    }

    /** Save the final state of a call whose closing event is already logged. */
    method Close(task: AgentTask, changed: AgentTask) returns (turn: Turn)
      requires Valid() && Known(task.taskId) && Admissible(task, changed)
      requires SnapOf(task.taskId).task.revision == task.revision ==> SnapOf(task.taskId).task == task
      requires Sound(SnapOf(task.taskId))
      requires SnapOf(task.taskId).task == task ==> Resting(planner, SnapOf(task.taskId).(task := changed))
      requires changed.status !in {Created, Running}
      modifies this`interrupted, store`tasks, world
      ensures Valid() && OthersKept(task.taskId) && turn.Done? && Over(task.taskId, turn.reply)
      ensures Proceeds(task.taskId, turn == Done(Error)) && Ticked(1)
      ensures turn.reply.Answer? ==> old(SnapOf(task.taskId)).task == task
      ensures Plays(task.taskId, Only(Ends(changed.status)), turn)
    {
      ghost var s := SnapOf(task.taskId);
      var saved := SaveOrFail(task, changed);
      if saved.None? {
        return Done(Error);
      }
      SavedRests(planner, s, task, changed, saved.value);
      turn := Done(Answer(saved.value));
    }

    /** Log the closing event, then save the final state of the call. */
    method NoteAndClose(task: AgentTask, payload: AuditPayload, changed: AgentTask) returns (turn: Turn)
      requires Valid() && Known(task.taskId) && Admissible(task, changed) && changed.status !in {Created, Running}
      requires SnapOf(task.taskId).task.revision == task.revision ==> SnapOf(task.taskId).task == task
      requires Sound(Noted(SnapOf(task.taskId), payload))
      requires SnapOf(task.taskId).task == task ==>
        Resting(planner, Noted(SnapOf(task.taskId), payload).(task := changed))
      modifies this`interrupted, store, world
      ensures Valid() && OthersKept(task.taskId) && turn.Done? && Over(task.taskId, turn.reply)
      ensures Proceeds(task.taskId, turn == Done(Error)) && Ticked(2)
      ensures LogOf(task.taskId) == old(LogOf(task.taskId)) + [payload]
      ensures turn.reply.Answer? ==> old(SnapOf(task.taskId)).task == task
      ensures Plays(task.taskId, Ending(payload, changed.status), turn)
    {
      ghost var from := SightOf(task.taskId);
      Note(task.taskId, payload);
      ghost var mid := SightOf(task.taskId);
      turn := Close(task, changed);
      FollowsThen([payload], [], Only(Ends(changed.status)), from, mid, SightOf(task.taskId), turn);
    }

    /** Log the event that fixes the status, then save that status. */
    method CloseAs(task: AgentTask, status: TaskStatus, payload: AuditPayload) returns (turn: Turn)
      requires Valid() && Known(task.taskId) && status !in {Created, Running}
      requires Admissible(task, WithStatus(task, status))
      requires SnapOf(task.taskId).task.revision == task.revision ==> SnapOf(task.taskId).task == task
      requires Sound(Noted(SnapOf(task.taskId), payload))
      requires SnapOf(task.taskId).task == task ==>
        Resting(planner, Noted(SnapOf(task.taskId), payload).(task := WithStatus(task, status)))
      modifies this`interrupted, store, world
      ensures Valid() && OthersKept(task.taskId) && turn.Done? && Over(task.taskId, turn.reply)
      ensures Proceeds(task.taskId, turn == Done(Error)) && Ticked(2)
      ensures LogOf(task.taskId) == old(LogOf(task.taskId)) + [payload]
      ensures turn.reply.Answer? ==> old(SnapOf(task.taskId)).task == task
      ensures Plays(task.taskId, Ending(payload, status), turn)
    {
      turn := NoteAndClose(task, payload, WithStatus(task, status));
    }

    /** Time out the task: log first, then save. */
    method TimeOut(task: AgentTask) returns (turn: Turn)
      requires Valid() && Known(task.taskId) && SnapOf(task.taskId).task == task
      requires Live(planner, SnapOf(task.taskId), 1)
      modifies this`interrupted, store, world
      ensures Valid() && OthersKept(task.taskId) && turn.Done? && TurnIsSound(task.taskId, turn)
      ensures Proceeds(task.taskId, turn == Done(Error)) && Ticked(2)
      ensures Plays(task.taskId, Ending(TaskTimedOut, TimedOut), turn)
    {
      StatusCloses(planner, SnapOf(task.taskId), TimedOut, TaskTimedOut);
      turn := CloseAs(task, TimedOut, TaskTimedOut);
    }

    /** Read the clock and time the task out when it is late. */
    method CheckDeadline(task: AgentTask) returns (turn: Option<Turn>)
      requires Valid() && Known(task.taskId) && SnapOf(task.taskId).task == task
      requires Live(planner, SnapOf(task.taskId), 1)
      modifies this`interrupted, store, world
      ensures Valid() && OthersKept(task.taskId) && ClockWentOn() && |old(world.clock)| < |world.clock|
      ensures turn.Some? <==> task.DeadlineExpired(Reading(0))
      ensures turn.None? ==> unchanged(this) && unchanged(store) && Ticked(1) && world.troubles == old(world.troubles)
      ensures turn.Some? ==>
        && turn.value.Done? && TurnIsSound(task.taskId, turn.value)
        && Proceeds(task.taskId, turn.value == Done(Error))
        && Plays(task.taskId, Ending(TaskTimedOut, TimedOut), turn.value)
    {
      var now := world.Now();
      if !task.DeadlineExpired(now) {
        return None;
      }
      var late := TimeOut(task);
      turn := Some(late);
    }

    /** An operator's cancel or pause: save first, then log; a refused save leaves no trace. */
    method OperatorStops(task: AgentTask, status: TaskStatus, payload: AuditPayload) returns (turn: Turn)
      requires Valid() && Known(task.taskId) && SnapOf(task.taskId).task == task
      requires Live(planner, SnapOf(task.taskId), 1)
      requires (status == Cancelled && payload == TaskCancelled) ||
          (status == PausedOperator && payload == OperatorPaused)
      requires Admissible(task, WithStatus(task, status))
      modifies store, world
      ensures Valid() && OthersKept(task.taskId) && Known(task.taskId) && turn.Done? && Proceeds(task.taskId, false)
      ensures if turn.reply.Answer? then
                && TurnIsSound(task.taskId, turn) && turn.reply.task.status == status
                && turn.reply.task.revision == task.revision + 1
                && LogOf(task.taskId) == old(LogOf(task.taskId)) + [payload] && Ticked(2)
              else
                && Ticked(1) && Troubled()
                && store.tasks == old(store.tasks) && store.events == old(store.events)
                && store.books == old(store.books)
    {
      ghost var s := SnapOf(task.taskId);
      var saved := Save(task, WithStatus(task, status));
      if saved.None? {
        return Done(Error);
      }
      OperatorStopRests(planner, s, status, payload, saved.value);
      Note(task.taskId, payload);
      turn := Done(Answer(saved.value));
    }

    /** Ask for the next proposal; an operator may step in while the planner is thinking. */
    method AskPlanner(task: AgentTask) returns (answer: PlannerAnswer)
      requires Valid() && Known(task.taskId) && SnapOf(task.taskId).task == task
      requires InLoop(planner, SnapOf(task.taskId), 1)
      modifies store, world
      ensures Valid() && OthersKept(task.taskId) && Proceeds(task.taskId, false)
      ensures planner.Playbook? ==>
        var next := Policy.NextInPlaybook(planner.proposals, task);
        answer == if next.Some? then Proposed(next.value) else PlannerError
      ensures Answered(task, answer, old(SightOf(task.taskId)))
    {
      if planner.Playbook? {
        var next := Policy.NextInPlaybook(planner.proposals, task);
        answer := if next.Some? then Proposed(next.value) else PlannerError;
      } else {
        answer := *;
      }
      world.Hear(answer);
      if * {
        var cancels: bool := *;
        var turn := OperatorStops(task, if cancels then Cancelled else PausedOperator,
                                  if cancels then TaskCancelled else OperatorPaused);
      }
    }

    /** One pass of the controller loop. */
    method Iterate(taskId: string) returns (turn: Turn)
      requires Valid() && Known(taskId) && InLoop(planner, SnapOf(taskId), 0)
      modifies this, store, world
      ensures Valid() && OthersKept(taskId) && TurnIsSound(taskId, turn)
      ensures iterations == old(iterations)[taskId := old(iterations[taskId]) + 1]
      ensures Proceeds(taskId, turn == Done(Error)) && ClockWentOn()
      ensures Pass(RulesOf(), old(SnapOf(taskId)).task, old(SightOf(taskId)), SightOf(taskId), turn)
    {
      var task := store.tasks[taskId];
      ghost var from := SightOf(taskId);
      CountIteration(taskId);
      turn := PassOver(task, from);
    }

    method CountIteration(taskId: string)
      requires Valid() && Known(taskId) && InLoop(planner, SnapOf(taskId), 0)
      modifies this`iterations
      ensures Valid() && OthersKept(taskId) && Proceeds(taskId, false)
      ensures Known(taskId) && InLoop(planner, SnapOf(taskId), 1) && SnapOf(taskId).task.taskId == taskId
      ensures iterations == old(iterations)[taskId := old(iterations[taskId]) + 1]
    {
      iterations := iterations[taskId := iterations[taskId] + 1];
    }

    /** Check the deadline, then replay the pending call or ask the planner. */
    method PassOver(task: AgentTask, ghost from: Sight) returns (turn: Turn)
      requires Valid() && Known(task.taskId) && SnapOf(task.taskId).task == task
      requires InLoop(planner, SnapOf(task.taskId), 1) && SightOf(task.taskId) == from
      modifies this`interrupted, store, world
      ensures Valid() && OthersKept(task.taskId) && TurnIsSound(task.taskId, turn)
      ensures Proceeds(task.taskId, turn == Done(Error))
      ensures Pass(RulesOf(), task, from, SightOf(task.taskId), turn)
    {
      var late := CheckDeadline(task);
      if late.Some? {
        return late.value;
      }
      ghost var begun := SightOf(task.taskId);
      turn := Continue(task, begun);
      TimelyPass(RulesOf(), task, from, begun, SightOf(task.taskId), turn);
    }

    ghost predicate Continues(task: AgentTask, begun: Sight, turn: Turn)
      reads store, world, tools
    {
      var to := SightOf(task.taskId);
      begun.clock <= to.clock && Continued(RulesOf(), task, begun, to, turn)
    }

    method Continue(task: AgentTask, ghost begun: Sight) returns (turn: Turn)
      requires Valid() && Known(task.taskId) && SnapOf(task.taskId).task == task
      requires InLoop(planner, SnapOf(task.taskId), 1) && SightOf(task.taskId) == begun
      modifies this`interrupted, store, world
      ensures Valid() && OthersKept(task.taskId) && TurnIsSound(task.taskId, turn)
      ensures Proceeds(task.taskId, turn == Done(Error)) && Continues(task, begun, turn)
    {
      if task.ReplayReady() {
        turn := ReplayPending(task, begun);
      } else {
        turn := PlanNext(task, begun);
      }
    }

    method ReplayPending(task: AgentTask, ghost begun: Sight) returns (turn: Turn)
      requires Valid() && Known(task.taskId) && SnapOf(task.taskId).task == task
      requires InLoop(planner, SnapOf(task.taskId), 1) && task.ReplayReady() && SightOf(task.taskId) == begun
      modifies this`interrupted, store, world
      ensures Valid() && OthersKept(task.taskId) && TurnIsSound(task.taskId, turn)
      ensures Proceeds(task.taskId, turn == Done(Error)) && Continues(task, begun, turn)
    {
      ghost var s := SnapOf(task.taskId);
      var proposal := Replayed(task);
      var saved := SaveAndNote(task, Popped(task), ApprovalResumed(proposal));
      if saved.None? {
        RefusedReplayContinues(RulesOf(), task, begun, SightOf(task.taskId));
        return Done(Error);
      }
      ReplayTaken(planner, s, proposal, saved.value);
      ghost var o := Opening(RulesOf(), saved.value, proposal, ApprovalResumed(proposal), |begun.clock| + 2, begun);
      turn := Dispatch(saved.value, proposal, o);
      ReplayContinues(RulesOf(), task, saved.value, begun, SightOf(task.taskId), turn);
    }

    method PlanNext(task: AgentTask, ghost begun: Sight) returns (turn: Turn)
      requires Valid() && Known(task.taskId) && SnapOf(task.taskId).task == task
      requires InLoop(planner, SnapOf(task.taskId), 1) && !task.ReplayReady() && SightOf(task.taskId) == begun
      modifies this`interrupted, store, world
      ensures Valid() && OthersKept(task.taskId) && TurnIsSound(task.taskId, turn)
      ensures Proceeds(task.taskId, turn == Done(Error)) && Continues(task, begun, turn)
    {
      var answer := AskPlanner(task);
      if answer.PlannerError? {
        turn := GiveUpPlanning(task, begun);
      } else {
        turn := CheckInterruption(task, answer.proposal, begun);
      }
    }

    /** The planner has answered; an operator may have stepped in meanwhile. */
    ghost predicate Answered(task: AgentTask, answer: PlannerAnswer, begun: Sight)
      reads this, store, world
    {
      && Known(task.taskId)
      && var s, now := SnapOf(task.taskId), SightOf(task.taskId);
      && now.answers == begun.answers + [answer] && now.calls == begun.calls && begun.clock <= now.clock
      && if s.task.revision == task.revision then
           s.task == task && InLoop(planner, s, 1) && now.log == begun.log && |now.clock| <= |begun.clock| + 1
         else
           && Resting(planner, s) && s.task.status in {Cancelled, PausedOperator}
           && now.log == begun.log + [if s.task.status == Cancelled then TaskCancelled else OperatorPaused]
    }

    method GiveUpPlanning(task: AgentTask, ghost begun: Sight) returns (turn: Turn)
      requires Valid() && !task.ReplayReady() && Answered(task, PlannerError, begun) && task.status == Running
      modifies this`interrupted, store, world
      ensures Valid() && OthersKept(task.taskId) && TurnIsSound(task.taskId, turn)
      ensures Proceeds(task.taskId, turn == Done(Error)) && Continues(task, begun, turn)
    {
      ghost var s, now := SnapOf(task.taskId), SightOf(task.taskId);
      if s.task == task {
        StatusCloses(planner, s, Failed, PlannerFailed);
      }
      turn := CloseAs(task, Failed, PlannerFailed);
      PlannerFailureContinues(RulesOf(), task, begun, now, SightOf(task.taskId), turn);
    }

    /** The interruption checkpoint: a task that has been stopped meanwhile is left alone. */
    method CheckInterruption(task: AgentTask, proposal: Proposal, ghost begun: Sight) returns (turn: Turn)
      requires Valid() && !task.ReplayReady() && Answered(task, Proposed(proposal), begun)
      requires planner.Playbook? ==> Policy.NextInPlaybook(planner.proposals, task) == Some(proposal)
      modifies this`interrupted, store, world
      ensures Valid() && OthersKept(task.taskId) && TurnIsSound(task.taskId, turn)
      ensures Proceeds(task.taskId, turn == Done(Error)) && Continues(task, begun, turn)
    {
      var current := store.tasks[task.taskId];
      if current.revision != task.revision {
        turn := Done(Answer(current));
        InterruptionContinues(RulesOf(), task, current.status,
                              if current.status == Cancelled then TaskCancelled else OperatorPaused,
                              Proposed(proposal), begun, SightOf(task.taskId), turn);
        return;
      }
      turn := TakeStep(task, proposal, begun);
    }

    method TakeStep(task: AgentTask, proposal: Proposal, ghost begun: Sight) returns (turn: Turn)
      requires Valid() && Known(task.taskId) && SnapOf(task.taskId).task == task
      requires !task.ReplayReady() && Answered(task, Proposed(proposal), begun)
      requires planner.Playbook? ==> Policy.NextInPlaybook(planner.proposals, task) == Some(proposal)
      modifies this`interrupted, store, world
      ensures Valid() && OthersKept(task.taskId) && TurnIsSound(task.taskId, turn)
      ensures Proceeds(task.taskId, turn == Done(Error)) && Continues(task, begun, turn)
    {
      ghost var s := SnapOf(task.taskId);
      var saved := NoteAndSave(task, PlannerProposed(proposal), Advanced(task));
      if saved.None? {
        RefusedStepContinues(RulesOf(), task, proposal, begun, SightOf(task.taskId));
        return Done(Error);
      }
      StepTaken(planner, s, proposal, saved.value);
      ghost var o := Opening(RulesOf(), saved.value, proposal, PlannerProposed(proposal), |world.clock|,
                             begun.(answers := world.answers));
      turn := Dispatch(saved.value, proposal, o);
      StepContinues(RulesOf(), task, proposal, saved.value, o.n, begun, SightOf(task.taskId), turn);
    }

    /** The opening is this task's, under this controller's rules. */
    ghost predicate Opens(o: Opening, task: AgentTask, proposal: Proposal)
      reads tools
    {
      o.rules == RulesOf() && o.task == task && o.proposal == proposal
    }

    /** Finish, pause, or put the proposed call to the policy. */
    method Dispatch(task: AgentTask, proposal: Proposal, ghost o: Opening) returns (turn: Turn)
      requires Valid() && Known(task.taskId) && SnapOf(task.taskId).task == task
      requires HoldsStep(planner, SnapOf(task.taskId), proposal)
      requires Opens(o, task, proposal) && Opened(o, SightOf(task.taskId))
      modifies this`interrupted, store, world
      ensures Valid() && OthersKept(task.taskId) && TurnIsSound(task.taskId, turn)
      ensures Proceeds(task.taskId, turn == Done(Error)) && Played(o, SightOf(task.taskId), turn)
    {
      match proposal
      case Finish(summary) =>
        turn := Complete(task, summary, o);
      case Pause(reason) =>
        turn := PauseAsked(task, reason, o);
      case UseTool(call) =>
        turn := Authorize(task, call, o);
    }

    method PauseAsked(task: AgentTask, reason: string, ghost o: Opening) returns (turn: Turn)
      requires Valid() && Known(task.taskId) && SnapOf(task.taskId).task == task
      requires HoldsStep(planner, SnapOf(task.taskId), Pause(reason))
      requires Opens(o, task, Pause(reason)) && Opened(o, SightOf(task.taskId))
      modifies this`interrupted, store, world
      ensures Valid() && OthersKept(task.taskId) && TurnIsSound(task.taskId, turn)
      ensures Proceeds(task.taskId, turn == Done(Error)) && Played(o, SightOf(task.taskId), turn)
    {
      ghost var now := SightOf(task.taskId);
      StatusCloses(planner, SnapOf(task.taskId), PausedOperator, TaskPaused(reason));
      turn := CloseAs(task, PausedOperator, TaskPaused(reason));
      ClosingPlays(o, now, Ending(TaskPaused(reason), PausedOperator), SightOf(task.taskId), turn);
    }

    method Complete(task: AgentTask, summary: string, ghost o: Opening) returns (turn: Turn)
      requires Valid() && Known(task.taskId) && SnapOf(task.taskId).task == task
      requires HoldsStep(planner, SnapOf(task.taskId), Finish(summary))
      requires Opens(o, task, Finish(summary)) && Opened(o, SightOf(task.taskId))
      modifies this`interrupted, store, world
      ensures Valid() && OthersKept(task.taskId) && TurnIsSound(task.taskId, turn)
      ensures Proceeds(task.taskId, turn == Done(Error)) && Played(o, SightOf(task.taskId), turn)
    {
      ghost var now := SightOf(task.taskId);
      FinishCloses(planner, SnapOf(task.taskId), summary);
      turn := NoteAndClose(task, TaskFinished(summary), Finished(task, summary));
      ClosingPlays(o, now, Ending(TaskFinished(summary), Completed), SightOf(task.taskId), turn);
    }

    /** Put a call to the policy; what the policy allows, the budgets and the log allow. */
    method Judge(task: AgentTask, call: ToolCall, spec: Option<ToolSpec>, ghost o: Opening)
      returns (decision: Policy.PolicyDecision)
      requires Known(task.taskId) && SnapOf(task.taskId).task == task && Sound(SnapOf(task.taskId))
      requires Opens(o, task, UseTool(call)) && Opened(o, SightOf(task.taskId))
      requires spec == Policy.Lookup(tools.tools, call.toolId)
      modifies world`clock
      ensures Ticked(1) && decision == Policy.Decide(config, task, call, spec, Reading(0))
      ensures Judged(o, SightOf(task.taskId), call, spec, decision)
      ensures !decision.Denied? ==> task.stepCount <= task.manifest.maxSteps
      ensures decision.RequiresApproval? ==> !ReferenceGiven(UseTool(call))
      ensures decision.Allowed? ==> spec.Some? && Callable(SnapOf(task.taskId), call)
    {
      var now := world.Now();
      decision := Policy.Decide(config, task, call, spec, now);
      Policy.DecidesExactly(config, task, call, spec, now);
      if decision.Allowed? {
        AllowedIsCallable(config, SnapOf(task.taskId), call, spec, now);
      }
    }

    method Authorize(task: AgentTask, call: ToolCall, ghost o: Opening) returns (turn: Turn)
      requires Valid() && Known(task.taskId) && SnapOf(task.taskId).task == task
      requires HoldsStep(planner, SnapOf(task.taskId), UseTool(call))
      requires Opens(o, task, UseTool(call)) && Opened(o, SightOf(task.taskId))
      modifies this`interrupted, store, world
      ensures Valid() && OthersKept(task.taskId) && TurnIsSound(task.taskId, turn)
      ensures Proceeds(task.taskId, turn == Done(Error)) && Played(o, SightOf(task.taskId), turn)
    {
      var spec := tools.Get(call.toolId);
      var decision := Judge(task, call, spec, o);
      turn := Obey(task, call, spec, decision, o);
    }

    /** A denied call blocks the task; any other leaves the step in hand. */
    method Obey(task: AgentTask, call: ToolCall, spec: Option<ToolSpec>, decision: Policy.PolicyDecision,
                ghost o: Opening) returns (turn: Turn)
      requires Valid() && Known(task.taskId) && SnapOf(task.taskId).task == task
      requires HoldsStep(planner, SnapOf(task.taskId), UseTool(call))
      requires !decision.Denied? ==> task.stepCount <= task.manifest.maxSteps
      requires decision.RequiresApproval? ==> !ReferenceGiven(UseTool(call))
      requires decision.Allowed? ==> spec.Some? && Callable(SnapOf(task.taskId), call)
      requires Opens(o, task, UseTool(call)) && Judged(o, SightOf(task.taskId), call, spec, decision)
      modifies this`interrupted, store, world
      ensures Valid() && OthersKept(task.taskId) && TurnIsSound(task.taskId, turn)
      ensures Proceeds(task.taskId, turn == Done(Error)) && Played(o, SightOf(task.taskId), turn)
    {
      if decision.Denied? {
        turn := Deny(task, call, spec, decision, o);
      } else {
        turn := Permit(task, call, spec, decision, o);
      }
    }

    /** A denied call blocks the task. */
    method Deny(task: AgentTask, call: ToolCall, ghost spec: Option<ToolSpec>, decision: Policy.PolicyDecision,
                ghost o: Opening) returns (turn: Turn)
      requires Valid() && Known(task.taskId) && SnapOf(task.taskId).task == task
      requires HoldsStep(planner, SnapOf(task.taskId), UseTool(call)) && decision.Denied?
      requires Opens(o, task, UseTool(call)) && Judged(o, SightOf(task.taskId), call, spec, decision)
      modifies this`interrupted, store, world
      ensures Valid() && OthersKept(task.taskId) && TurnIsSound(task.taskId, turn)
      ensures Proceeds(task.taskId, turn == Done(Error)) && Played(o, SightOf(task.taskId), turn)
    {
      ghost var now := SightOf(task.taskId);
      PolicyAnswered(planner, SnapOf(task.taskId), UseTool(call), decision);
      turn := CloseAs(task, Blocked, PolicyDecided(decision));
      DenialPlays(o, now, call, spec, decision, SightOf(task.taskId), turn);
    }

    /** A call that was not denied leaves the step in hand. */
    method Permit(task: AgentTask, call: ToolCall, spec: Option<ToolSpec>, decision: Policy.PolicyDecision,
                  ghost o: Opening) returns (turn: Turn)
      requires Valid() && Known(task.taskId) && SnapOf(task.taskId).task == task
      requires HoldsStep(planner, SnapOf(task.taskId), UseTool(call))
      requires !decision.Denied? && task.stepCount <= task.manifest.maxSteps
      requires decision.RequiresApproval? ==> !ReferenceGiven(UseTool(call))
      requires decision.Allowed? ==> spec.Some? && Callable(SnapOf(task.taskId), call)
      requires Opens(o, task, UseTool(call)) && Judged(o, SightOf(task.taskId), call, spec, decision)
      modifies this`interrupted, store, world
      ensures Valid() && OthersKept(task.taskId) && TurnIsSound(task.taskId, turn)
      ensures Proceeds(task.taskId, turn == Done(Error)) && Played(o, SightOf(task.taskId), turn)
    {
      LogDecision(task, call, spec, decision, o);
      turn := Proceed(task, call, spec, decision, o);
    }

    method LogDecision(task: AgentTask, call: ToolCall, ghost spec: Option<ToolSpec>, decision: Policy.PolicyDecision,
                       ghost o: Opening)
      requires Valid() && Known(task.taskId) && SnapOf(task.taskId).task == task
      requires HoldsStep(planner, SnapOf(task.taskId), UseTool(call)) && !decision.Denied?
      requires Judged(o, SightOf(task.taskId), call, spec, decision)
      modifies store`events, store`books, world`clock
      ensures Valid() && OthersKept(task.taskId) && Proceeds(task.taskId, false)
      ensures Known(task.taskId) && SnapOf(task.taskId).task == task
      ensures HoldsStep(planner, SnapOf(task.taskId), UseTool(call))
      ensures old(Callable(SnapOf(task.taskId), call)) ==> Callable(SnapOf(task.taskId), call)
      ensures Permitted(o, SightOf(task.taskId), call, spec, decision)
    {
      PolicyAnswered(planner, SnapOf(task.taskId), UseTool(call), decision);
      ghost var now := SightOf(task.taskId);
      Note(task.taskId, PolicyDecided(decision));
      JudgedThenPermitted(o, now, SightOf(task.taskId), call, spec, decision);
    }

    /** Wait for approval, or run the tool. */
    method Proceed(task: AgentTask, call: ToolCall, spec: Option<ToolSpec>, decision: Policy.PolicyDecision,
                   ghost o: Opening) returns (turn: Turn)
      requires Valid() && Known(task.taskId) && SnapOf(task.taskId).task == task
      requires HoldsStep(planner, SnapOf(task.taskId), UseTool(call))
      requires !decision.Denied? && task.stepCount <= task.manifest.maxSteps
      requires decision.RequiresApproval? ==> !ReferenceGiven(UseTool(call))
      requires decision.Allowed? ==> spec.Some? && Callable(SnapOf(task.taskId), call)
      requires Opens(o, task, UseTool(call)) && Permitted(o, SightOf(task.taskId), call, spec, decision)
      modifies this`interrupted, store, world
      ensures Valid() && OthersKept(task.taskId) && TurnIsSound(task.taskId, turn)
      ensures Proceeds(task.taskId, turn == Done(Error)) && Played(o, SightOf(task.taskId), turn)
    {
      if decision.RequiresApproval? {
        turn := AwaitApproval(task, call, spec, o);
      } else {
        turn := RunTool(task, call, spec.value, o);
      }
    }

    method AwaitApproval(task: AgentTask, call: ToolCall, ghost spec: Option<ToolSpec>, ghost o: Opening)
      returns (turn: Turn)
      requires Valid() && Known(task.taskId) && SnapOf(task.taskId).task == task
      requires HoldsStep(planner, SnapOf(task.taskId), UseTool(call)) && !ReferenceGiven(UseTool(call))
      requires task.stepCount <= task.manifest.maxSteps
      requires Opens(o, task, UseTool(call))
      requires Permitted(o, SightOf(task.taskId), call, spec, Policy.RequiresApproval)
      modifies this`interrupted, store, world
      ensures Valid() && OthersKept(task.taskId) && TurnIsSound(task.taskId, turn)
      ensures Proceeds(task.taskId, turn == Done(Error)) && Played(o, SightOf(task.taskId), turn)
    {
      ghost var now := SightOf(task.taskId);
      ApprovalAwaited(planner, SnapOf(task.taskId), UseTool(call));
      turn := NoteAndClose(task, ApprovalRequired, AwaitingApproval(task, UseTool(call)));
      WaitingPlays(o, now, call, spec, SightOf(task.taskId), turn);
    }

    /** Check the deadline once more. */
    method RunTool(task: AgentTask, call: ToolCall, spec: ToolSpec, ghost o: Opening) returns (turn: Turn)
      requires Valid() && Known(task.taskId) && SnapOf(task.taskId).task == task
      requires HoldsStep(planner, SnapOf(task.taskId), UseTool(call)) && Callable(SnapOf(task.taskId), call)
      requires Opens(o, task, UseTool(call))
      requires Permitted(o, SightOf(task.taskId), call, Some(spec), Policy.Allowed)
      modifies this`interrupted, store, world
      ensures Valid() && OthersKept(task.taskId) && TurnIsSound(task.taskId, turn)
      ensures Proceeds(task.taskId, turn == Done(Error)) && Played(o, SightOf(task.taskId), turn)
    {
      ghost var allowed := SightOf(task.taskId);
      var late := CheckDeadline(task);
      if late.Some? {
        turn := late.value;
        LatenessPlays(o, allowed, call, spec, SightOf(task.taskId), turn);
      } else {
        turn := UseHandler(task, call, spec, o);
      }
    }

    /** Only a call within the budgets that the log covers, and that is in time, reaches a handler. */
    method UseHandler(task: AgentTask, call: ToolCall, spec: ToolSpec, ghost o: Opening) returns (turn: Turn)
      requires Valid() && Known(task.taskId) && SnapOf(task.taskId).task == task
      requires HoldsStep(planner, SnapOf(task.taskId), UseTool(call)) && Callable(SnapOf(task.taskId), call)
      requires Opens(o, task, UseTool(call)) && InTime(o, SightOf(task.taskId), call, spec)
      modifies this`interrupted, store, world
      ensures Valid() && OthersKept(task.taskId) && TurnIsSound(task.taskId, turn)
      ensures Proceeds(task.taskId, turn == Done(Error)) && Played(o, SightOf(task.taskId), turn)
    {
      ghost var now := SightOf(task.taskId);
      var outcome := world.Handle(call);
      turn := TakeOutcome(task, call, spec, outcome, o, now);
    }

    /** An unusable outcome fails the call; any other is recorded. */
    method TakeOutcome(task: AgentTask, call: ToolCall, spec: ToolSpec, outcome: Policy.HandlerOutcome,
                       ghost o: Opening, ghost now: Sight) returns (turn: Turn)
      requires Valid() && Known(task.taskId) && SnapOf(task.taskId).task == task
      requires HoldsStep(planner, SnapOf(task.taskId), UseTool(call)) && Callable(SnapOf(task.taskId), call)
      requires Opens(o, task, UseTool(call)) && InTime(o, now, call, spec)
      requires SightOf(task.taskId) == now.(calls := now.calls + [HandlerCall(call, outcome)])
      modifies this`interrupted, store, world
      ensures Valid() && OthersKept(task.taskId) && TurnIsSound(task.taskId, turn)
      ensures Proceeds(task.taskId, turn == Done(Error)) && Played(o, SightOf(task.taskId), turn)
    {
      ghost var mid := SightOf(task.taskId);
      var result := Policy.Normalize(spec, outcome);
      if result.None? {
        turn := FailUnusable(task, outcome);
        HandlingPlays(o, now, call, spec, outcome, Only(Breaks), mid, SightOf(task.taskId), turn);
      } else {
        turn := RecordCall(task, call, result.value);
        HandlingPlays(o, now, call, spec, outcome, ResultScript(failureDigest, task, call, result.value), mid,
                      SightOf(task.taskId), turn);
      }
    }

    /** The call was made, but nothing can be recorded of it. */
    method FailUnusable(task: AgentTask, ghost outcome: Policy.HandlerOutcome) returns (turn: Turn)
      requires Valid() && Known(task.taskId) && Sound(SnapOf(task.taskId)) && Real(Unusable(outcome))
      modifies this`interrupted, world`troubles
      ensures Valid() && OthersKept(task.taskId) && Proceeds(task.taskId, true)
      ensures turn == Done(Error) && TurnIsSound(task.taskId, turn)
      ensures SightOf(task.taskId) == old(SightOf(task.taskId))
    {
      world.Suffer(Unusable(outcome));
      turn := Fail(task.taskId);
    }

    /** Count the call and log it with its result, then evaluate the result. */
    method RecordCall(task: AgentTask, call: ToolCall, result: ToolResult) returns (turn: Turn)
      requires Valid() && Known(task.taskId) && SnapOf(task.taskId).task == task
      requires HoldsStep(planner, SnapOf(task.taskId), UseTool(call)) && Callable(SnapOf(task.taskId), call)
      modifies this`interrupted, store, world
      ensures Valid() && OthersKept(task.taskId) && TurnIsSound(task.taskId, turn)
      ensures Proceeds(task.taskId, turn == Done(Error))
      ensures Plays(task.taskId, ResultScript(failureDigest, task, call, result), turn)
    {
      ghost var from := SightOf(task.taskId);
      ghost var script := ResultScript(failureDigest, task, call, result);
      var counted := CountCall(task, call, result);
      if counted.None? {
        turn := Done(Error);
      } else {
        CountingKeepsScripts(failureDigest, task, counted.value, call, result);
        turn := EvaluateCall(counted.value, call, result, script, from);
      }
    }

    /** Count the call and log it with its result. */
    method CountCall(task: AgentTask, call: ToolCall, result: ToolResult) returns (counted: Option<AgentTask>)
      requires Valid() && Known(task.taskId) && SnapOf(task.taskId).task == task
      requires HoldsStep(planner, SnapOf(task.taskId), UseTool(call)) && Callable(SnapOf(task.taskId), call)
      modifies this`interrupted, store, world
      ensures Valid() && OthersKept(task.taskId) && Proceeds(task.taskId, counted.None?)
      ensures Ticked(if counted.Some? then 2 else 1)
      ensures counted.None? ==> Over(task.taskId, Error)
      ensures Reached(if counted.Some? then [ToolExecuted(call, result)] else [], [], old(SightOf(task.taskId)),
                      SightOf(task.taskId))
      ensures counted.Some? ==>
        && Known(task.taskId) && SavedAs(task, CallCounted(task), counted.value)
        && SnapOf(task.taskId).task == counted.value
        && Evaluable(planner, SnapOf(task.taskId), result, Evaluate(failureDigest, call, result))
    {
      ghost var s := SnapOf(task.taskId);
      counted := SaveAndNote(task, CallCounted(task), ToolExecuted(call, result));
      if counted.Some? {
        CallSpent(planner, s, call, result, failureDigest, counted.value);
      }
    }

    /** This much of the script has been played, and the rest is to come. */
    ghost predicate Stands(taskId: string, script: Script, events: seq<AuditPayload>, rest: Script, from: Sight)
      reads store, world
    {
      script == Then(events, [], rest) && Reached(events, [], from, SightOf(taskId))
    }

    /** Evaluate the result and act on it. */
    method EvaluateCall(task: AgentTask, call: ToolCall, result: ToolResult, ghost script: Script, ghost from: Sight)
      returns (turn: Turn)
      requires Valid() && Known(task.taskId) && SnapOf(task.taskId).task == task && task.status == Running
      requires Evaluable(planner, SnapOf(task.taskId), result, Evaluate(failureDigest, call, result))
      requires Stands(task.taskId, script, [ToolExecuted(call, result)],
                      EvaluationScript(task, Evaluate(failureDigest, call, result)), from)
      modifies this`interrupted, store, world
      ensures Valid() && OthersKept(task.taskId) && TurnIsSound(task.taskId, turn)
      ensures Proceeds(task.taskId, turn == Done(Error)) && Follows(script, from, SightOf(task.taskId), turn)
    {
      var evaluation := Evaluate(failureDigest, call, result);
      LogEvaluation(task, call, result, evaluation, script, from);
      turn := Settle(task, result, evaluation, script, [ToolExecuted(call, result), ResultEvaluated(evaluation)], from);
    }

    method LogEvaluation(task: AgentTask, ghost call: ToolCall, ghost result: ToolResult, evaluation: Evaluation,
                         ghost script: Script, ghost from: Sight)
      requires Valid() && Known(task.taskId) && SnapOf(task.taskId).task == task
      requires Evaluable(planner, SnapOf(task.taskId), result, evaluation)
      requires Stands(task.taskId, script, [ToolExecuted(call, result)], EvaluationScript(task, evaluation), from)
      modifies store`events, store`books, world`clock
      ensures Valid() && OthersKept(task.taskId) && Proceeds(task.taskId, false)
      ensures Known(task.taskId) && SnapOf(task.taskId).task == task
      ensures Settleable(planner, SnapOf(task.taskId), result, evaluation)
      ensures Stands(task.taskId, script, [ToolExecuted(call, result), ResultEvaluated(evaluation)],
                     EvaluatedScript(task, evaluation), from)
    {
      ghost var now := SightOf(task.taskId);
      Note(task.taskId, ResultEvaluated(evaluation));
      EvaluationStands(script, ToolExecuted(call, result), ResultEvaluated(evaluation),
                       EvaluatedScript(task, evaluation), from, now, SightOf(task.taskId));
    }

    /** Continue after a success, count a retryable failure, fail otherwise. */
    method Settle(task: AgentTask, result: ToolResult, evaluation: Evaluation, ghost script: Script,
                  ghost events: seq<AuditPayload>, ghost from: Sight) returns (turn: Turn)
      requires Valid() && Known(task.taskId) && SnapOf(task.taskId).task == task && task.status == Running
      requires Settleable(planner, SnapOf(task.taskId), result, evaluation)
      requires Stands(task.taskId, script, events, EvaluatedScript(task, evaluation), from)
      modifies this`interrupted, store, world
      ensures Valid() && OthersKept(task.taskId) && TurnIsSound(task.taskId, turn)
      ensures Proceeds(task.taskId, turn == Done(Error)) && Follows(script, from, SightOf(task.taskId), turn)
    {
      if result.success {
        turn := Remember(task, result, script, events, from);
      } else if evaluation.status == Retry {
        turn := CountFailure(task, evaluation.fingerprint.value, script, events, from);
      } else {
        ghost var now := SightOf(task.taskId);
        turn := Close(task, WithStatus(task, Failed));
        FollowsThen(events, [], Only(Ends(Failed)), from, now, SightOf(task.taskId), turn);
      }
    }

    method Remember(task: AgentTask, result: ToolResult, ghost script: Script, ghost events: seq<AuditPayload>,
                    ghost from: Sight) returns (turn: Turn)
      requires Valid() && Known(task.taskId) && SnapOf(task.taskId).task == task && task.status == Running
      requires Sound(SnapOf(task.taskId))
      requires InLoop(planner, SnapOf(task.taskId).(task := OutputRemembered(task, result)), 0)
      requires Stands(task.taskId, script, events, Only(GoesOn), from)
      modifies this`interrupted, store, world
      ensures Valid() && OthersKept(task.taskId) && TurnIsSound(task.taskId, turn)
      ensures Proceeds(task.taskId, turn == Done(Error)) && Follows(script, from, SightOf(task.taskId), turn)
    {
      ghost var s, now := SnapOf(task.taskId), SightOf(task.taskId);
      var remembered := SaveOrFail(task, OutputRemembered(task, result));
      if remembered.None? {
        turn := Done(Error);
      } else {
        SavedLoops(planner, s, task, OutputRemembered(task, result), remembered.value);
        turn := Again;
      }
      FollowsThen(events, [], Only(GoesOn), from, now, SightOf(task.taskId), turn);
    }

    /** Count a retryable failure; the same failure too often blocks the task. */
    method CountFailure(task: AgentTask, fingerprint: string, ghost script: Script, ghost events: seq<AuditPayload>,
                        ghost from: Sight) returns (turn: Turn)
      requires Valid() && Known(task.taskId) && SnapOf(task.taskId).task == task
      requires FailureSeen(planner, SnapOf(task.taskId), fingerprint)
      requires Stands(task.taskId, script, events, RetryScript(task, fingerprint), from)
      modifies this`interrupted, store, world
      ensures Valid() && OthersKept(task.taskId) && TurnIsSound(task.taskId, turn)
      ensures Proceeds(task.taskId, turn == Done(Error)) && Follows(script, from, SightOf(task.taskId), turn)
    {
      ghost var s := SnapOf(task.taskId);
      var saved := SaveOrFail(task, FailureCounted(task, fingerprint));
      if saved.None? {
        return Done(Error);
      }
      RetriesGoOn(task, saved.value, fingerprint);
      FailureIsCounted(planner, s, fingerprint, saved.value);
      turn := RetryOrStop(saved.value, fingerprint, script, events, from);
    }

    method RetryOrStop(task: AgentTask, fingerprint: string, ghost script: Script, ghost events: seq<AuditPayload>,
                       ghost from: Sight) returns (turn: Turn)
      requires Valid() && Known(task.taskId) && SnapOf(task.taskId).task == task && task.status == Running
      requires Sound(SnapOf(task.taskId))
      requires FailureWasCounted(planner, SnapOf(task.taskId), fingerprint)
      requires Stands(task.taskId, script, events, CountedScript(task, fingerprint), from)
      requires |from.clock| < |world.clock|
      modifies this`interrupted, store, world
      ensures Valid() && OthersKept(task.taskId) && TurnIsSound(task.taskId, turn)
      ensures Proceeds(task.taskId, turn == Done(Error)) && Follows(script, from, SightOf(task.taskId), turn)
    {
      var count := task.Failures(fingerprint);
      if count >= task.manifest.maxIdenticalFailures {
        ghost var now := SightOf(task.taskId);
        turn := CloseAs(task, Blocked, RecoveryStopped(fingerprint, count));
        FollowsThen(events, [], CountedScript(task, fingerprint), from, now, SightOf(task.taskId), turn);
      } else {
        turn := Again;
      }
    }

    // ---------------------------------------------------------------- API calls

    method CreateTask(taskId: string, objective: string, manifest: PermissionManifest, binding: Option<ApprovalBinding>)
      returns (reply: Reply)
      requires Valid() && AtRest(taskId) && ManifestIsValid(manifest)
      modifies this, store, world
      ensures Valid() && AtRest(taskId) && OthersKept(taskId)
      ensures reply.Answer? <==>
        taskId !in old(store.tasks) && (binding.Some? ==> BindingFits(manifest, binding.value, taskId))
      ensures reply.Answer? ==>
        && Known(taskId)
        && SnapOf(taskId) == Noted(Snap(reply.task, EMPTY_BOOK, 0, true, config.globalDeniedActions), TaskCreated)
        && reply.task == NewTask(taskId, objective, manifest, binding, Reading(0))
      ensures reply.Error? ==> store.tasks == old(store.tasks) && store.events == old(store.events)
      ensures interrupted == old(interrupted)
    {
      if binding.Some? && !BindingFits(manifest, binding.value, taskId) {
        return Error;
      }
      var now := world.Now();
      NewTaskRests(planner, taskId, objective, manifest, binding, now, config.globalDeniedActions);
      reply := Open(NewTask(taskId, objective, manifest, binding, now));
    }

    /** Insert a new task, then log its creation. */
    method Open(task: AgentTask) returns (reply: Reply)
      requires Valid()
      modifies this, store, world`clock
      ensures Valid() && OthersKept(task.taskId) && ClockWentOn() && interrupted == old(interrupted)
      ensures reply == if task.taskId in old(store.tasks) then Error else Answer(task)
      ensures reply.Answer? ==>
        && Known(task.taskId)
        && SnapOf(task.taskId) == Noted(Snap(task, EMPTY_BOOK, 0, true, config.globalDeniedActions), TaskCreated)
      ensures reply.Error? ==> unchanged(this) && unchanged(store)
    {
      var ok := Insert(task);
      if !ok {
        return Error;
      }
      Note(task.taskId, TaskCreated);
      reply := Answer(task);
    }

    method Insert(task: AgentTask) returns (ok: bool)
      requires Valid()
      modifies this, store
      ensures Valid() && OthersKept(task.taskId)
      ensures ok <==> task.taskId !in old(store.tasks)
      ensures ok ==>
        && Known(task.taskId)
        && SnapOf(task.taskId) == Snap(task, EMPTY_BOOK, 0, true, config.globalDeniedActions)
      ensures !ok ==> store.tasks == old(store.tasks) && unchanged(this, store)
      ensures store.events == old(store.events) && interrupted == old(interrupted)
    {
      ok := store.CreateTask(task);
      if ok {
        iterations := iterations[task.taskId := 0];
      }
    }

    /**
      Run the loop until the task stops, pauses or reaches the iteration limit.  A call that
      answers never leaves the task created or running.
     */
    method Run(taskId: string, maxIterations: Option<int>) returns (reply: Reply)
      requires Valid() && AtRest(taskId)
      modifies this, store, world
      ensures Valid() && AtRest(taskId) && OthersKept(taskId) && ClockWentOn()
      ensures Proceeds(taskId, reply.Error? && old(Known(taskId)))
      ensures reply.Answer? ==>
        && Known(taskId) && SnapOf(taskId).task == reply.task
        && reply.task.status !in {Created, Running}
      ensures old(Known(taskId)) ==> Turned(taskId, IterationLimit(config, maxIterations), reply)
      ensures old(Known(taskId)) ==>
        var task := old(SnapOf(taskId)).task;
        if task.IsTerminal() then reply == Answer(task) && store.events == old(store.events)
        else Ran(task, IterationLimit(config, maxIterations), reply)
    {
      var found := store.GetTask(taskId);
      if found.None? {
        return Error;
      }
      var task := found.value;
      if task.IsTerminal() {
        return Answer(task);
      }
      reply := RunLive(task, IterationLimit(config, maxIterations));
    }

    /** Somebody must resume or approve the task before it can go on. */
    predicate Waiting(task: AgentTask) {
      || task.status == PausedOperator
      || (task.status == PausedApproval && !Approvals.Present(task.memory.approvedPendingCall))
    }

    /** A late task times out, a waiting one is left alone, any other enters the loop. */
    twostate predicate Ran(task: AgentTask, limit: int, new reply: Reply)
      reads this, store, world
    {
      && |old(world.clock)| < |world.clock|
      && if task.DeadlineExpired(Reading(0)) then
           Plays(task.taskId, Ending(TaskTimedOut, TimedOut), Done(reply))
         else if Waiting(task) then
           reply == Answer(task) && store.tasks == old(store.tasks) && store.events == old(store.events)
         else
           && old(task.taskId in iterations) && task.taskId in iterations
           && (reply.Answer? && limit > 0 ==> old(iterations[task.taskId]) < iterations[task.taskId])
    }

    /** Run a task that has not ended, unless it is late or paused by somebody. */
    method RunLive(task: AgentTask, limit: int) returns (reply: Reply)
      requires Valid() && Known(task.taskId) && SnapOf(task.taskId).task == task
      requires Resting(planner, SnapOf(task.taskId)) && !task.IsTerminal()
      modifies this, store, world
      ensures Valid() && AtRest(task.taskId) && OthersKept(task.taskId)
      ensures Proceeds(task.taskId, reply.Error?) && ClockWentOn() && Ran(task, limit, reply)
      ensures reply.Answer? ==> Over(task.taskId, reply) && reply.task.status !in {Created, Running}
      ensures Turned(task.taskId, limit, reply)
    {
      RestingIsLive(planner, SnapOf(task.taskId));
      var late := CheckDeadline(task);
      if late.Some? {
        return late.value.reply;
      }
      if task.status == PausedOperator {
        return Answer(task);
      }
      if task.status == PausedApproval && !Approvals.Present(task.memory.approvedPendingCall) {
        return Answer(task);
      }
      reply := Start(task, limit);
    }

    method Start(task: AgentTask, limit: int) returns (reply: Reply)
      requires Valid() && Known(task.taskId) && SnapOf(task.taskId).task == task
      requires Resting(planner, SnapOf(task.taskId)) && !task.IsTerminal()
      modifies this, store, world
      ensures Valid() && AtRest(task.taskId) && OthersKept(task.taskId)
      ensures Proceeds(task.taskId, reply.Error?) && ClockWentOn()
      ensures reply.Answer? ==> Over(task.taskId, reply) && reply.task.status !in {Created, Running}
      ensures Turned(task.taskId, limit, reply)
      ensures reply.Answer? && limit > 0 ==> old(iterations[task.taskId]) < iterations[task.taskId]
    {
      ghost var s := SnapOf(task.taskId);
      var started := Save(task, WithStatus(task, Running));
      if started.None? {
        return Error;
      }
      PickedUp(planner, s, WithStatus(task, Running), started.value);
      reply := Loop(task.taskId, limit);
    }

    /** The loop turned at most `limit` times, and exactly so often when it ran out of iterations. */
    twostate predicate Turned(taskId: string, limit: int, reply: Reply)
      reads this
    {
      && old(taskId in iterations) && taskId in iterations
      && old(iterations[taskId]) <= iterations[taskId] <= old(iterations[taskId]) + AtLeastZero(limit)
      && (reply.Answer? && reply.task.status == PausedBudget ==>
            iterations[taskId] == old(iterations[taskId]) + AtLeastZero(limit))
    }

    static function AtLeastZero(n: int): nat {
      if n < 0 then 0 else n
    }

    method Loop(taskId: string, limit: int) returns (reply: Reply)
      requires Valid() && Known(taskId) && InLoop(planner, SnapOf(taskId), 0)
      modifies this, store, world
      ensures Valid() && AtRest(taskId) && OthersKept(taskId)
      ensures reply.Answer? ==> Over(taskId, reply) && reply.task.status !in {Created, Running}
      ensures Turned(taskId, limit, reply)
      ensures Proceeds(taskId, reply.Error?) && ClockWentOn()
      ensures limit > 0 ==> old(iterations[taskId]) < iterations[taskId]
    {
      var i := 0;
      while i < limit
        invariant Valid() && Known(taskId) && InLoop(planner, SnapOf(taskId), 0) && OthersKept(taskId)
        invariant Proceeds(taskId, false) && ClockWentOn()
        invariant iterations[taskId] == old(iterations[taskId]) + i && (i <= limit || i == 0)
        decreases limit - i
      {
        var turn := Iterate(taskId);
        i := i + 1;
        if turn.Done? {
          return turn.reply;
        }
      }
      reply := PauseForBudget(taskId, limit);
    }

    method PauseForBudget(taskId: string, limit: int) returns (reply: Reply)
      requires Valid() && Known(taskId) && InLoop(planner, SnapOf(taskId), 0)
      modifies this`interrupted, store, world
      ensures Valid() && OthersKept(taskId) && Over(taskId, reply)
      ensures reply.Answer? ==> reply.task.status == PausedBudget
      ensures Proceeds(taskId, reply.Error?) && ClockWentOn()
    {
      var task := store.tasks[taskId];
      StatusCloses(planner, SnapOf(taskId), PausedBudget, BudgetPaused(limit));
      var turn := CloseAs(task, PausedBudget, BudgetPaused(limit));
      reply := turn.reply;
    }

    /** The request the task is bound to has been consumed by this very execution. */
    ghost predicate BoundConsumed(task: AgentTask)
      reads this, approvals
    {
      && task.binding.Some? && approvals != null
      && var b := task.binding.value;
      && b.requestId in approvals.requests
      && approvals.requests[b.requestId].status == Approvals.Consumed
      && approvals.requests[b.requestId].consumedByExecutionId == Some(b.executionId)
    }

    /** The bound request has been consumed, and the log goes on with its digest. */
    ghost predicate ApprovalTaken(taskId: string, task: AgentTask, before: seq<AuditPayload>)
      reads this, store, approvals
    {
      && BoundConsumed(task)
      && var b := task.binding.value;
      && var digest := approvals.env.requestDigest(approvals.requests[b.requestId]);
      && before + [ApprovalLogged(b.requestId, digest)] <= LogOf(taskId)
    }

    ghost function Centre(): Option<Ledger.ApprovalState>
      reads this, approvals
    {
      if approvals == null then None else Some(approvals.State())
    }

    /** The consumed request, when the centre lets the task consume the request it is bound to. */
    function Consumed(centre: Option<Ledger.ApprovalState>, task: AgentTask, now: int, occurredAt: int)
      : Option<Approvals.ApprovalRequest>
    {
      if task.binding.None? || approvals == null || centre.None? then None
      else
        var c := BindingConsumption(approvals.env, task.binding.value, now, occurredAt);
        var outcome := Ledger.Consume(approvals.env, approvals.evaluator, approvals.hash, centre.value, c).1;
        if outcome.Err? then None else Some(outcome.value)
    }

    /** What the centre answers when the bound request is consumed at the i-th and the next reading of the clock. */
    twostate function Consumption(task: AgentTask, i: nat): Option<Approvals.ApprovalRequest>
      reads this, world, approvals
    {
      Consumed(old(Centre()), task, Reading(i), Reading(i + 1))
    }

    /**
      A late task times out; without a consumption the call is an error and the task is left alone;
      otherwise the approval is taken before anything else happens to the task.
     */
    twostate predicate Resolved(task: AgentTask, new reply: Reply)
      reads this, store, world, approvals
    {
      && |old(world.clock)| < |world.clock|
      && if task.DeadlineExpired(Reading(0)) then
           Plays(task.taskId, Ending(TaskTimedOut, TimedOut), Done(reply)) && Proceeds(task.taskId, reply.Error?)
         else if Consumption(task, 1).None? then reply.Error? && Untouched()
         else ApprovalTaken(task.taskId, task, old(LogOf(task.taskId))) && Proceeds(task.taskId, reply.Error?)
    }

    /** Consume the bound approval, remember its digest in the task, and run. */
    method ApproveAndResume(taskId: string) returns (reply: Reply)
      requires Valid() && AtRest(taskId)
      modifies this, store, approvals, world
      ensures Valid() && AtRest(taskId) && OthersKept(taskId)
      ensures if old(Known(taskId)) && old(SnapOf(taskId)).task.status == PausedApproval then
                Resolved(old(SnapOf(taskId)).task, reply)
              else reply.Error? && Untouched()
    {
      var found := store.GetTask(taskId);
      if found.None? || found.value.status != PausedApproval {
        return Error;
      }
      reply := ResolveApproval(found.value);
    }

    method ResolveApproval(task: AgentTask) returns (reply: Reply)
      requires Valid() && Known(task.taskId) && SnapOf(task.taskId).task == task
      requires Resting(planner, SnapOf(task.taskId)) && task.status == PausedApproval
      modifies this, store, approvals, world
      ensures Valid() && AtRest(task.taskId) && OthersKept(task.taskId) && Resolved(task, reply)
    {
      RestingIsLive(planner, SnapOf(task.taskId));
      var late := CheckDeadline(task);
      if late.Some? {
        return late.value.reply;
      }
      reply := ConsumeApproval(task);
    }

    method ConsumeApproval(task: AgentTask) returns (reply: Reply)
      requires Valid() && Known(task.taskId) && SnapOf(task.taskId).task == task
      requires Resting(planner, SnapOf(task.taskId)) && task.status == PausedApproval
      modifies this, store, approvals, world
      ensures Valid() && AtRest(task.taskId) && OthersKept(task.taskId) && ClockWentOn()
      ensures if Consumption(task, 0).None? then reply.Error? && Untouched()
              else ApprovalTaken(task.taskId, task, old(LogOf(task.taskId))) && Proceeds(task.taskId, reply.Error?)
    {
      var reference := ConsumeBound(task);
      if reference.None? {
        return Error;
      }
      reply := RecordApproval(task, task.binding.value.requestId, reference.value);
      assert BoundConsumed(task);
    }

    /** Consume the request the task is bound to; the answer is the digest of the consumed request. */
    method ConsumeBound(task: AgentTask) returns (reference: Option<string>)
      requires Valid()
      modifies approvals, world`clock
      ensures Valid() && ClockWentOn()
      ensures reference.Some? <==> Consumption(task, 0).Some?
      ensures reference.Some? ==>
        && BoundConsumed(task) && |world.clock| == |old(world.clock)| + 2
        && reference.value == approvals.env.requestDigest(approvals.requests[task.binding.value.requestId])
    {
      if task.binding.None? || approvals == null {
        return None;
      }
      var binding := task.binding.value;
      var now := world.Now();
      var occurredAt := world.Now();
      var consumed := approvals.Consume(BindingConsumption(approvals.env, binding, now, occurredAt));
      reference := if consumed.Err? then None else Some(approvals.env.requestDigest(consumed.value));
    }

    method RecordApproval(task: AgentTask, requestId: string, reference: string) returns (reply: Reply)
      requires Valid() && Known(task.taskId) && SnapOf(task.taskId).task == task
      requires Resting(planner, SnapOf(task.taskId)) && task.status == PausedApproval
      requires task.binding.Some? && task.binding.value.requestId == requestId
      modifies this, store, world
      ensures Valid() && AtRest(task.taskId) && OthersKept(task.taskId)
      ensures Proceeds(task.taskId, reply.Error?) && ClockWentOn()
      ensures old(LogOf(task.taskId)) + [ApprovalLogged(requestId, reference)] <= LogOf(task.taskId)
    {
      ghost var s := SnapOf(task.taskId);
      var saved := NoteAndSave(task, ApprovalLogged(requestId, reference), ApprovalRecorded(task, reference));
      if saved.None? {
        return Error;
      }
      ApprovalRests(planner, s, requestId, reference, saved.value);
      reply := Run(task.taskId, None);
    }

    method Cancel(taskId: string) returns (reply: Reply)
      requires Valid() && AtRest(taskId)
      modifies this, store, world
      ensures Valid() && AtRest(taskId) && OthersKept(taskId)
      ensures Proceeds(taskId, false)
      ensures reply.Answer? ==> Known(taskId) && SnapOf(taskId).task == reply.task && reply.task.IsTerminal()
      ensures reply.Error? ==> Untouched() && (old(Known(taskId)) ==> Troubled())
      ensures reply.Answer? && old(Known(taskId)) && !old(SnapOf(taskId)).task.IsTerminal() ==>
        && reply.task.status == Cancelled
        && LogOf(taskId) == old(LogOf(taskId)) + [TaskCancelled]
      ensures old(Known(taskId)) && old(SnapOf(taskId)).task.IsTerminal() ==>
        reply == Answer(old(SnapOf(taskId)).task) && store.events == old(store.events)
    {
      var found := store.GetTask(taskId);
      if found.None? {
        return Error;
      }
      if found.value.IsTerminal() {
        return Answer(found.value);
      }
      reply := Stop(found.value, Cancelled, TaskCancelled);
    }

    method Stop(task: AgentTask, status: TaskStatus, payload: AuditPayload) returns (reply: Reply)
      requires Valid() && Known(task.taskId) && SnapOf(task.taskId).task == task
      requires Resting(planner, SnapOf(task.taskId)) && !task.IsTerminal()
      requires (status == Cancelled && payload == TaskCancelled) ||
          (status == PausedOperator && payload == OperatorPaused)
      requires Admissible(task, WithStatus(task, status))
      modifies this, store, world
      ensures Valid() && AtRest(task.taskId) && OthersKept(task.taskId)
      ensures Proceeds(task.taskId, false) && (reply.Error? ==> Untouched() && Troubled())
      ensures reply.Answer? ==>
        && Known(task.taskId) && SnapOf(task.taskId).task == reply.task && reply.task.status == status
        && LogOf(task.taskId) == old(LogOf(task.taskId)) + [payload]
    {
      RestingIsLive(planner, SnapOf(task.taskId));
      var turn := OperatorStops(task, status, payload);
      reply := turn.reply;
    }

    /**
      Pause a task that is neither terminal, nor paused by an operator, nor waiting for approval; a
      reason is required.
     */
    method OperatorPause(taskId: string, reason: string) returns (reply: Reply)
      requires Valid() && AtRest(taskId)
      modifies this, store, world
      ensures Valid() && AtRest(taskId) && OthersKept(taskId) && Proceeds(taskId, false)
      ensures reply.Error? ==>
        && Untouched()
        && (Strip(isSpace, reason) != "" && old(Known(taskId)) && old(SnapOf(taskId)).task.status != PausedApproval ==>
              Troubled())
      ensures reply.Answer? ==>
        && Known(taskId) && SnapOf(taskId).task == reply.task
        && Strip(isSpace, reason) != ""
        && old(Known(taskId))
        && var before := old(SnapOf(taskId)).task;
        && before.status != PausedApproval
        && if before.IsTerminal() || before.status == PausedOperator then reply.task == before && Untouched()
           else reply.task.status == PausedOperator
                && LogOf(taskId) == old(LogOf(taskId)) + [OperatorPaused]
    {
      if Strip(isSpace, reason) == "" {
        return Error;
      }
      var found := store.GetTask(taskId);
      if found.None? {
        return Error;
      }
      var task := found.value;
      if task.IsTerminal() || task.status == PausedOperator {
        return Answer(task);
      }
      if task.status == PausedApproval {
        return Error;
      }
      reply := Stop(task, PausedOperator, OperatorPaused);
    }

    /** The log goes on with the resumption, and the run that followed is over. */
    ghost predicate Resumed(taskId: string, before: seq<AuditPayload>, reply: Reply)
      reads this, store
    {
      && before + [OperatorResumed] <= LogOf(taskId)
      && Over(taskId, reply) && (reply.Answer? ==> reply.task.status !in {Created, Running})
    }

    /** A late task times out; otherwise the resumption is logged and the task runs. */
    twostate predicate WentOn(task: AgentTask, new reply: Reply)
      reads this, store, world
    {
      && |old(world.clock)| < |world.clock|
      && if task.DeadlineExpired(Reading(0)) then
           Plays(task.taskId, Ending(TaskTimedOut, TimedOut), Done(reply))
         else reply.Answer? ==> Resumed(task.taskId, old(LogOf(task.taskId)), reply)
    }

    method Resume(taskId: string) returns (reply: Reply)
      requires Valid() && AtRest(taskId)
      modifies this, store, world
      ensures Valid() && AtRest(taskId) && OthersKept(taskId)
      ensures if old(Known(taskId)) && old(SnapOf(taskId)).task.status == PausedOperator then
                WentOn(old(SnapOf(taskId)).task, reply) && Proceeds(taskId, reply.Error?)
              else reply.Error? && Untouched()
    {
      var found := store.GetTask(taskId);
      if found.None? || found.value.status != PausedOperator {
        return Error;
      }
      reply := ResumePaused(found.value);
    }

    method ResumePaused(task: AgentTask) returns (reply: Reply)
      requires Valid() && Known(task.taskId) && SnapOf(task.taskId).task == task
      requires Resting(planner, SnapOf(task.taskId)) && task.status == PausedOperator
      modifies this, store, world
      ensures Valid() && AtRest(task.taskId) && OthersKept(task.taskId)
      ensures Proceeds(task.taskId, reply.Error?) && WentOn(task, reply)
    {
      RestingIsLive(planner, SnapOf(task.taskId));
      var late := CheckDeadline(task);
      if late.Some? {
        return late.value.reply;
      }
      reply := RecordResume(task);
    }

    method RecordResume(task: AgentTask) returns (reply: Reply)
      requires Valid() && Known(task.taskId) && SnapOf(task.taskId).task == task
      requires Resting(planner, SnapOf(task.taskId)) && task.status == PausedOperator
      modifies this, store, world
      ensures Valid() && AtRest(task.taskId) && OthersKept(task.taskId)
      ensures Proceeds(task.taskId, reply.Error?) && ClockWentOn()
      ensures reply.Answer? ==> Resumed(task.taskId, old(LogOf(task.taskId)), reply)
    {
      ghost var s := SnapOf(task.taskId);
      var saved := NoteAndSave(task, OperatorResumed, WithStatus(task, Running));
      if saved.None? {
        return Error;
      }
      ResumeRests(planner, s, saved.value);
      reply := Run(task.taskId, None);
    }
  }
}
