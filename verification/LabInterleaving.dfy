/**
  Any number of approvers, queuers, cancellers and workers on one lab, interleaved step by
  step.  One step is one read, one guarded write, one claim or one call of the runner.

  Which queued lab a worker claims depends on the other labs; here a worker may claim this one
  whenever it is queued.  Runner, clock and event recording may do anything.
 */
module LabInterleaving {
  import opened Common
  import opened LabModels

  datatype Api = CallApprove(who: string) | CallQueue(who: string) | CallCancel(reason: string) | CallWork

  datatype Pc =
    | Idle | ApproveSave(who: string) | QueueSave(who: string) | CancelSave(reason: string)
    | Checking | StartRead | StartSave
    | TrialRead(n: nat) | TrialSave(n: nat, at: int) | InRunner(n: nat, at: int) 
    | ResultRead(n: nat, trial: LabTrial) | ResultSave(n: nat, trial: LabTrial)
    | EvaluateRead | EvaluateSave | CleanRead(result: LabResult) | CleanSave(result: LabResult)
    | Cleanup(result: LabResult) | CompleteRead(result: LabResult) | CompleteSave(result: LabResult)
    | StopSave(cleaned: bool) | FailRead | FailSave(cleaned: bool)

  datatype Actor = Actor(pc: Pc, snap: LabRecord)

  /**
    `ok` answers whatever may fail, `recorded` whether the event after a save was recorded; `trial`
    is the runner's answer.
   */
  datatype Oracle = Oracle(api: Api, now: int, ok: bool, recorded: bool, verified: bool, trial: LabTrial)

  datatype Effect = Quiet | Wrote(row: LabRecord) | Took(row: LabRecord) | Ran(n: nat, at: int)

  /** A call of the runner, with the row as it was stored at that moment and the clock at the checkpoint before it. */
  datatype TrialCall = TrialCall(n: nat, row: LabRecord, at: int)

  /** `lost` is set when the event after a completing or stopping save could not be recorded. */
  datatype System = System(row: LabRecord, actors: map<nat, Actor>, claims: nat, calls: seq<TrialCall>, lost: bool)

  datatype Action = Action(actor: nat, oracle: Oracle)

  predicate Working(pc: Pc) {
    !pc.Idle? && !pc.ApproveSave? && !pc.QueueSave? && !pc.CancelSave?
  }

  function Begin(digest: LabPlan -> string, row: LabRecord, o: Oracle): (Actor, Effect) {
    match o.api
    case CallApprove(who) => (Actor(if MayApprove(digest, row, who) then ApproveSave(who) else Idle, row), Quiet)
    case CallQueue(who) => (Actor(if MayQueue(row) then QueueSave(who) else Idle, row), Quiet)
    case CallCancel(reason) => (Actor(if row.IsTerminal() then Idle else CancelSave(reason), row), Quiet)
    case CallWork =>
      var claimed := Stamped(Claimed(row, o.now), o.now);
      if row.state == Queued then (Actor(Checking, claimed), Took(claimed)) else (Actor(Idle, row), Quiet)
  }

  /** A guarded write: refused when the row has moved on, and then the call is over. */
  function Guarded(row: LabRecord, a: Actor, changed: LabRecord, next: Pc, now: int): (Actor, Effect) {
    var saved := Stamped(changed, now);
    if row.revision == a.snap.revision then (Actor(next, saved), Wrote(saved)) else (a.(pc := Idle), Quiet)
  }

  /** The worker goes on, or closes the run when the event could not be recorded. */
  function Then(o: Oracle, next: Pc): Pc {
    if o.recorded then next else FailRead
  }

  predicate DeadlinePassed(row: LabRecord, now: int) {
    row.startedAt.Some? && now >= row.startedAt.value + row.plan.totalTimeout
  }

  function AtCheckpoint(row: LabRecord, n: nat, o: Oracle): Pc {
    if row.cancellationRequested then (if o.ok then StopSave(o.verified) else FailRead)
    else if DeadlinePassed(row, o.now) then FailRead
    else TrialSave(n, o.now)
  }

  function AfterRunner(plan: LabPlan, n: nat, o: Oracle): Pc {
    if o.ok && o.trial.completedAt - o.trial.startedAt <= plan.perTrialTimeout then ResultRead(n, o.trial) else FailRead
  }

  function AfterResult(saved: LabRecord, n: nat): Pc {
    if n >= saved.plan.minimumTrials && saved.progress.confirmed >= saved.plan.requiredConfirmations then EvaluateRead
    else if n < |saved.plan.variations| then TrialRead(n + 1)
    else EvaluateRead
  }

  function StepActor(digest: LabPlan -> string, row: LabRecord, a: Actor, o: Oracle): (Actor, Effect) {
    match a.pc
    case Idle => Begin(digest, row, o)
    case ApproveSave(who) => Guarded(row, a, WithApproval(a.snap, who), Idle, o.now)
    case QueueSave(who) => Guarded(row, a, WithQueuer(a.snap, who), Idle, o.now)
    case CancelSave(reason) => Guarded(row, a, WithCancellation(a.snap, reason, o.now), Idle, o.now)
    case Checking => (a.(pc := if Bound(digest, a.snap) && o.ok then StartRead else FailRead), Quiet)
    case StartRead => (Actor(StartSave, row), Quiet)
    case StartSave => Guarded(row, a, WithState(a.snap, Running), Then(o, TrialRead(1)), o.now)
    case TrialRead(n) => (Actor(AtCheckpoint(row, n, o), row), Quiet)
    case TrialSave(n, at) => Guarded(row, a, WithTrialBegun(a.snap, n), Then(o, InRunner(n, at)), o.now)
    case InRunner(n, at) => (a.(pc := AfterRunner(a.snap.plan, n, o)), Ran(n, at))
    case ResultRead(n, t) => (Actor(ResultSave(n, t), row), Quiet)
    case ResultSave(n, t) =>
      Guarded(row, a, WithTrial(a.snap, t), Then(o, AfterResult(WithTrial(a.snap, t), n)), o.now)
    case EvaluateRead => (Actor(EvaluateSave, row), Quiet)
    case EvaluateSave =>
      Guarded(row, a, WithState(a.snap, Evaluating), Then(o, CleanRead(ResultOf(a.snap.plan, a.snap.progress))), o.now)
    case CleanRead(result) => (Actor(CleanSave(result), row), Quiet)
    case CleanSave(result) => Guarded(row, a, WithState(a.snap, Cleaning), Cleanup(result), o.now)
    case Cleanup(result) => (a.(pc := if o.ok then CompleteRead(result) else FailRead), Quiet)
    case CompleteRead(result) => (Actor(CompleteSave(result), row), Quiet)
    case CompleteSave(result) => Guarded(row, a, WithResult(a.snap, result, o.now), Then(o, Idle), o.now)
    case StopSave(cleaned) => Guarded(row, a, StoppedEarly(a.snap, cleaned, o.now), Then(o, Idle), o.now)
    case FailRead => (Actor(FailSave(o.verified), row), Quiet)
    case FailSave(cleaned) => Guarded(row, a, ClosedByFailure(a.snap, cleaned, o.now), Idle, o.now)
  }

  function ActorAt(s: System, id: nat): Actor {
    if id in s.actors then s.actors[id] else Actor(Idle, s.row)
  }

  function RowAfter(row: LabRecord, e: Effect): LabRecord {
    if e.Wrote? || e.Took? then e.row else row
  }

  function Apply(digest: LabPlan -> string, s: System, action: Action): System {
    var a := ActorAt(s, action.actor);
    var (a', e) := StepActor(digest, s.row, a, action.oracle);
    System(
      RowAfter(s.row, e),
      s.actors[action.actor := a'],
      s.claims + (if e.Took? then 1 else 0),
      if e.Ran? then s.calls + [TrialCall(e.n, s.row, e.at)] else s.calls,
      s.lost || (e.Wrote? && (a.pc.CompleteSave? || a.pc.StopSave?) && !action.oracle.recorded))
  }

  function Run(digest: LabPlan -> string, plan: LabPlan, now: int, actions: seq<Action>): System {
    if actions == [] then System(NewRecord(plan, now), map[], 0, [], false)
    else Apply(digest, Run(digest, plan, now, actions[..|actions| - 1]), actions[|actions| - 1])
  }

  // ---------------------------------------------------------------- invariant

  /** Calls of the runner made after a request to stop was stored. */
  function LateCalls(calls: seq<TrialCall>): nat {
    if calls == [] then 0
    else LateCalls(calls[..|calls| - 1]) + if calls[|calls| - 1].row.cancellationRequested then 1 else 0
  }

  /** Where the worker stands fixes where the row and the runner stand. */
  predicate WorkerFits(s: System, a: Actor) {
    match a.pc
    case Checking =>
      && s.row.state == Provisioning && s.calls == []
      && a.snap.approvedBy == s.row.approvedBy && a.snap.approvedPlanDigest == s.row.approvedPlanDigest
    case StartRead => s.row.state == Provisioning && s.calls == []
    case StartSave => s.row.state == Provisioning && s.calls == []
    case TrialRead(n) => n >= 1 && BeforeTrial(s.row, n) && |s.calls| == n - 1
    case TrialSave(n, at) =>
      && n >= 1 && BeforeTrial(s.row, n) && |s.calls| == n - 1
      && !a.snap.cancellationRequested && !DeadlinePassed(s.row, at)
    case InRunner(n, at) =>
      n >= 1 && InTrial(s.row, n) && |s.calls| == n - 1 && LateCalls(s.calls) == 0 && !DeadlinePassed(s.row, at)
    case ResultRead(n, _) => n >= 1 && InTrial(s.row, n) && |s.calls| == n
    case ResultSave(n, _) => n >= 1 && InTrial(s.row, n) && |s.calls| == n
    case EvaluateRead => AfterTrials(s.row)
    case EvaluateSave => AfterTrials(s.row)
    case CleanRead(result) => s.row.state == Evaluating && result == ResultOf(s.row.plan, s.row.progress)
    case CleanSave(result) => s.row.state == Evaluating && result == ResultOf(s.row.plan, s.row.progress)
    case Cleanup(result) => s.row.state == Cleaning && result == ResultOf(s.row.plan, s.row.progress)
    case CompleteRead(result) => s.row.state == Cleaning && result == ResultOf(s.row.plan, s.row.progress)
    case CompleteSave(result) => s.row.state == Cleaning && result == ResultOf(s.row.plan, s.row.progress)
    case StopSave(_) => s.row.state == Running && s.row.cancellationRequested
    case FailRead => s.row.IsTerminal() ==> s.lost
    case FailSave(_) => s.row.IsTerminal() ==> s.lost && a.snap == s.row
    case _ => true
  }

  predicate HumanFits(digest: LabPlan -> string, a: Actor) {
    match a.pc
    case ApproveSave(who) => MayApprove(digest, a.snap, who)
    case QueueSave(_) => MayQueue(a.snap)
    case CancelSave(_) => !a.snap.IsTerminal()
    case _ => true
  }

  predicate Snapshot(snap: LabRecord, row: LabRecord) {
    snap.plan == row.plan && snap.revision <= row.revision && (snap.revision == row.revision ==> snap == row)
  }

  predicate ActorOk(digest: LabPlan -> string, s: System, a: Actor) {
    && Snapshot(a.snap, s.row) && HumanFits(digest, a) && WorkerFits(s, a)
    && (Working(a.pc) ==> s.claims == 1)
  }

  ghost predicate RowOk(digest: LabPlan -> string, s: System) {
    && Sound(digest, s.row)
    && s.claims <= 1
    && (Unclaimed(s.row.state) ==> s.claims == 0)
    && (s.claims == 0 ==> s.calls == [] && !s.lost && (Unclaimed(s.row.state) || s.row.state == Cancelled))
  }

  predicate CallIsGoverned(digest: LabPlan -> string, c: TrialCall) {
    Bound(digest, c.row) && InTrial(c.row, c.n) && c.row.startedAt.Some? && !DeadlinePassed(c.row, c.at)
  }

  ghost predicate CallsOk(digest: LabPlan -> string, s: System) {
    && (forall i :: 0 <= i < |s.calls| ==> s.calls[i].n == i + 1 && CallIsGoverned(digest, s.calls[i]))
    && LateCalls(s.calls) <= 1
    && (!s.row.cancellationRequested ==> LateCalls(s.calls) == 0)
  }

  ghost predicate Inv(digest: LabPlan -> string, s: System) {
    && RowOk(digest, s) && CallsOk(digest, s)
    && (forall id :: id in s.actors ==> ActorOk(digest, s, s.actors[id]))
    && (forall a, b :: a in s.actors && b in s.actors && a != b ==>
          !Working(s.actors[a].pc) || !Working(s.actors[b].pc))
  }

  lemma CallsGrow(calls: seq<TrialCall>, call: TrialCall)
    ensures LateCalls(calls + [call]) == LateCalls(calls) + if call.row.cancellationRequested then 1 else 0
  {
    assert (calls + [call])[..|calls|] == calls;
  }

  /** A row that replaces another is sound again, and a run that was claimed or ended is not reopened. */
  ghost predicate RowMoves(digest: LabPlan -> string, s: System, s': System) {
    && Sound(digest, s'.row) && s'.row.plan == s.row.plan
    && (s'.row == s.row || s'.row.revision == s.row.revision + 1)
    && (s.row.cancellationRequested ==> s'.row.cancellationRequested)
    && (!Unclaimed(s.row.state) ==> !Unclaimed(s'.row.state))
    && (s.row.IsTerminal() && !s.lost ==> s'.row == s.row)
  }

  lemma HumanMoves(digest: LabPlan -> string, s: System, action: Action)
    requires RowOk(digest, s) && ActorOk(digest, s, ActorAt(s, action.actor)) && !Working(ActorAt(s, action.actor).pc)
    ensures RowMoves(digest, s, Apply(digest, s, action))
  {
    var a := ActorAt(s, action.actor);
    var now := action.oracle.now;
    match a.pc
    case ApproveSave(who) =>
      HumanSavesKeepSound(digest, s.row, who);
    case QueueSave(who) =>
      HumanSavesKeepSound(digest, s.row, who);
    case CancelSave(reason) =>
      if s.row == a.snap {
        CancellationKeepsSound(digest, a.snap, reason, now);
      }
    case Idle =>
      ClaimKeepsSound(digest, s.row, now);
  }

  /** An accepted save moves the row to the changed copy. */
  lemma SaveMoves(digest: LabPlan -> string, s: System, s': System, changed: LabRecord, now: int)
    requires RowOk(digest, s) && !Unclaimed(s.row.state) && (s.row.IsTerminal() ==> s.lost)
    requires s'.row == s.row || s'.row == Stamped(changed, now)
    requires Sound(digest, changed) && changed.plan == s.row.plan && changed.revision == s.row.revision
    requires !Unclaimed(changed.state) && changed.cancellationRequested == s.row.cancellationRequested
    ensures RowMoves(digest, s, s')
  {
    StampKeepsSound(digest, changed, now);
  }

  lemma TrialMoves(digest: LabPlan -> string, s: System, action: Action)
    requires RowOk(digest, s) && ActorOk(digest, s, ActorAt(s, action.actor))
    requires var pc := ActorAt(s, action.actor).pc; pc.StartSave? || pc.TrialSave? || pc.ResultSave?
    ensures RowMoves(digest, s, Apply(digest, s, action))
  {
    var pc := ActorAt(s, action.actor).pc;
    var now := action.oracle.now;
    var s' := Apply(digest, s, action);
    match pc
    case StartSave =>
      ClaimKeepsSound(digest, s.row, now);
      SaveMoves(digest, s, s', WithState(s.row, Running), now);
    case TrialSave(n, _) =>
      TrialBegunKeepsSound(digest, s.row, n);
      SaveMoves(digest, s, s', WithTrialBegun(s.row, n), now);
    case ResultSave(n, t) =>
      TrialKeepsSound(digest, s.row, n, t);
      SaveMoves(digest, s, s', WithTrial(s.row, t), now);
  }

  lemma ClosingMoves(digest: LabPlan -> string, s: System, action: Action)
    requires RowOk(digest, s) && ActorOk(digest, s, ActorAt(s, action.actor))
    requires var pc := ActorAt(s, action.actor).pc;
      pc.EvaluateSave? || pc.CleanSave?
    ensures RowMoves(digest, s, Apply(digest, s, action))
  {
    var pc := ActorAt(s, action.actor).pc;
    var now := action.oracle.now;
    var s' := Apply(digest, s, action);
    ClosingKeepsSound(digest, s.row, now, false);
    match pc
    case EvaluateSave => SaveMoves(digest, s, s', WithState(s.row, Evaluating), now);
    case CleanSave(_) => SaveMoves(digest, s, s', WithState(s.row, Cleaning), now);
  }

  lemma CompletingMoves(digest: LabPlan -> string, s: System, action: Action)
    requires RowOk(digest, s) && ActorOk(digest, s, ActorAt(s, action.actor))
    requires ActorAt(s, action.actor).pc.CompleteSave?
    ensures RowMoves(digest, s, Apply(digest, s, action))
  {
    var now := action.oracle.now;
    ClosingKeepsSound(digest, s.row, now, false);
    var changed := WithResult(s.row, ActorAt(s, action.actor).pc.result, now);
    SaveMoves(digest, s, Apply(digest, s, action), changed, now);
  }

  lemma EndingMoves(digest: LabPlan -> string, s: System, action: Action)
    requires RowOk(digest, s) && ActorOk(digest, s, ActorAt(s, action.actor))
    requires var pc := ActorAt(s, action.actor).pc; pc.StopSave? || pc.FailSave?
    ensures RowMoves(digest, s, Apply(digest, s, action))
  {
    var pc := ActorAt(s, action.actor).pc;
    var now := action.oracle.now;
    var s' := Apply(digest, s, action);
    ClosingKeepsSound(digest, s.row, now, pc.cleaned);
    match pc
    case StopSave(cleaned) => SaveMoves(digest, s, s', StoppedEarly(s.row, cleaned, now), now);
    case FailSave(cleaned) => SaveMoves(digest, s, s', ClosedByFailure(s.row, cleaned, now), now);
  }

  lemma WorkerMoves(digest: LabPlan -> string, s: System, action: Action)
    requires RowOk(digest, s) && ActorOk(digest, s, ActorAt(s, action.actor)) && Working(ActorAt(s, action.actor).pc)
    ensures RowMoves(digest, s, Apply(digest, s, action))
  {
    var pc := ActorAt(s, action.actor).pc;
    if pc.StartSave? || pc.TrialSave? || pc.ResultSave? {
      TrialMoves(digest, s, action);
    } else if pc.EvaluateSave? || pc.CleanSave? {
      ClosingMoves(digest, s, action);
    } else if pc.CompleteSave? {
      CompletingMoves(digest, s, action);
    } else if pc.StopSave? || pc.FailSave? {
      EndingMoves(digest, s, action);
    }
  }

  lemma Moves(digest: LabPlan -> string, s: System, action: Action)
    requires RowOk(digest, s) && ActorOk(digest, s, ActorAt(s, action.actor))
    ensures RowMoves(digest, s, Apply(digest, s, action))
  {
    if Working(ActorAt(s, action.actor).pc) {
      WorkerMoves(digest, s, action);
    } else {
      HumanMoves(digest, s, action);
    }
  }

  lemma RowStaysOk(digest: LabPlan -> string, s: System, action: Action)
    requires RowOk(digest, s) && ActorOk(digest, s, ActorAt(s, action.actor))
    ensures RowOk(digest, Apply(digest, s, action))
  {
    Moves(digest, s, action);
  }

  lemma NewCallIsOk(digest: LabPlan -> string, calls: seq<TrialCall>, call: TrialCall)
    requires forall i :: 0 <= i < |calls| ==> calls[i].n == i + 1 && CallIsGoverned(digest, calls[i])
    requires LateCalls(calls) == 0 && call.n == |calls| + 1 && CallIsGoverned(digest, call)
    ensures var after := calls + [call];
      && (forall i :: 0 <= i < |after| ==> after[i].n == i + 1 && CallIsGoverned(digest, after[i]))
      && LateCalls(after) <= 1 && (!call.row.cancellationRequested ==> LateCalls(after) == 0)
  {
    CallsGrow(calls, call);
  }

  /** Only a step at the runner adds a call, and it leaves the row alone. */
  lemma CallsComeFromTheRunner(digest: LabPlan -> string, s: System, action: Action)
    ensures var pc, s' := ActorAt(s, action.actor).pc, Apply(digest, s, action);
      if pc.InRunner? then s'.row == s.row && s'.calls == s.calls + [TrialCall(pc.n, s.row, pc.at)]
      else s'.calls == s.calls
  {
  }

  lemma SameCallsAreOk(digest: LabPlan -> string, s: System, s': System)
    requires CallsOk(digest, s) && s'.calls == s.calls
    requires s.row.cancellationRequested ==> s'.row.cancellationRequested
    ensures CallsOk(digest, s')
  {
  }

  lemma CallsStayOk(digest: LabPlan -> string, s: System, action: Action)
    requires RowOk(digest, s) && CallsOk(digest, s) && ActorOk(digest, s, ActorAt(s, action.actor))
    ensures CallsOk(digest, Apply(digest, s, action))
  {
    var pc := ActorAt(s, action.actor).pc;
    CallsComeFromTheRunner(digest, s, action);
    if pc.InRunner? {
      NewCallIsOk(digest, s.calls, TrialCall(pc.n, s.row, pc.at));
    } else {
      Moves(digest, s, action);
      SameCallsAreOk(digest, s, Apply(digest, s, action));
    }
  }

  lemma HumanStaysOk(digest: LabPlan -> string, s: System, action: Action)
    requires RowOk(digest, s) && ActorOk(digest, s, ActorAt(s, action.actor)) && !Working(ActorAt(s, action.actor).pc)
    ensures ActorOk(digest, Apply(digest, s, action), Apply(digest, s, action).actors[action.actor])
  {
  }

  lemma StarterStaysOk(digest: LabPlan -> string, s: System, action: Action)
    requires RowOk(digest, s) && ActorOk(digest, s, ActorAt(s, action.actor))
    requires ActorAt(s, action.actor).pc.StartSave?
    ensures ActorOk(digest, Apply(digest, s, action), Apply(digest, s, action).actors[action.actor])
  {
    ClaimKeepsSound(digest, s.row, 0);
  }

  lemma AnnouncerStaysOk(digest: LabPlan -> string, s: System, action: Action)
    requires RowOk(digest, s) && CallsOk(digest, s) && ActorOk(digest, s, ActorAt(s, action.actor))
    requires ActorAt(s, action.actor).pc.TrialSave?
    ensures ActorOk(digest, Apply(digest, s, action), Apply(digest, s, action).actors[action.actor])
  {
    TrialBegunKeepsSound(digest, s.row, ActorAt(s, action.actor).pc.n);
  }

  lemma StorerStaysOk(digest: LabPlan -> string, s: System, action: Action)
    requires RowOk(digest, s) && ActorOk(digest, s, ActorAt(s, action.actor))
    requires ActorAt(s, action.actor).pc.ResultSave?
    ensures ActorOk(digest, Apply(digest, s, action), Apply(digest, s, action).actors[action.actor])
  {
    var n, t := ActorAt(s, action.actor).pc.n, ActorAt(s, action.actor).pc.trial;
    TrialKeepsSound(digest, s.row, n, t);
    assert AfterResult(WithTrial(s.row, t), n)
        == if Enough(s.row.plan, WithTrial(s.row, t).progress.trials) || n == |s.row.plan.variations| then EvaluateRead
           else TrialRead(n + 1);
  }

  lemma CallerStaysOk(digest: LabPlan -> string, s: System, action: Action)
    requires ActorOk(digest, s, ActorAt(s, action.actor))
    requires ActorAt(s, action.actor).pc.InRunner?
    ensures ActorOk(digest, Apply(digest, s, action), Apply(digest, s, action).actors[action.actor])
  {
  }

  lemma CloserStaysOk(digest: LabPlan -> string, s: System, action: Action)
    requires ActorOk(digest, s, ActorAt(s, action.actor))
    requires var pc := ActorAt(s, action.actor).pc;
      pc.EvaluateSave? || pc.CleanSave? || pc.CompleteSave?
    ensures ActorOk(digest, Apply(digest, s, action), Apply(digest, s, action).actors[action.actor])
  {
  }

  lemma EnderStaysOk(digest: LabPlan -> string, s: System, action: Action)
    requires ActorOk(digest, s, ActorAt(s, action.actor))
    requires var pc := ActorAt(s, action.actor).pc;
      pc.StopSave? || pc.FailSave?
    ensures ActorOk(digest, Apply(digest, s, action), Apply(digest, s, action).actors[action.actor])
  {
  }

  lemma ReaderStaysOk(digest: LabPlan -> string, s: System, action: Action)
    requires ActorOk(digest, s, ActorAt(s, action.actor))
    requires var pc := ActorAt(s, action.actor).pc;
      pc.Checking? || pc.StartRead? || pc.TrialRead? || pc.ResultRead? || pc.FailRead?
    ensures ActorOk(digest, Apply(digest, s, action), Apply(digest, s, action).actors[action.actor])
  {
  }

  lemma CleanerStaysOk(digest: LabPlan -> string, s: System, action: Action)
    requires ActorOk(digest, s, ActorAt(s, action.actor))
    requires var pc := ActorAt(s, action.actor).pc;
      pc.EvaluateRead? || pc.CleanRead? || pc.Cleanup? || pc.CompleteRead?
    ensures ActorOk(digest, Apply(digest, s, action), Apply(digest, s, action).actors[action.actor])
  {
  }

  lemma WorkerStaysOk(digest: LabPlan -> string, s: System, action: Action)
    requires RowOk(digest, s) && CallsOk(digest, s) && ActorOk(digest, s, ActorAt(s, action.actor))
    requires Working(ActorAt(s, action.actor).pc)
    ensures ActorOk(digest, Apply(digest, s, action), Apply(digest, s, action).actors[action.actor])
  {
    var pc := ActorAt(s, action.actor).pc;
    if pc.StartSave? {
      StarterStaysOk(digest, s, action);
    } else if pc.TrialSave? {
      AnnouncerStaysOk(digest, s, action);
    } else if pc.ResultSave? {
      StorerStaysOk(digest, s, action);
    } else if pc.InRunner? {
      CallerStaysOk(digest, s, action);
    } else if pc.EvaluateSave? || pc.CleanSave? || pc.CompleteSave? {
      CloserStaysOk(digest, s, action);
    } else if pc.StopSave? || pc.FailSave? {
      EnderStaysOk(digest, s, action);
    } else if pc.EvaluateRead? || pc.CleanRead? || pc.Cleanup? || pc.CompleteRead? {
      CleanerStaysOk(digest, s, action);
    } else {
      ReaderStaysOk(digest, s, action);
    }
  }

  /** A worker's stand survives whatever the others do to the row. */
  lemma OthersStayOk(digest: LabPlan -> string, s: System, action: Action, other: Actor)
    requires RowOk(digest, s) && ActorOk(digest, s, ActorAt(s, action.actor)) && ActorOk(digest, s, other)
    requires !Working(ActorAt(s, action.actor).pc) || !Working(other.pc)
    ensures var s' := Apply(digest, s, action);
      ActorOk(digest, s', other) && (!Working(s'.actors[action.actor].pc) || !Working(other.pc))
  {
    Moves(digest, s, action);
  }

  lemma Assemble(digest: LabPlan -> string, s: System, s': System, id: nat, a': Actor)
    requires Inv(digest, s) && RowOk(digest, s') && CallsOk(digest, s')
    requires s'.actors == s.actors[id := a'] && ActorOk(digest, s', a')
    requires forall other :: other in s.actors && other != id ==>
      ActorOk(digest, s', s.actors[other]) && (!Working(a'.pc) || !Working(s.actors[other].pc))
    ensures Inv(digest, s')
  {
  }

  /** One step of anybody keeps the invariant. */
  lemma StepKeepsInv(digest: LabPlan -> string, s: System, action: Action)
    requires Inv(digest, s)
    ensures Inv(digest, Apply(digest, s, action))
  {
    var s' := Apply(digest, s, action);
    var id := action.actor;
    RowStaysOk(digest, s, action);
    CallsStayOk(digest, s, action);
    if Working(ActorAt(s, id).pc) {
      WorkerStaysOk(digest, s, action);
    } else {
      HumanStaysOk(digest, s, action);
    }
    forall other | other in s.actors && other != id
      ensures ActorOk(digest, s', s.actors[other]) && (!Working(s'.actors[id].pc) || !Working(s.actors[other].pc))
    {
      OthersStayOk(digest, s, action, s.actors[other]);
    }
    Assemble(digest, s, s', id, s'.actors[id]);
  }

  lemma {:induction false} RunKeepsInv(digest: LabPlan -> string, plan: LabPlan, now: int, actions: seq<Action>)
    requires TrialPolicy(plan)
    ensures Inv(digest, Run(digest, plan, now, actions))
  {
    if actions != [] {
      var before := actions[..|actions| - 1];
      RunKeepsInv(digest, plan, now, before);
      StepKeepsInv(digest, Run(digest, plan, now, before), actions[|actions| - 1]);
    } else {
      NewRecordIsSound(digest, plan, now);
    }
  }

  /** The row and every call of the runner carry the plan the lab was created with. */
  lemma {:induction false} OnePlan(digest: LabPlan -> string, plan: LabPlan, now: int, actions: seq<Action>)
    requires TrialPolicy(plan)
    ensures var s := Run(digest, plan, now, actions);
      s.row.plan == plan && forall i :: 0 <= i < |s.calls| ==> s.calls[i].row.plan == plan
  {
    if actions != [] {
      var before, last := actions[..|actions| - 1], actions[|actions| - 1];
      OnePlan(digest, plan, now, before);
      RunKeepsInv(digest, plan, now, before);
      Moves(digest, Run(digest, plan, now, before), last);
    }
  }

  /**
    In any interleaving a lab is claimed at most once, and each trial starts at most once, in
    order, after a reading of the clock before the deadline, while the stored row shows that
    somebody other than the requester approved exactly this plan and that this trial has been
    announced.
   */
  lemma TrialsAreGoverned(digest: LabPlan -> string, plan: LabPlan, now: int, actions: seq<Action>, i: nat)
    requires TrialPolicy(plan)
    ensures var s := Run(digest, plan, now, actions);
      && s.claims <= 1
      && (i < |s.calls| ==>
            && s.calls[i].n == i + 1 == s.calls[i].row.currentTrial
            && Bound(digest, s.calls[i].row) && s.calls[i].row.state == Running
            && s.calls[i].row.startedAt.Some?
            && s.calls[i].at < s.calls[i].row.startedAt.value + plan.totalTimeout)
  {
    RunKeepsInv(digest, plan, now, actions);
    OnePlan(digest, plan, now, actions);
    var s := Run(digest, plan, now, actions);
    if i < |s.calls| {
      assert CallIsGoverned(digest, s.calls[i]);
    }
  }

  /** A request to stop lets at most the one trial run that had been announced before it. */
  lemma StopsLetOneTrialRun(digest: LabPlan -> string, plan: LabPlan, now: int, actions: seq<Action>)
    requires TrialPolicy(plan)
    ensures LateCalls(Run(digest, plan, now, actions).calls) <= 1
  {
    RunKeepsInv(digest, plan, now, actions);
  }

  /** Whatever state is reached, the stored row is sound; in particular every completed lab stopped right. */
  lemma StoredRowsAreSound(digest: LabPlan -> string, plan: LabPlan, now: int, actions: seq<Action>)
    requires TrialPolicy(plan)
    ensures Sound(digest, Run(digest, plan, now, actions).row)
  {
    RunKeepsInv(digest, plan, now, actions);
  }

  lemma UnclaimedEndStays(digest: LabPlan -> string, s: System, action: Action)
    requires Inv(digest, s) && s.row.state == Cancelled && s.claims == 0
    ensures var s' := Apply(digest, s, action); s'.row == s.row && s'.claims == 0 && s'.calls == []
  {
    Moves(digest, s, action);
  }

  /** A lab cancelled before it was claimed stays cancelled, is never claimed, and no trial ever runs. */
  lemma {:induction false} CancelledBeforeClaimNeverRuns(
      digest: LabPlan -> string, plan: LabPlan, now: int, actions: seq<Action>, n: nat)
    requires TrialPolicy(plan) && n <= |actions|
    ensures var earlier := Run(digest, plan, now, actions[..n]);
            var s := Run(digest, plan, now, actions);
      earlier.row.state == Cancelled && earlier.claims == 0 ==> s.row == earlier.row && s.claims == 0 && s.calls == []
  {
    RunKeepsInv(digest, plan, now, actions[..n]);
    if n < |actions| {
      var before := actions[..|actions| - 1];
      CancelledBeforeClaimNeverRuns(digest, plan, now, before, n);
      assert before[..n] == actions[..n];
      RunKeepsInv(digest, plan, now, before);
      var earlier := Run(digest, plan, now, actions[..n]);
      if earlier.row.state == Cancelled && earlier.claims == 0 {
        UnclaimedEndStays(digest, Run(digest, plan, now, before), actions[|actions| - 1]);
      }
    } else {
      assert actions[..n] == actions;
    }
  }

  /** As long as no closing event is lost, an ended lab keeps its row. */
  lemma {:induction false} EndedLabsStayEnded(
      digest: LabPlan -> string, plan: LabPlan, now: int, actions: seq<Action>, n: nat)
    requires TrialPolicy(plan) && n <= |actions|
    ensures var earlier := Run(digest, plan, now, actions[..n]);
            var s := Run(digest, plan, now, actions);
      earlier.row.IsTerminal() && !s.lost ==> s.row == earlier.row
  {
    if n < |actions| {
      var before := actions[..|actions| - 1];
      EndedLabsStayEnded(digest, plan, now, before, n);
      assert before[..n] == actions[..n];
      RunKeepsInv(digest, plan, now, before);
      Moves(digest, Run(digest, plan, now, before), actions[|actions| - 1]);
    } else {
      assert actions[..n] == actions;
    }
  }

  /** A worker turns to closing the run by failure exactly when one of these befalls it. */
  lemma WorkersGiveUpExactlyWhen(digest: LabPlan -> string, row: LabRecord, a: Actor, o: Oracle)
    requires !a.pc.FailRead?
    ensures StepActor(digest, row, a, o).0.pc.FailRead? <==>
      match a.pc
      case Checking => !Bound(digest, a.snap) || !o.ok
      case TrialRead(_) => if row.cancellationRequested then !o.ok else DeadlinePassed(row, o.now)
      case InRunner(_, _) => !o.ok || o.trial.completedAt - o.trial.startedAt > a.snap.plan.perTrialTimeout
      case Cleanup(_) => !o.ok
      case StartSave => row.revision == a.snap.revision && !o.recorded
      case TrialSave(_, _) => row.revision == a.snap.revision && !o.recorded
      case ResultSave(_, _) => row.revision == a.snap.revision && !o.recorded
      case EvaluateSave => row.revision == a.snap.revision && !o.recorded
      case CompleteSave(_) => row.revision == a.snap.revision && !o.recorded
      case StopSave(_) => row.revision == a.snap.revision && !o.recorded
      case _ => false
  {
  }
}
