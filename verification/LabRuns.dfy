/** Runs of a lab that show how far its promises reach, each with the exact condition beside it. */
module LabRuns {
  import opened Common
  import opened LabModels
  import opened LabInterleaving
  import opened LabFutures

  /** A plan that can be approved, and somebody who may approve it. */
  predicate Signed(digest: LabPlan -> string, plan: LabPlan, who: string) {
    TrialPolicy(plan) && plan.planDigest == Fingerprint(digest, plan) && who != plan.requestedBy
  }

  function With(api: Api, recorded: bool): Oracle {
    Oracle(api, 0, true, recorded, true, LabTrial(1, "", Confirmed, 0, 0))
  }

  lemma TwoSteps(digest: LabPlan -> string, s: System, a: Action, b: Action)
    ensures Continue(digest, s, [a, b]) == Apply(digest, Apply(digest, s, a), b)
  {
    ContinueFrom(digest, s, a, [b]);
    FoldOne(Stepper(digest), Apply(digest, s, a), b);
    assert [a] + [b] == [a, b];
  }

  /** What the row becomes when a human acts on it undisturbed. */
  function ActedOn(digest: LabPlan -> string, row: LabRecord, api: Api): LabRecord {
    match api
    case CallApprove(who) => if MayApprove(digest, row, who) then Stamped(WithApproval(row, who), 0) else row
    case CallQueue(who) => if MayQueue(row) then Stamped(WithQueuer(row, who), 0) else row
    case CallCancel(reason) => if row.IsTerminal() then row else Stamped(WithCancellation(row, reason, 0), 0)
    case CallWork => row
  }

  lemma HumanStepsAct(digest: LabPlan -> string, s: System, id: nat, api: Api)
    requires ActorAt(s, id).pc == Idle && !api.CallWork?
    ensures var a := Action(id, With(api, true));
            var s' := Apply(digest, Apply(digest, s, a), a);
      && s'.row == ActedOn(digest, s.row, api)
      && id in s'.actors && s'.actors[id].pc == Idle && s'.actors == s.actors[id := s'.actors[id]]
      && s'.claims == s.claims && s'.lost == s.lost
  {
  }

  /** Two steps of one human actor: read, then save. */
  lemma HumanActs(digest: LabPlan -> string, s: System, id: nat, api: Api)
    requires Inv(digest, s) && ActorAt(s, id).pc == Idle && !api.CallWork?
    ensures var a := Action(id, With(api, true));
            var s' := Continue(digest, s, [a, a]);
      && Inv(digest, s') && s'.row == ActedOn(digest, s.row, api)
      && s'.actors.Keys == s.actors.Keys + {id} && s'.actors[id].pc == Idle
      && s'.claims == s.claims && s'.lost == s.lost
      && (forall other :: other in s.actors && other != id ==> s'.actors[other] == s.actors[other])
  {
    var a := Action(id, With(api, true));
    TwoSteps(digest, s, a, a);
    HumanStepsAct(digest, s, id, api);
    StepKeepsInv(digest, s, a);
    StepKeepsInv(digest, Apply(digest, s, a), a);
  }

  /** A worker claims the queued lab. */
  lemma WorkerClaims(digest: LabPlan -> string, s: System, id: nat)
    requires Inv(digest, s) && ActorAt(s, id).pc == Idle && s.row.state == Queued
    ensures var s' := Apply(digest, s, Action(id, With(CallWork, true)));
      && Inv(digest, s') && s'.actors.Keys == s.actors.Keys + {id} && s'.row.plan == s.row.plan
      && s'.row.state == Provisioning && CanFinish(s', id) && s'.actors[id].pc == Checking
  {
    StepKeepsInv(digest, s, Action(id, With(CallWork, true)));
  }

  /** From creation to a claimed lab with a worker on it: approve, queue, claim. */
  lemma GetsClaimed(digest: LabPlan -> string, plan: LabPlan, now: int, who: string) returns (actions: seq<Action>)
    requires Signed(digest, plan, who)
    ensures var s := Run(digest, plan, now, actions);
      && Inv(digest, s) && s.actors.Keys == {0} && s.row.plan == plan && !s.row.cancellationRequested
      && CanFinish(s, 0) && s.actors[0].pc == Checking
  {
    RunKeepsInv(digest, plan, now, []);
    var s0 := Run(digest, plan, now, []);
    var approve, queue := Action(0, With(CallApprove(who), true)), Action(0, With(CallQueue(who), true));
    HumanActs(digest, s0, 0, CallApprove(who));
    var s2 := Continue(digest, s0, [approve, approve]);
    HumanActs(digest, s2, 0, CallQueue(who));
    var s4 := Continue(digest, s2, [queue, queue]);
    WorkerClaims(digest, s4, 0);
    FoldAppends(Stepper(digest), s0, [approve, approve], [queue, queue]);
    FoldAppends(Stepper(digest), s0, [approve, approve] + [queue, queue], [Action(0, With(CallWork, true))]);
    FoldOne(Stepper(digest), s4, Action(0, With(CallWork, true)));
    actions := [approve, approve] + [queue, queue] + [Action(0, With(CallWork, true))];
    RunIsContinue(digest, plan, now, actions);
  }

  /** A run that has come so far that the worker is `target` steps from the end. */
  lemma GetsTo(digest: LabPlan -> string, plan: LabPlan, now: int, who: string, target: nat)
    returns (actions: seq<Action>)
    requires Signed(digest, plan, who)
    requires var v := |plan.variations|; 1 <= target <= 7 || 5 * v + 10 < target <= 5 * v + 17
    ensures var s := Run(digest, plan, now, actions);
      && Inv(digest, s) && s.actors.Keys == {0} && s.row.plan == plan && !s.row.cancellationRequested
      && CanFinish(s, 0) && Distance(s.actors[0].pc, |plan.variations|) == target
  {
    var claimed := GetsClaimed(digest, plan, now, who);
    var rest := ComesDown(digest, Run(digest, plan, now, claimed), 0, target);
    RunContinues(digest, plan, now, claimed, rest);
    actions := claimed + rest;
  }

  lemma FreshIsExecuting(digest: LabPlan -> string, s: System, id: nat)
    requires Fresh(s, id) && ActorOk(digest, s, s.actors[id])
    ensures Executing(s.row.state) && s.claims == 1
  {
  }

  /** A stop marks an executing row and makes every older snapshot stale. */
  lemma StopMarks(digest: LabPlan -> string, row: LabRecord, snap: LabRecord)
    requires Executing(row.state) && Snapshot(snap, row)
    ensures var stopped := ActedOn(digest, row, CallCancel(""));
      && stopped.cancellationRequested && stopped.state == row.state && stopped.plan == row.plan
      && snap.revision < stopped.revision
  {
  }

  /** A worker `target` steps from the end, on a lab that somebody has just asked to stop. */
  ghost predicate JustStopped(digest: LabPlan -> string, s: System, plan: LabPlan, target: nat) {
    && Inv(digest, s) && s.actors.Keys == {0, 1} && s.actors[1].pc == Idle && s.row.plan == plan && s.claims == 1
    && s.row.cancellationRequested && Executing(s.row.state)
    && Working(s.actors[0].pc) && Distance(s.actors[0].pc, |plan.variations|) == target
    && s.actors[0].snap.revision < s.row.revision
  }

  lemma StopArrives(digest: LabPlan -> string, s: System)
    requires Inv(digest, s) && s.actors.Keys == {0} && Fresh(s, 0)
    ensures var cancel := Action(1, With(CallCancel(""), true));
      JustStopped(digest, Continue(digest, s, [cancel, cancel]), s.row.plan,
          Distance(s.actors[0].pc, |s.row.plan.variations|))
  {
    FreshIsExecuting(digest, s, 0);
    StopMarks(digest, s.row, s.actors[0].snap);
    HumanActs(digest, s, 1, CallCancel(""));
  }

  /** The same, and then somebody asks the run to stop. */
  lemma GetsToAndStops(digest: LabPlan -> string, plan: LabPlan, now: int, who: string, target: nat)
    returns (actions: seq<Action>)
    requires Signed(digest, plan, who)
    requires var v := |plan.variations|; 1 <= target <= 7 || 5 * v + 10 < target <= 5 * v + 16
    ensures JustStopped(digest, Run(digest, plan, now, actions), plan, target)
  {
    var before := GetsTo(digest, plan, now, who, target);
    var cancel := Action(1, With(CallCancel(""), true));
    StopArrives(digest, Run(digest, plan, now, before));
    RunContinues(digest, plan, now, before, [cancel, cancel]);
    actions := before + [cancel, cancel];
  }

  /**
    A stop that arrives after the last checkpoint is not seen: for every signed plan some run
    completes with the request standing.  `CompletesExactlyWhen` says when this can happen.
   */
  lemma LateStopsAreNotSeen(digest: LabPlan -> string, plan: LabPlan, now: int, who: string)
    returns (actions: seq<Action>)
    requires Signed(digest, plan, who)
    ensures var row := Run(digest, plan, now, actions).row; row.state == Completed && row.cancellationRequested
  {
    var stopped := GetsToAndStops(digest, plan, now, who, 7);
    var s := Run(digest, plan, now, stopped);
    assert ActorOk(digest, s, s.actors[0]);
    assert s.actors[0].pc == EvaluateRead;
    var rest := Completes(digest, s, 0);
    RunContinues(digest, plan, now, stopped, rest);
    InvContinues(digest, s, rest);
    actions := stopped + rest;
  }

  // ---------------------------------------------------------------- ended rows

  predicate Closes(a: Actor) {
    a.pc.FailRead? || a.pc.FailSave?
  }

  /** The run will still be closed as failed by somebody. */
  predicate Closing(s: System) {
    exists id :: id in s.actors && Closes(s.actors[id])
  }

  /** The row has ended and nobody is about to close it again. */
  ghost predicate Final(digest: LabPlan -> string, s: System, row: LabRecord) {
    Inv(digest, s) && s.row == row && row.IsTerminal() && forall id :: id in s.actors ==> !Closes(s.actors[id])
  }

  lemma OthersLeaveEnd(digest: LabPlan -> string, s: System, action: Action)
    requires s.row.IsTerminal() && ActorOk(digest, s, ActorAt(s, action.actor)) && !Closes(ActorAt(s, action.actor))
    ensures var s' := Apply(digest, s, action); s'.row == s.row && !Closes(s'.actors[action.actor])
    ensures forall id :: id in s.actors && id != action.actor ==>
      id in Apply(digest, s, action).actors && Apply(digest, s, action).actors[id] == s.actors[id]
    ensures Apply(digest, s, action).actors.Keys == s.actors.Keys + {action.actor}
  {
  }

  lemma FinalStays(digest: LabPlan -> string, s: System, action: Action, row: LabRecord)
    requires Final(digest, s, row)
    ensures Final(digest, Apply(digest, s, action), row)
  {
    StepKeepsInv(digest, s, action);
    OthersLeaveEnd(digest, s, action);
  }

  lemma FailSaveOverwrites(digest: LabPlan -> string, s: System, id: nat)
    requires id in s.actors && s.actors[id].pc.FailSave? && s.actors[id].snap == s.row
    ensures var row := Apply(digest, s, Action(id, With(CallWork, true))).row;
      row.state == Failed && row.revision == s.row.revision + 1
  {
  }

  lemma FailReadReads(digest: LabPlan -> string, s: System, id: nat)
    requires id in s.actors && s.actors[id].pc.FailRead?
    ensures var s' := Apply(digest, s, Action(id, With(CallWork, true)));
      s'.row == s.row && id in s'.actors && s'.actors[id].pc.FailSave? && s'.actors[id].snap == s.row
  {
  }

  /** Two more steps of a closing worker write the ended row once more. */
  lemma ClosingOverwrites(digest: LabPlan -> string, s: System, id: nat) returns (actions: seq<Action>)
    requires s.row.IsTerminal() && id in s.actors && Closes(s.actors[id]) && ActorOk(digest, s, s.actors[id])
    ensures var row := Continue(digest, s, actions).row; row.state == Failed && row.revision == s.row.revision + 1
  {
    var a := Action(id, With(CallWork, true));
    if s.actors[id].pc.FailRead? {
      FailReadReads(digest, s, id);
      FailSaveOverwrites(digest, Apply(digest, s, a), id);
      TwoSteps(digest, s, a, a);
      actions := [a, a];
    } else {
      FailSaveOverwrites(digest, s, id);
      FoldOne(Stepper(digest), s, a);
      actions := [a];
    }
  }

  /** An ended row is final exactly when no worker stands at closing the run as failed. */
  lemma EndedRowsAreFinalExactlyWhen(digest: LabPlan -> string, s: System)
    requires Inv(digest, s) && s.row.IsTerminal()
    ensures (forall actions :: Continue(digest, s, actions).row == s.row) <==> !Closing(s)
  {
    if Closing(s) {
      var id :| id in s.actors && Closes(s.actors[id]);
      assert ActorOk(digest, s, s.actors[id]);
      var actions := ClosingOverwrites(digest, s, id);
    } else {
      var row := s.row;
      var good := (x: System) => Final(digest, x, row);
      forall x, a | good(x)
        ensures good(Apply(digest, x, a))
      {
        FinalStays(digest, x, a, row);
      }
      forall actions
        ensures Continue(digest, s, actions).row == s.row
      {
        KeptForever(digest, good, s, actions);
      }
    }
  }

  /** The last save of a run goes through but its event is lost; two steps later the row is failed. */
  lemma LostEventOverwrites(digest: LabPlan -> string, s: System, id: nat)
    requires id in s.actors && s.actors[id].snap == s.row
    requires s.actors[id].pc.CompleteSave? || s.actors[id].pc.StopSave?
    ensures var ended := Apply(digest, s, Action(id, With(CallWork, false)));
      && ended.lost && ended.row.IsTerminal()
      && ended.row.state == (if s.actors[id].pc.CompleteSave? then Completed else Cancelled)
      && id in ended.actors && ended.actors[id].pc.FailRead?
  {
  }

  /** For every signed plan some run completes and is then overwritten as failed. */
  lemma CompletionCanBeOverwritten(digest: LabPlan -> string, plan: LabPlan, now: int, who: string)
    returns (completing: seq<Action>, overwriting: seq<Action>)
    requires Signed(digest, plan, who)
    ensures Run(digest, plan, now, completing).row.state == Completed
    ensures Run(digest, plan, now, completing + overwriting).row.state == Failed
  {
    var before := GetsTo(digest, plan, now, who, 1);
    var s, lost := Run(digest, plan, now, before), Action(0, With(CallWork, false));
    assert ActorOk(digest, s, s.actors[0]);
    assert s.actors[0].pc.CompleteSave?;
    completing, overwriting := EventGetsLost(digest, plan, now, before);
  }

  lemma EventGetsLost(digest: LabPlan -> string, plan: LabPlan, now: int, before: seq<Action>)
    returns (ending: seq<Action>, overwriting: seq<Action>)
    requires var s := Run(digest, plan, now, before);
      && Inv(digest, s) && 0 in s.actors && s.actors[0].snap == s.row
      && (s.actors[0].pc.CompleteSave? || s.actors[0].pc.StopSave?)
    ensures Run(digest, plan, now, ending).row.state
         == if Run(digest, plan, now, before).actors[0].pc.CompleteSave? then Completed else Cancelled
    ensures Run(digest, plan, now, ending + overwriting).row.state == Failed
  {
    var s, lost := Run(digest, plan, now, before), Action(0, With(CallWork, false));
    LostEventOverwrites(digest, s, 0);
    StepKeepsInv(digest, s, lost);
    RunContinues(digest, plan, now, before, [lost]);
    FoldOne(Stepper(digest), s, lost);
    ending := before + [lost];
    var ended := Run(digest, plan, now, ending);
    assert ActorOk(digest, ended, ended.actors[0]);
    overwriting := ClosingOverwrites(digest, Run(digest, plan, now, ending), 0);
    RunContinues(digest, plan, now, ending, overwriting);
  }

  /** The same befalls a run that stopped as it was asked to. */
  lemma StopCanBeOverwritten(digest: LabPlan -> string, plan: LabPlan, now: int, who: string)
    returns (stopping: seq<Action>, overwriting: seq<Action>)
    requires Signed(digest, plan, who)
    ensures Run(digest, plan, now, stopping).row.state == Cancelled
    ensures Run(digest, plan, now, stopping + overwriting).row.state == Failed
  {
    var before := GetsToAndStops(digest, plan, now, who, 5 * |plan.variations| + 14);
    var s, check := Run(digest, plan, now, before), Action(0, With(CallWork, true));
    assert ActorOk(digest, s, s.actors[0]);
    assert s.actors[0].pc.TrialRead?;
    RunContinues(digest, plan, now, before, [check]);
    FoldOne(Stepper(digest), s, check);
    StepKeepsInv(digest, s, check);
    stopping, overwriting := EventGetsLost(digest, plan, now, before + [check]);
  }

  // ---------------------------------------------------------------- abandoned labs

  /** A worker had claimed the lab and none works on it any more. */
  ghost predicate Abandoned(digest: LabPlan -> string, s: System) {
    && Inv(digest, s) && Executing(s.row.state)
    && forall id :: id in s.actors ==> !Working(s.actors[id].pc)
  }

  lemma HumansLeaveExecuting(digest: LabPlan -> string, s: System, action: Action)
    requires Executing(s.row.state) && !Working(ActorAt(s, action.actor).pc) &&
        ActorOk(digest, s, ActorAt(s, action.actor))
    ensures var s' := Apply(digest, s, action);
      && s'.row.state == s.row.state && s'.actors == s.actors[action.actor := s'.actors[action.actor]]
      && !Working(s'.actors[action.actor].pc)
  {
  }

  lemma AbandonmentStays(digest: LabPlan -> string, s: System, action: Action)
    requires Abandoned(digest, s)
    ensures Abandoned(digest, Apply(digest, s, action)) && Apply(digest, s, action).row.state == s.row.state
  {
    StepKeepsInv(digest, s, action);
    HumansLeaveExecuting(digest, s, action);
  }

  /** An abandoned lab is never ended by anybody. */
  lemma AbandonedLabsNeverEnd(digest: LabPlan -> string, s: System, actions: seq<Action>)
    requires Abandoned(digest, s)
    ensures Continue(digest, s, actions).row.state == s.row.state
  {
    var state := s.row.state;
    var good := (x: System) => Abandoned(digest, x) && x.row.state == state;
    forall x, a | good(x)
      ensures good(Apply(digest, x, a))
    {
      AbandonmentStays(digest, x, a);
    }
    KeptForever(digest, good, s, actions);
  }

  /** A request to stop can itself abandon a lab: it makes the worker's save fail, and nobody catches that. */
  lemma StopsCanAbandon(digest: LabPlan -> string, plan: LabPlan, now: int, who: string) returns (actions: seq<Action>)
    requires Signed(digest, plan, who)
    ensures var s := Run(digest, plan, now, actions); Abandoned(digest, s) && s.row.cancellationRequested
  {
    var before := GetsToAndStops(digest, plan, now, who, 6);
    var s, save := Run(digest, plan, now, before), Action(0, With(CallWork, true));
    assert ActorOk(digest, s, s.actors[0]);
    assert s.actors[0].pc.EvaluateSave?;
    RunContinues(digest, plan, now, before, [save]);
    FoldOne(Stepper(digest), s, save);
    StepKeepsInv(digest, s, save);
    actions := before + [save];
  }

  // ---------------------------------------------------------------- runners that echo

  /** If a call of the runner is answered in this step, the answer fits the plan. */
  predicate EchoesAt(s: System, action: Action) {
    var pc := ActorAt(s, action.actor).pc;
    pc.InRunner? ==> Echoes(s.row.plan, pc.n, action.oracle.trial)
  }

  predicate RunnerEchoes(digest: LabPlan -> string, plan: LabPlan, now: int, actions: seq<Action>) {
    actions == [] ||
    (var before := actions[..|actions| - 1];
     && RunnerEchoes(digest, plan, now, before)
     && EchoesAt(Run(digest, plan, now, before), actions[|actions| - 1]))
  }

  predicate AnswerEchoes(s: System, a: Actor) {
    a.pc.ResultRead? || a.pc.ResultSave? ==> Echoes(s.row.plan, a.pc.n, a.pc.trial)
  }

  ghost predicate Echoed(s: System) {
    Numbered(s.row.plan, s.row.progress.trials) && forall id :: id in s.actors ==> AnswerEchoes(s, s.actors[id])
  }

  /** Only storing a trial changes the trials. */
  lemma TrialsStay(digest: LabPlan -> string, s: System, action: Action)
    requires !ActorAt(s, action.actor).pc.ResultSave? && Snapshot(ActorAt(s, action.actor).snap, s.row)
    ensures Apply(digest, s, action).row.progress == s.row.progress
  {
  }

  lemma TrialsStayNumbered(digest: LabPlan -> string, s: System, action: Action)
    requires Inv(digest, s) && Numbered(s.row.plan, s.row.progress.trials) && AnswerEchoes(s, ActorAt(s, action.actor))
    ensures var row := Apply(digest, s, action).row; row.plan == s.row.plan && Numbered(row.plan, row.progress.trials)
  {
    var a := ActorAt(s, action.actor);
    assert ActorOk(digest, s, a);
    Moves(digest, s, action);
    if a.pc.ResultSave? && s.row.revision == a.snap.revision {
      TrialKeepsSound(digest, s.row, a.pc.n, a.pc.trial);
    } else if !a.pc.ResultSave? {
      TrialsStay(digest, s, action);
    }
  }

  lemma AnswerStaysEchoed(digest: LabPlan -> string, s: System, action: Action)
    requires AnswerEchoes(s, ActorAt(s, action.actor)) && EchoesAt(s, action)
    requires Apply(digest, s, action).row.plan == s.row.plan
    ensures AnswerEchoes(Apply(digest, s, action), Apply(digest, s, action).actors[action.actor])
  {
  }

  lemma StepKeepsEcho(digest: LabPlan -> string, s: System, action: Action)
    requires Inv(digest, s) && Echoed(s) && EchoesAt(s, action)
    ensures Echoed(Apply(digest, s, action))
  {
    assert AnswerEchoes(s, ActorAt(s, action.actor));
    TrialsStayNumbered(digest, s, action);
    AnswerStaysEchoed(digest, s, action);
    var s' := Apply(digest, s, action);
    forall id | id in s'.actors
      ensures AnswerEchoes(s', s'.actors[id])
    {
      if id != action.actor {
        assert s'.actors[id] == s.actors[id];
      }
    }
  }

  /** When the runner echoes number and variation, as the synthetic one does, stored trials are numbered from one. */
  lemma {:induction false} EchoingRunnersNumberTrials(
      digest: LabPlan -> string, plan: LabPlan, now: int, actions: seq<Action>)
    requires TrialPolicy(plan) && RunnerEchoes(digest, plan, now, actions)
    ensures Echoed(Run(digest, plan, now, actions))
  {
    if actions != [] {
      var before := actions[..|actions| - 1];
      EchoingRunnersNumberTrials(digest, plan, now, before);
      RunKeepsInv(digest, plan, now, before);
      StepKeepsEcho(digest, Run(digest, plan, now, before), actions[|actions| - 1]);
    }
  }
}
