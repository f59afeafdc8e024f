/**
  What can still become of a lab: which runs can complete, which can only stop, which were
  abandoned, and which ended rows are final.
 */
module LabFutures {
  import opened Common
  import opened LabModels
  import opened LabInterleaving

  function Fold<S, A>(step: (S, A) -> S, s: S, actions: seq<A>): S
    decreases |actions|
  {
    if actions == [] then s else Fold(step, step(s, actions[0]), actions[1..])
  }

  lemma {:induction false} FoldAppends<S, A>(step: (S, A) -> S, s: S, a: seq<A>, b: seq<A>)
    ensures Fold(step, s, a + b) == Fold(step, Fold(step, s, a), b)
    decreases |a|
  {
    if a == [] {
      assert a + b == b;
    } else {
      assert (a + b)[0] == a[0] && (a + b)[1..] == a[1..] + b;
      FoldAppends(step, step(s, a[0]), a[1..], b);
    }
  }

  /** What every action keeps, every continuation keeps. */
  lemma {:induction false} FoldKeeps<S(!new), A(!new)>(step: (S, A) -> S, good: S -> bool, s: S, actions: seq<A>)
    requires good(s) && forall x, a :: good(x) ==> good(step(x, a))
    ensures good(Fold(step, s, actions))
    decreases |actions|
  {
    if actions != [] {
      FoldKeeps(step, good, step(s, actions[0]), actions[1..]);
    }
  }

  function Stepper(digest: LabPlan -> string): (System, Action) -> System {
    (s, a) => Apply(digest, s, a)
  }

  /** The system after some more actions. */
  function Continue(digest: LabPlan -> string, s: System, actions: seq<Action>): System {
    Fold(Stepper(digest), s, actions)
  }

  lemma {:induction false} RunIsContinue(digest: LabPlan -> string, plan: LabPlan, now: int, actions: seq<Action>)
    ensures Run(digest, plan, now, actions) == Continue(digest, Run(digest, plan, now, []), actions)
  {
    if actions != [] {
      var before, last := actions[..|actions| - 1], actions[|actions| - 1];
      RunIsContinue(digest, plan, now, before);
      FoldAppends(Stepper(digest), Run(digest, plan, now, []), before, [last]);
      assert before + [last] == actions;
      FoldOne(Stepper(digest), Run(digest, plan, now, before), last);
    }
  }

  lemma FoldOne<S, A>(step: (S, A) -> S, s: S, a: A)
    ensures Fold(step, s, [a]) == step(s, a)
  {
    assert Fold(step, step(s, a), []) == step(s, a);
  }

  lemma RunContinues(digest: LabPlan -> string, plan: LabPlan, now: int, before: seq<Action>, actions: seq<Action>)
    ensures Run(digest, plan, now, before + actions) == Continue(digest, Run(digest, plan, now, before), actions)
  {
    RunIsContinue(digest, plan, now, before);
    RunIsContinue(digest, plan, now, before + actions);
    FoldAppends(Stepper(digest), Run(digest, plan, now, []), before, actions);
  }

  lemma KeptForever(digest: LabPlan -> string, good: System -> bool, s: System, actions: seq<Action>)
    requires good(s) && forall x, a :: good(x) ==> good(Apply(digest, x, a))
    ensures good(Continue(digest, s, actions))
  {
    FoldKeeps(Stepper(digest), good, s, actions);
  }

  lemma InvContinues(digest: LabPlan -> string, s: System, actions: seq<Action>)
    requires Inv(digest, s)
    ensures Inv(digest, Continue(digest, s, actions))
    ensures s.row.cancellationRequested ==> Continue(digest, s, actions).row.cancellationRequested
  {
    var stop := s.row.cancellationRequested;
    var good := (x: System) => Inv(digest, x) && (stop ==> x.row.cancellationRequested);
    forall x, a | good(x)
      ensures good(Apply(digest, x, a))
    {
      StepKeepsInv(digest, x, a);
      Moves(digest, x, a);
    }
    KeptForever(digest, good, s, actions);
  }

  // ---------------------------------------------------------------- stops that must take effect

  /** The announced trial is the plan's last, or a confirmation by it would be enough. */
  predicate LastChance(r: LabRecord) {
    || r.currentTrial == |r.plan.variations|
    || (r.currentTrial >= r.plan.minimumTrials && r.progress.confirmed + 1 >= r.plan.requiredConfirmations)
  }

  /** Read off the row: the requested stop will be seen, because another checkpoint must still be passed. */
  predicate MustStop(r: LabRecord) {
    r.cancellationRequested &&
    (r.state in {Provisioning, Cancelled, Failed} ||
     (r.state == Running && !StoppedRight(r.plan, r.progress)
      && (r.currentTrial == |r.progress.trials| || !LastChance(r))))
  }

  lemma HumanLeavesStop(digest: LabPlan -> string, s: System, action: Action)
    requires Inv(digest, s) && MustStop(s.row) && !Working(ActorAt(s, action.actor).pc)
    ensures MustStop(Apply(digest, s, action).row)
  {
    Moves(digest, s, action);
  }

  lemma StoredTrialLeavesStop(digest: LabPlan -> string, s: System, action: Action)
    requires Inv(digest, s) && MustStop(s.row) && ActorAt(s, action.actor).pc.ResultSave?
    ensures MustStop(Apply(digest, s, action).row)
  {
    var a := ActorAt(s, action.actor);
    assert ActorOk(digest, s, a);
    if s.row == a.snap {
      TrialKeepsSound(digest, s.row, a.pc.n, a.pc.trial);
      TallyGrows(s.row.progress.trials, a.pc.trial, Confirmed);
    }
  }

  lemma WorkerLeavesStop(digest: LabPlan -> string, s: System, action: Action)
    requires RowOk(digest, s) && ActorOk(digest, s, ActorAt(s, action.actor)) && MustStop(s.row)
    requires Working(ActorAt(s, action.actor).pc) && !ActorAt(s, action.actor).pc.ResultSave?
    ensures MustStop(Apply(digest, s, action).row)
  {
  }

  lemma StopStays(digest: LabPlan -> string, s: System, action: Action)
    requires Inv(digest, s) && MustStop(s.row)
    ensures MustStop(Apply(digest, s, action).row)
  {
    assert ActorOk(digest, s, ActorAt(s, action.actor));
    if ActorAt(s, action.actor).pc.ResultSave? {
      StoredTrialLeavesStop(digest, s, action);
    } else if Working(ActorAt(s, action.actor).pc) {
      WorkerLeavesStop(digest, s, action);
    } else {
      HumanLeavesStop(digest, s, action);
    }
  }

  // ---------------------------------------------------------------- workers that can still finish

  predicate IsSave(pc: Pc) {
    pc.StartSave? || pc.TrialSave? || pc.ResultSave? || pc.EvaluateSave? || pc.CleanSave? || pc.CompleteSave?
  }

  /** Storing this answer for trial `n` ends the trials. */
  predicate EndsTrials(r: LabRecord, n: nat, t: LabTrial) {
    || n == |r.plan.variations|
    || (n >= r.plan.minimumTrials
        && r.progress.confirmed + (if t.outcome == Confirmed then 1 else 0) >= r.plan.requiredConfirmations)
  }

  /**
    The actor is a worker that is neither closing the run, nor about to have its save refused,
    nor holding an answer of the runner after which a requested stop will be seen.
   */
  predicate Fresh(s: System, id: nat) {
    && id in s.actors
    && var a := s.actors[id];
    && Working(a.pc) && !a.pc.FailRead? && !a.pc.FailSave? && !a.pc.StopSave?
    && (IsSave(a.pc) ==> a.snap == s.row)
    && (a.pc.ResultRead? || a.pc.ResultSave? ==> !s.row.cancellationRequested || EndsTrials(s.row, a.pc.n, a.pc.trial))
  }

  /** Nobody will complete this lab any more. */
  ghost predicate Doomed(digest: LabPlan -> string, s: System) {
    && Inv(digest, s) && s.claims == 1 && s.row.state != Completed
    && (MustStop(s.row) || forall id :: !Fresh(s, id))
  }

  lemma ClaimsStay(digest: LabPlan -> string, s: System, action: Action)
    requires s.claims == 1 && (Unclaimed(s.row.state) ==> s.claims == 0)
    ensures Apply(digest, s, action).claims == 1
  {
  }

  lemma HumanFreshensNone(digest: LabPlan -> string, s: System, action: Action, id: nat)
    requires RowOk(digest, s) && ActorOk(digest, s, ActorAt(s, action.actor)) && ActorOk(digest, s, ActorAt(s, id))
    requires s.claims == 1 && s.row.state != Completed && !Fresh(s, id)
    requires !Working(ActorAt(s, action.actor).pc)
    ensures var s' := Apply(digest, s, action); s'.row.state != Completed && !Fresh(s', id)
  {
  }

  lemma StaleWorkerFreshensNone(digest: LabPlan -> string, s: System, action: Action, id: nat)
    requires RowOk(digest, s) && ActorOk(digest, s, ActorAt(s, action.actor)) && ActorOk(digest, s, ActorAt(s, id))
    requires s.row.state != Completed && !Fresh(s, id)
    requires var pc := ActorAt(s, action.actor).pc; Working(pc) && !pc.ResultSave? && !Fresh(s, action.actor)
    ensures var s' := Apply(digest, s, action); s'.row.state != Completed && !Fresh(s', id)
  {
  }

  lemma StoringFreshensNone(digest: LabPlan -> string, s: System, action: Action, id: nat)
    requires Inv(digest, s) && s.row.state != Completed && !Fresh(s, id)
    requires ActorAt(s, action.actor).pc.ResultSave? && !Fresh(s, action.actor)
    ensures var s' := Apply(digest, s, action); s'.row.state != Completed && (MustStop(s'.row) || !Fresh(s', id))
  {
    var a := ActorAt(s, action.actor);
    assert ActorOk(digest, s, a);
    if id in s.actors {
      assert ActorOk(digest, s, s.actors[id]);
    }
    if s.row == a.snap {
      TrialKeepsSound(digest, s.row, a.pc.n, a.pc.trial);
      TallyGrows(s.row.progress.trials, a.pc.trial, Confirmed);
    }
  }

  lemma NoneFreshens(digest: LabPlan -> string, s: System, action: Action, id: nat)
    requires Inv(digest, s) && s.claims == 1 && s.row.state != Completed && forall other :: !Fresh(s, other)
    ensures var s' := Apply(digest, s, action); s'.row.state != Completed && (MustStop(s'.row) || !Fresh(s', id))
  {
    assert !Fresh(s, id) && !Fresh(s, action.actor);
    assert ActorOk(digest, s, ActorAt(s, action.actor)) && ActorOk(digest, s, ActorAt(s, id));
    if ActorAt(s, action.actor).pc.ResultSave? {
      StoringFreshensNone(digest, s, action, id);
    } else if Working(ActorAt(s, action.actor).pc) {
      StaleWorkerFreshensNone(digest, s, action, id);
    } else {
      HumanFreshensNone(digest, s, action, id);
    }
  }

  lemma DoomStays(digest: LabPlan -> string, s: System, action: Action)
    requires Doomed(digest, s)
    ensures Doomed(digest, Apply(digest, s, action))
  {
    StepKeepsInv(digest, s, action);
    ClaimsStay(digest, s, action);
    if MustStop(s.row) {
      StopStays(digest, s, action);
    } else {
      var s' := Apply(digest, s, action);
      NoneFreshens(digest, s, action, action.actor);
      forall id: nat
        ensures MustStop(s'.row) || !Fresh(s', id)
      {
        NoneFreshens(digest, s, action, id);
      }
    }
  }

  // ---------------------------------------------------------------- carrying a run through

  /** How many steps a fresh worker needs at most. */
  function Distance(pc: Pc, trials: nat): nat {
    match pc
    case Checking => 5 * trials + 17
    case StartRead => 5 * trials + 16
    case StartSave => 5 * trials + 15
    case TrialRead(n) => Rest(trials, n) + 4
    case TrialSave(n, _) => Rest(trials, n) + 3
    case InRunner(n, _) => Rest(trials, n) + 2
    case ResultRead(n, _) => Rest(trials, n) + 1
    case ResultSave(n, _) => Rest(trials, n)
    case EvaluateRead => 7
    case EvaluateSave => 6
    case CleanRead(_) => 5
    case CleanSave(_) => 4
    case Cleanup(_) => 3
    case CompleteRead(_) => 2
    case CompleteSave(_) => 1
    case _ => 0
  }

  function Rest(trials: nat, n: nat): nat {
    if n <= trials then 5 * (trials - n) + 15 else 10
  }

  /** Nothing fails, it is early, and the runner confirms. */
  function Good(row: LabRecord): Oracle {
    var now := if row.startedAt.Some? then row.startedAt.value - 1 else 0;
    Oracle(CallWork, now, true, true, true, LabTrial(1, "", Confirmed, 0, 0))
  }

  function GoodStep(s: System, id: nat): Action {
    Action(id, Good(s.row))
  }

  /** One worker can carry the run through, and comes nearer with every step. */
  predicate CanFinish(s: System, id: nat) {
    Fresh(s, id) && !MustStop(s.row)
  }

  predicate Nearer(s: System, s': System, id: nat) {
    && CanFinish(s', id) && s'.row.cancellationRequested == s.row.cancellationRequested
    && s'.row.plan == s.row.plan && s'.actors.Keys == s.actors.Keys
    && var v := |s.row.plan.variations|;
    && var before, after := Distance(s.actors[id].pc, v), Distance(s'.actors[id].pc, v);
    && after < before && (after + 1 == before || (before <= 5 * v + 10 && after == 7))
  }

  lemma StartComesNearer(digest: LabPlan -> string, s: System, id: nat)
    requires CanFinish(s, id) && RowOk(digest, s) && ActorOk(digest, s, s.actors[id])
    requires var pc := s.actors[id].pc; pc.Checking? || pc.StartRead? || pc.StartSave?
    ensures Nearer(s, Apply(digest, s, GoodStep(s, id)), id)
  {
  }

  lemma TrialComesNearer(digest: LabPlan -> string, s: System, id: nat)
    requires CanFinish(s, id) && RowOk(digest, s) && ActorOk(digest, s, s.actors[id])
    requires var pc := s.actors[id].pc; pc.TrialRead? || pc.TrialSave? || pc.InRunner? || pc.ResultRead?
    ensures Nearer(s, Apply(digest, s, GoodStep(s, id)), id)
  {
  }

  lemma StoringGoesOn(digest: LabPlan -> string, r: LabRecord, n: nat, t: LabTrial)
    requires Sound(digest, r) && n >= 1 && InTrial(r, n) && (r.cancellationRequested ==> EndsTrials(r, n, t))
    ensures AfterResult(WithTrial(r, t), n) == if EndsTrials(r, n, t) then EvaluateRead else TrialRead(n + 1)
    ensures n < |r.plan.variations| || EndsTrials(r, n, t)
    ensures !MustStop(WithTrial(r, t))
  {
    TrialKeepsSound(digest, r, n, t);
    TallyGrows(r.progress.trials, t, Confirmed);
  }

  lemma StoringComesNearer(digest: LabPlan -> string, s: System, id: nat)
    requires CanFinish(s, id) && RowOk(digest, s) && ActorOk(digest, s, s.actors[id]) && s.actors[id].pc.ResultSave?
    ensures Nearer(s, Apply(digest, s, GoodStep(s, id)), id)
  {
    StoringGoesOn(digest, s.row, s.actors[id].pc.n, s.actors[id].pc.trial);
  }

  lemma ClosingComesNearer(digest: LabPlan -> string, s: System, id: nat)
    requires CanFinish(s, id) && ActorOk(digest, s, s.actors[id])
    requires var pc := s.actors[id].pc;
      pc.EvaluateRead? || pc.EvaluateSave? || pc.CleanRead? || pc.CleanSave? || pc.Cleanup? || pc.CompleteRead?
    ensures Nearer(s, Apply(digest, s, GoodStep(s, id)), id)
  {
  }

  lemma CompletingCompletes(digest: LabPlan -> string, s: System, id: nat)
    requires Fresh(s, id) && ActorOk(digest, s, s.actors[id]) && s.actors[id].pc.CompleteSave?
    ensures Apply(digest, s, GoodStep(s, id)).row.state == Completed
  {
  }

  lemma StepComesNearer(digest: LabPlan -> string, s: System, id: nat)
    requires Inv(digest, s) && CanFinish(s, id) && !s.actors[id].pc.CompleteSave?
    ensures Nearer(s, Apply(digest, s, GoodStep(s, id)), id)
  {
    assert ActorOk(digest, s, s.actors[id]);
    var pc := s.actors[id].pc;
    if pc.Checking? || pc.StartRead? || pc.StartSave? {
      StartComesNearer(digest, s, id);
    } else if pc.TrialRead? || pc.TrialSave? || pc.InRunner? || pc.ResultRead? {
      TrialComesNearer(digest, s, id);
    } else if pc.ResultSave? {
      StoringComesNearer(digest, s, id);
    } else {
      ClosingComesNearer(digest, s, id);
    }
  }

  /** The step before the rest of the way. */
  lemma ContinueFrom(digest: LabPlan -> string, s: System, a: Action, rest: seq<Action>)
    ensures Continue(digest, s, [a] + rest) == Continue(digest, Apply(digest, s, a), rest)
  {
    assert ([a] + rest)[1..] == rest;
  }

  /** A fresh worker can be carried down to any step near the end, or near the beginning. */
  lemma {:induction false} ComesDown(digest: LabPlan -> string, s: System, id: nat, target: nat)
    returns (actions: seq<Action>)
    requires Inv(digest, s) && CanFinish(s, id)
    requires var v := |s.row.plan.variations|;
      target <= Distance(s.actors[id].pc, v) && (1 <= target <= 7 || target > 5 * v + 10)
    ensures var s' := Continue(digest, s, actions);
      && Inv(digest, s') && CanFinish(s', id) && s'.row.plan == s.row.plan && s'.actors.Keys == s.actors.Keys
      && s'.row.cancellationRequested == s.row.cancellationRequested
      && Distance(s'.actors[id].pc, |s.row.plan.variations|) == target
    decreases Distance(s.actors[id].pc, |s.row.plan.variations|)
  {
    if Distance(s.actors[id].pc, |s.row.plan.variations|) == target {
      actions := [];
    } else {
      StepComesNearer(digest, s, id);
      StepKeepsInv(digest, s, GoodStep(s, id));
      var rest := ComesDown(digest, Apply(digest, s, GoodStep(s, id)), id, target);
      ContinueFrom(digest, s, GoodStep(s, id), rest);
      actions := [GoodStep(s, id)] + rest;
    }
  }

  lemma Completes(digest: LabPlan -> string, s: System, id: nat) returns (actions: seq<Action>)
    requires Inv(digest, s) && CanFinish(s, id)
    ensures Continue(digest, s, actions).row.state == Completed
  {
    assert ActorOk(digest, s, s.actors[id]);
    var down := ComesDown(digest, s, id, 1);
    var last := Continue(digest, s, down);
    assert ActorOk(digest, last, last.actors[id]);
    CompletingCompletes(digest, last, id);
    FoldAppends(Stepper(digest), s, down, [GoodStep(last, id)]);
    FoldOne(Stepper(digest), last, GoodStep(last, id));
    actions := down + [GoodStep(last, id)];
  }

  lemma DoomedNeverCompletes(digest: LabPlan -> string, s: System, actions: seq<Action>)
    requires Doomed(digest, s)
    ensures Continue(digest, s, actions).row.state != Completed
  {
    var good := (x: System) => Doomed(digest, x);
    forall x, a | good(x)
      ensures good(Apply(digest, x, a))
    {
      DoomStays(digest, x, a);
    }
    KeptForever(digest, good, s, actions);
  }

  /**
    When a claimed lab can still complete: exactly when some worker is fresh and no requested
    stop must still be seen.
   */
  lemma CompletesExactlyWhen(digest: LabPlan -> string, s: System)
    requires Inv(digest, s) && s.claims == 1 && s.row.state != Completed
    ensures (exists actions :: Continue(digest, s, actions).row.state == Completed)
        <==> !MustStop(s.row) && exists id :: Fresh(s, id)
  {
    if !MustStop(s.row) && exists id :: Fresh(s, id) {
      var id :| Fresh(s, id);
      var actions := Completes(digest, s, id);
    } else {
      forall actions
        ensures Continue(digest, s, actions).row.state != Completed
      {
        DoomedNeverCompletes(digest, s, actions);
      }
    }
  }

  /** What a canceller can read off the row: once a stop must take effect, the lab never completes. */
  lemma StopsTakeEffect(digest: LabPlan -> string, s: System, actions: seq<Action>)
    requires Inv(digest, s) && MustStop(s.row)
    ensures MustStop(Continue(digest, s, actions).row)
    ensures Continue(digest, s, actions).row.state != Completed
  {
    var good := (x: System) => Inv(digest, x) && MustStop(x.row);
    forall x, a | good(x)
      ensures good(Apply(digest, x, a))
    {
      StepKeepsInv(digest, x, a);
      StopStays(digest, x, a);
    }
    KeptForever(digest, good, s, actions);
  }
}
