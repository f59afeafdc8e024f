/**
  One consumption, at most one replay.

  The bound request can be consumed once; the consumption travels from the approving call into
  the task, from the task to the call that replays the pending proposal, and from there into
  at most one handler call.  A gated call that is not a replay must have had its reference from
  the planner.
 */
module AgentReplays {
  import opened Common
  import opened AgentModels
  import opened AgentSteps
  import opened AgentTickets
  import opened AgentInterleaving
  import opened AgentGate
  import Policy = AgentPolicy
  import Approvals = ApprovalModels
  import Ledger = ApprovalLedger
  import Rules = AgentRules

  /** The runner carries the one consumption there is. */
  predicate Carries(r: Runner) {
    RecordsApproval(r) || (Holding(r) && r.replayed)
  }

  /** The runner works on a fresh planner proposal. */
  predicate Plans(r: Runner) {
    r.pc in {Reading(Checkpoint), Noting(ProposedNote), Saving(AdvanceSave)}
  }

  predicate BindingSpent(sh: Shared) {
    && sh.task.binding.Some?
    && sh.task.binding.value.requestId in sh.approvals.requests
    && sh.approvals.requests[sh.task.binding.value.requestId].status == Approvals.Consumed
  }

  function Replays(calls: seq<Invocation>): nat {
    if calls == [] then 0 else Replays(calls[..|calls| - 1]) + if calls[|calls| - 1].replayed then 1 else 0
  }

  /** The consumption waits in the task. */
  predicate Waiting(s: System) {
    s.shared.task.memory.approvedPendingCall.Some?
  }

  ghost predicate CarrierOk(s: System, r: Runner) {
    && (Carries(r) ==> BindingSpent(s.shared) && !Waiting(s) && Replays(s.calls) == 0)
    && (r.pc == Saving(PopSave) ==> r.replayed)
    && (Plans(r) ==> !r.replayed)
    && (Holding(r) && !r.replayed && BringsReference(r.proposal) ==> r.ticket in s.echoed)
    && (Cleared(r) && Policy.Gated(s.shared.task, ProposedCall(r.proposal)) ==> BringsReference(r.proposal))
  }

  ghost predicate CentreOk(s: System) {
    && (Waiting(s) ==> BindingSpent(s.shared) && Replays(s.calls) == 0)
    && Replays(s.calls) <= 1
    && (Replays(s.calls) == 1 ==> BindingSpent(s.shared))
    && (forall i :: 0 <= i < |s.calls| && Policy.Gated(s.shared.task, s.calls[i].call) && !s.calls[i].replayed ==>
          s.calls[i].ticket in s.echoed)
  }

  ghost predicate OneReplay(s: System) {
    && CentreOk(s)
    && (forall id :: id in s.runners ==> CarrierOk(s, s.runners[id]))
    && (forall a, b :: a in s.runners && b in s.runners && a != b ==> !Carries(s.runners[a]) || !Carries(s.runners[b]))
  }

  /** How a runner comes to carry the consumption, and how it passes it on. */
  ghost predicate Passes(sh: Shared, r: Runner, r': Runner, e: Effect) {
    && (Carries(r') ==>
          || (Carries(r) && e == Quiet)
          || (e.Transacted? && r.pc == Consuming && !BindingSpent(sh) && BindingSpent(SharedAfter(sh, e)))
          || (e.Wrote? && r.pc == Saving(PopSave) && sh.task.memory.approvedPendingCall.Some?
              && e.task.memory.approvedPendingCall.None?))
    && (e.Wrote? ==>
          || e.task.memory.approvedPendingCall == sh.task.memory.approvedPendingCall
          || (r.pc == Saving(PopSave) && e.task.memory.approvedPendingCall.None?)
          || (r.pc == Saving(ApprovalSave) && !Carries(r')))
    && (e.Called? ==> r.pc.Calling? && !Carries(r'))
    && (r'.pc == Saving(PopSave) ==> r'.replayed)
    && (Plans(r') ==> !r'.replayed)
    && (Holding(r') ==>
          || (Holding(r) && r'.ticket == r.ticket && r'.proposal == r.proposal && r'.replayed == r.replayed)
          || (e.Wrote? && r.pc == Saving(PopSave) && r'.replayed)
          || (e.Wrote? && r.pc == Saving(AdvanceSave) && r'.proposal == r.proposal))
  }

  lemma SavePasses(cfg: Settings, sh: Shared, r: Runner, save: Save, now: int)
    requires Snapshot(r.task, sh.task) && r.pc == Saving(save)
    requires (save == PopSave ==> r.replayed && r.task.ReplayReady()) && (Plans(r) ==> !r.replayed)
    ensures var (r', e) := StepSave(cfg, sh, r, save, now); Passes(sh, r, r', e)
  {
    SaveMovesApproval(cfg, sh, r, save, now);
    SaveKeepsSnapshot(cfg, sh, r, save, now);
  }

  lemma ReadPasses(cfg: Settings, sh: Shared, r: Runner, read: Read, now: int)
    requires Plans(r) ==> !r.replayed
    requires r.pc == Reading(read)
    ensures Passes(sh, r, AfterRead(cfg, sh, r, read, now), Quiet)
  {
  }

  lemma ConsumingPasses(cfg: Settings, sh: Shared, r: Runner, o: Oracle)
    requires Ledger.Lawful(cfg.env, cfg.hash, sh.approvals)
    requires Snapshot(r.task, sh.task) && r.pc == Consuming
    ensures var (r', e) := StepRunner(cfg, sh, r, o); Passes(sh, r, r', e)
  {
    if r.task.binding.Some? {
      ConsumptionGrants(cfg, sh.approvals, r.task.binding.value, o.now, o.occurredAt);
    }
  }

  lemma StepPasses(cfg: Settings, sh: Shared, r: Runner, o: Oracle)
    requires Ledger.Lawful(cfg.env, cfg.hash, sh.approvals) && Snapshot(r.task, sh.task)
    requires (r.pc == Saving(PopSave) ==> r.replayed && r.task.ReplayReady()) && (Plans(r) ==> !r.replayed)
    ensures var (r', e) := StepRunner(cfg, sh, r, o); Passes(sh, r, r', e)
  {
    match r.pc
    case Saving(save) => SavePasses(cfg, sh, r, save, o.now);
    case Reading(read) => ReadPasses(cfg, sh, r, read, o.now);
    case Consuming => ConsumingPasses(cfg, sh, r, o);
    case _ =>
  }

  /** A spent request stays spent. */
  lemma SpentStays(cfg: Settings, s: System, a: Action)
    requires StepsPaid(s) && Ledger.Lawful(cfg.env, cfg.hash, s.shared.approvals) && BindingSpent(s.shared)
    ensures BindingSpent(Apply(cfg, s, a).shared)
  {
    TaskMovesByValidUpdates(cfg, s, a);
    var id := s.shared.task.binding.value.requestId;
    match a
    case Govern(t) => Ledger.TerminalRequestsAreFrozen(cfg.env, cfg.evaluator, cfg.hash, s.shared.approvals, t, id);
    case Act(actor, o) =>
      var r := RunnerAt(s, actor);
      EffectIsTransaction(cfg, s.shared, r, o);
      if StepRunner(cfg, s.shared, r, o).1.Transacted? {
        Ledger.TerminalRequestsAreFrozen(cfg.env, cfg.evaluator, cfg.hash, s.shared.approvals,
          Ledger.TConsume(Rules.BindingConsumption(cfg.env, r.task.binding.value, o.now, o.occurredAt)), id);
      }
  }

  lemma ReplaysGrow(calls: seq<Invocation>, invocation: Invocation)
    ensures Replays(calls + [invocation]) == Replays(calls) + if invocation.replayed then 1 else 0
  {
    assert (calls + [invocation])[..|calls|] == calls;
  }

  /** Everything a step changes outside the acting runner, as far as replays are concerned. */
  ghost predicate Moves(s: System, r: Runner, s': System, r': Runner, e: Effect) {
    && Passes(s.shared, r, r', e)
    && s'.shared == SharedAfter(s.shared, e)
    && SameIdentity(s.shared.task, s'.shared.task)
    && s.echoed <= s'.echoed
    && (BindingSpent(s.shared) ==> BindingSpent(s'.shared))
    && Replays(s'.calls) == Replays(s.calls) + (if e.Called? && r.replayed then 1 else 0)
  }

  lemma StepMoves(cfg: Settings, s: System, actor: nat, o: Oracle)
    requires StepsPaid(s) && GateHolds(cfg, s) && OneReplay(s)
    ensures var (r', e) := StepRunner(cfg, s.shared, RunnerAt(s, actor), o);
            Moves(s, RunnerAt(s, actor), Apply(cfg, s, Act(actor, o)), r', e)
  {
    var r := RunnerAt(s, actor);
    var s' := Apply(cfg, s, Act(actor, o));
    assert RunnerOk(s, r) && CarrierOk(s, r);
    StepPasses(cfg, s.shared, r, o);
    TaskMovesByValidUpdates(cfg, s, Act(actor, o));
    if BindingSpent(s.shared) {
      SpentStays(cfg, s, Act(actor, o));
    }
    if StepRunner(cfg, s.shared, r, o).1.Called? {
      ReplaysGrow(s.calls, s'.calls[|s.calls|]);
    }
  }

  lemma CarrierStaysOk(cfg: Settings, s: System, actor: nat, o: Oracle)
    requires StepsPaid(s) && GateHolds(cfg, s) && OneReplay(s)
    ensures var s' := Apply(cfg, s, Act(actor, o)); CarrierOk(s', s'.runners[actor])
  {
    var r := RunnerAt(s, actor);
    assert RunnerOk(s, r) && CarrierOk(s, r);
    StepMoves(cfg, s, actor, o);
    StepClears(cfg, s.shared, r, o);
    StepFlows(cfg, s.shared, r, o);
  }

  lemma OthersKeepOff(s: System, r: Runner, s': System, r': Runner, e: Effect, other: Runner)
    requires CentreOk(s) && CarrierOk(s, r) && CarrierOk(s, other) && (!Carries(r) || !Carries(other))
    requires Moves(s, r, s', r', e)
    ensures CarrierOk(s', other) && (!Carries(r') || !Carries(other))
  {
  }

  lemma CentreStaysOk(s: System, r: Runner, s': System, r': Runner, e: Effect)
    requires CentreOk(s) && CarrierOk(s, r) && Moves(s, r, s', r', e)
    requires r.pc == Saving(PopSave) ==> r.replayed
    requires forall i :: 0 <= i < |s'.calls| ==>
               || (i < |s.calls| && s'.calls[i] == s.calls[i])
               || (r.pc.Calling? && s'.calls[i].call == ProposedCall(r.proposal)
                   && s'.calls[i].ticket == r.ticket && s'.calls[i].replayed == r.replayed)
    ensures CentreOk(s')
  {
  }

  lemma GovernKeepsOneReplay(cfg: Settings, s: System, t: Ledger.Transaction)
    requires StepsPaid(s) && GateHolds(cfg, s) && OneReplay(s)
    ensures OneReplay(Apply(cfg, s, Govern(t)))
  {
    if BindingSpent(s.shared) {
      SpentStays(cfg, s, Govern(t));
    }
  }

  lemma Reassemble(s: System, s': System, actor: nat, r': Runner)
    requires OneReplay(s) && CentreOk(s') && s'.runners == s.runners[actor := r'] && CarrierOk(s', r')
    requires forall id :: id in s.runners && id != actor ==>
               CarrierOk(s', s.runners[id]) && (!Carries(r') || !Carries(s.runners[id]))
    ensures OneReplay(s')
  {
  }

  lemma ActKeepsOneReplay(cfg: Settings, s: System, actor: nat, o: Oracle)
    requires StepsPaid(s) && GateHolds(cfg, s) && OneReplay(s)
    ensures OneReplay(Apply(cfg, s, Act(actor, o)))
  {
    var s' := Apply(cfg, s, Act(actor, o));
    var (r', e) := StepRunner(cfg, s.shared, RunnerAt(s, actor), o);
    StepMoves(cfg, s, actor, o);
    StepFlows(cfg, s.shared, RunnerAt(s, actor), o);
    CentreStaysOk(s, RunnerAt(s, actor), s', r', e);
    CarrierStaysOk(cfg, s, actor, o);
    forall id | id in s.runners && id != actor
      ensures CarrierOk(s', s.runners[id]) && (!Carries(r') || !Carries(s.runners[id]))
    {
      OthersKeepOff(s, RunnerAt(s, actor), s', r', e, s.runners[id]);
    }
    Reassemble(s, s', actor, r');
  }

  lemma StepKeepsOneReplay(cfg: Settings, s: System, a: Action)
    requires StepsPaid(s) && GateHolds(cfg, s) && OneReplay(s)
    ensures OneReplay(Apply(cfg, s, a))
  {
    match a
    case Govern(t) => GovernKeepsOneReplay(cfg, s, t);
    case Act(actor, o) => ActKeepsOneReplay(cfg, s, actor, o);
  }

  lemma {:induction false} RunKeepsOneReplay(
      cfg: Settings, task: AgentTask, approvals: Ledger.ApprovalState, actions: seq<Action>)
    requires IsStart(cfg, task, approvals)
    ensures OneReplay(Run(cfg, task, approvals, actions))
  {
    if actions != [] {
      var before := actions[..|actions| - 1];
      RunKeepsOneReplay(cfg, task, approvals, before);
      RunKeepsGate(cfg, task, approvals, before);
      StepKeepsOneReplay(cfg, Run(cfg, task, approvals, before), actions[|actions| - 1]);
    }
  }

  /** The calls of approval-required actions. */
  function GatedCalls(task: AgentTask, calls: seq<Invocation>): seq<Invocation> {
    if calls == [] then []
    else
      var last := calls[|calls| - 1];
      GatedCalls(task, calls[..|calls| - 1]) + if Policy.Gated(task, last.call) then [last] else []
  }

  /** Gated calls are replays, or spend a step on which the planner brought the reference along. */
  lemma {:induction false} GatedCallsSpend(task: AgentTask, calls: seq<Invocation>, echoed: set<nat>)
    returns (spent: set<nat>)
    requires forall i, j :: 0 <= i < j < |calls| ==> calls[i].ticket != calls[j].ticket
    requires forall i :: 0 <= i < |calls| && Policy.Gated(task, calls[i].call) && !calls[i].replayed ==>
        calls[i].ticket in echoed
    ensures spent <= echoed && spent <= Tickets(calls)
    ensures |GatedCalls(task, calls)| <= Replays(calls) + |spent|
  {
    spent := {};
    if calls != [] {
      var n := |calls| - 1;
      var before := calls[..n];
      spent := GatedCallsSpend(task, before, echoed);
      assert calls == before + [calls[n]];
      TicketsGrow(before, calls[n]);
      if Policy.Gated(task, calls[n].call) && !calls[n].replayed {
        assert calls[n].ticket !in Tickets(before);
        spent := spent + {calls[n].ticket};
      }
    }
  }

  /**
    An approval is spent by at most one replay: in any interleaving, the handler calls of
    approval-required actions are one replay at most, plus those whose planner proposal
    already carried the reference.
   */
  lemma OneApprovalOneReplay(
      cfg: Settings, task: AgentTask, approvals: Ledger.ApprovalState, actions: seq<Action>)
    requires IsStart(cfg, task, approvals)
    ensures var s := Run(cfg, task, approvals, actions);
            && Replays(s.calls) <= 1
            && |GatedCalls(task, s.calls)| <= 1 + |s.echoed|
  {
    RunKeepsOneReplay(cfg, task, approvals, actions);
    RunKeepsGate(cfg, task, approvals, actions);
    var s := Run(cfg, task, approvals, actions);
    var spent := GatedCallsSpend(task, s.calls, s.echoed);
    CountedFits(spent, s.echoed);
  }
}
