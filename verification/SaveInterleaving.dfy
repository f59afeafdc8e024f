/**
  Concurrent task saves.

  A save reads the row with the expected revision and validates the candidate against it;
  the guarded update is a later, separate step.  Candidates are arbitrary.
 */
module SaveInterleaving {
  import opened AgentModels

  /** A save that has validated its candidate and has not written yet. */
  datatype Save = Save(candidate: AgentTask, expected: nat)

  /** `history` lists every committed snapshot; the last one is the stored row. */
  datatype System = System(history: seq<AgentTask>, saves: map<nat, Save>)
  {
    function Stored(): AgentTask
      requires history != []
    {
      history[|history| - 1]
    }
  }

  datatype Step = Validate(actor: nat, candidate: AgentTask, expected: nat) | Write(actor: nat)

  function Apply(s: System, step: Step): System
    requires s.history != []
  {
    match step
    case Validate(actor, candidate, expected) =>
      if s.Stored().revision == expected && ValidUpdate(s.Stored(), candidate)
      then s.(saves := s.saves[actor := Save(candidate, expected)])
      else s.(saves := s.saves - {actor})
    case Write(actor) =>
      if actor !in s.saves then s
      else if s.Stored().revision == s.saves[actor].expected
      then System(s.history + [s.saves[actor].candidate], s.saves - {actor})
      else s.(saves := s.saves - {actor})
  }

  function Run(task: AgentTask, steps: seq<Step>): (s: System)
    ensures s.history != []
  {
    if steps == [] then System([task], map[])
    else Apply(Run(task, steps[..|steps| - 1]), steps[|steps| - 1])
  }

  ghost predicate Inv(s: System) {
    && s.history != []
    && (forall i :: 0 <= i < |s.history| ==> s.history[i].revision == i)
    && (forall i :: 0 < i < |s.history| ==> ValidUpdate(s.history[i - 1], s.history[i]))
    && (forall a :: a in s.saves ==>
          s.saves[a].expected < |s.history| && ValidUpdate(s.history[s.saves[a].expected], s.saves[a].candidate))
  }

  lemma HistoryGrows(history: seq<AgentTask>, candidate: AgentTask)
    requires history != [] && forall i :: 0 <= i < |history| ==> history[i].revision == i
    requires forall i :: 0 < i < |history| ==> ValidUpdate(history[i - 1], history[i])
    requires ValidUpdate(history[|history| - 1], candidate)
    ensures var all := history + [candidate];
      && (forall i :: 0 <= i < |all| ==> all[i].revision == i)
      && (forall i :: 0 < i < |all| ==> ValidUpdate(all[i - 1], all[i]))
  {
  }

  lemma StepKeepsInv(s: System, step: Step)
    requires Inv(s)
    ensures Inv(Apply(s, step))
  {
    if step.Write? && step.actor in s.saves && s.Stored().revision == s.saves[step.actor].expected {
      HistoryGrows(s.history, s.saves[step.actor].candidate);
    }
  }

  lemma {:induction false} EveryRunKeepsInv(task: AgentTask, steps: seq<Step>)
    requires task.revision == 0
    ensures Inv(Run(task, steps))
  {
    if steps != [] {
      EveryRunKeepsInv(task, steps[..|steps| - 1]);
      StepKeepsInv(Run(task, steps[..|steps| - 1]), steps[|steps| - 1]);
    }
  }

  /**
    A validated save is an atomic compare-and-swap: whatever happened between the two steps,
    the write is accepted exactly when the candidate is a valid update of the row as it is now.
   */
  lemma WriteIsCompareAndSwap(task: AgentTask, steps: seq<Step>, actor: nat)
    requires task.revision == 0
    requires actor in Run(task, steps).saves
    ensures var s := Run(task, steps);
            Apply(s, Write(actor)).history
              == if ValidUpdate(s.Stored(), s.saves[actor].candidate) then s.history + [s.saves[actor].candidate]
                 else s.history
  {
    EveryRunKeepsInv(task, steps);
  }

  /**
    Committed snapshots are numbered 0, 1, 2, ...; identity fields stay constant, counters
    never decrease, and nothing follows a terminal snapshot.
   */
  lemma {:induction false} SnapshotsAreMonotonic(task: AgentTask, steps: seq<Step>, i: nat, j: nat)
    requires task.revision == 0 && i <= j < |Run(task, steps).history|
    ensures var h := Run(task, steps).history;
            && h[j].revision == j
            && SameIdentity(h[i], h[j])
            && h[i].stepCount <= h[j].stepCount && h[i].toolCallCount <= h[j].toolCallCount
            && h[i].updatedAt <= h[j].updatedAt
            && (h[i].IsTerminal() ==> i == j)
    decreases j - i
  {
    EveryRunKeepsInv(task, steps);
    if i < j {
      SnapshotsAreMonotonic(task, steps, i, j - 1);
    }
  }
}
