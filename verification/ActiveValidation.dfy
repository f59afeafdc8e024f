/** Projecting observed lab states onto the task graph of an active validation. */
module ActiveValidation {
  import opened Common
  import opened TaskGraph

  /** Lab states as the projection distinguishes them; the first six are progress. */
  datatype Observation =
    | LabAwaitingApproval | LabApproved | LabQueued | LabExecuting | LabConsolidating | LabCompleted
    | LabCancelled(reason: string) | LabBlocked(reason: string) | LabFailed(reason: string) | LabUnknown

  function CompleteStage(s: Session, i: Stage): Session {
    var node := s.graph.nodes[i];
    if s.failed || Ended(node.status) then s
    else
      var t := if node.status != Running then Write(s, i, Running, NoRemark) else s;
      if t.graph.nodes[i].status == Running then Write(t, i, Completed, NoRemark) else t
  }

  function ReadyStage(s: Session, i: Stage): Session {
    if s.graph.nodes[i].status == Pending then Write(s, i, Ready, NoRemark) else s
  }

  function RunStage(s: Session, i: Stage): Session {
    if s.graph.nodes[i].status in {Pending, Ready, Paused} then Write(s, i, Running, NoRemark) else s
  }

  /** End the first stage from `i` on that has not ended, and cancel everything after it. */
  function ProjectFailureFrom(s: Session, i: nat, labFailed: bool, remark: Remark): Session
    requires EXECUTION <= i <= REVIEW
    decreases REVIEW - i
  {
    if i == REVIEW then CancelFrom(s, REVIEW, remark)
    else if Ended(s.graph.nodes[i].status) then ProjectFailureFrom(s, i + 1, labFailed, remark)
    else
      CancelFrom(EndStageAt(s, i, labFailed, remark), i + 1, remark)
  }

  function EndStageAt(s: Session, i: Stage, labFailed: bool, remark: Remark): Session {
    var t := if labFailed && s.graph.nodes[i].status != Running then RunStage(s, i) else s;
    Write(t, i, if labFailed then Failed else Blocked, remark)
  }

  function Project(s: Session, o: Observation): Session {
    match o
    case LabAwaitingApproval => s
    case LabApproved => CompleteStage(s, APPROVAL)
    case LabQueued => ReadyStage(CompleteStage(s, APPROVAL), EXECUTION)
    case LabExecuting => RunStage(CompleteStage(s, APPROVAL), EXECUTION)
    case LabConsolidating =>
      RunStage(CompleteStage(CompleteStage(CompleteStage(s, APPROVAL), EXECUTION), EVIDENCE), VERIFICATION)
    case LabCompleted =>
      ReadyStage(CompleteStage(CompleteStage(CompleteStage(CompleteStage(s, APPROVAL), EXECUTION), EVIDENCE),
          VERIFICATION), REVIEW)
    case LabCancelled(reason) => ProjectCancelled(s, Because(reason))
    case LabBlocked(reason) => ProjectFailureFrom(s, EXECUTION, false, Because(reason))
    case LabFailed(reason) => ProjectFailureFrom(s, EXECUTION, true, Because(reason))
    case LabUnknown => s
  }

  /** The statuses a graph is created with. */
  function InitialStatuses(o: Observation): seq<Status> {
    match o
    case LabApproved => [Completed, Completed, Completed, Pending, Pending, Pending, Pending, Pending]
    case LabQueued => [Completed, Completed, Completed, Ready, Pending, Pending, Pending, Pending]
    case LabExecuting => [Completed, Completed, Completed, Running, Pending, Pending, Pending, Pending]
    case LabConsolidating => [Completed, Completed, Completed, Completed, Completed, Running, Pending, Pending]
    case LabCompleted => [Completed, Completed, Completed, Completed, Completed, Completed, Ready, Pending]
    case LabCancelled(_) => [Completed, Completed, Cancelled, Cancelled, Cancelled, Cancelled, Cancelled, Cancelled]
    case LabBlocked(_) => [Completed, Completed, Completed, Blocked, Cancelled, Cancelled, Cancelled, Cancelled]
    case LabFailed(_) => [Completed, Completed, Completed, Failed, Cancelled, Cancelled, Cancelled, Cancelled]
    case _ => [Completed, Completed, WaitingForApproval, Pending, Pending, Pending, Pending, Pending]
  }

  function NewGraph(o: Observation): (g: Graph)
    ensures Statuses(g) == InitialStatuses(o)
  {
    var nodes := seq(STAGES, i requires 0 <= i < STAGES => Node(InitialStatuses(o)[i], 0, 1, NoRemark));
    assert |nodes| == STAGES;
    GraphData(nodes, 0)
  }

  function Statuses(g: Graph): seq<Status> {
    seq(STAGES, i requires 0 <= i < STAGES => g.nodes[i].status)
  }

  // ---------------------------------------------------------------- progress

  /** How far an observation is along the way; nothing for the observations that are not progress. */
  function Rank(o: Observation): Option<nat> {
    match o
    case LabAwaitingApproval => Some(0)
    case LabApproved => Some(1)
    case LabQueued => Some(2)
    case LabExecuting => Some(3)
    case LabConsolidating => Some(4)
    case LabCompleted => Some(5)
    case _ => None
  }

  predicate IsProgress(o: Observation) { Rank(o).Some? }

  /** How far a stage is. */
  function Position(status: Status): nat {
    match status
    case Ready => 1
    case Running => 2
    case Completed => 3
    case _ => 0
  }

  function Farther(a: nat, b: nat): nat { if a < b then b else a }

  /** The statuses a stage passes through while the lab only makes progress. */
  predicate NodeOnCourse(node: Node, i: Stage) {
    && node.status in (
         if i < APPROVAL then {Completed}
         else if i == APPROVAL then {WaitingForApproval, Running, Completed}
         else if i == EXECUTION then {Pending, Ready, Running, Completed}
         else if i < REVIEW then {Pending, Running, Completed}
         else if i == REVIEW then {Pending, Ready}
         else {Pending})
    && node.maximumAttempts == 1 && node.attempts <= 1
    && (Position(node.status) < 2 ==> node.attempts == 0)
  }

  ghost predicate OnCourse(g: Graph) {
    forall i: Stage {:trigger g.nodes[i]} :: NodeOnCourse(g.nodes[i], i)
  }

  /** From `s` to `t` stage `i` moved to `goal`, or not as far when a write was refused, and never back. */
  predicate Approaches(s: Session, t: Session, i: Stage, goal: nat) {
    var before, after := Position(s.graph.nodes[i].status), Position(t.graph.nodes[i].status);
    && NodeOnCourse(t.graph.nodes[i], i)
    && before <= after <= Farther(before, goal)
    && (!t.failed ==> after == Farther(before, goal))
  }

  /** Only stage `i` moved, and it moved towards `goal`. */
  ghost predicate Moved(s: Session, t: Session, i: Stage, goal: nat) {
    && t.graph.nodes == s.graph.nodes[i := t.graph.nodes[i]]
    && Approaches(s, t, i, goal)
    && t.left <= s.left <= t.left + 2
    && (t.failed ==> t.left < 2)
  }

  lemma CompleteMoves(s: Session, i: Stage)
    requires !s.failed && NodeOnCourse(s.graph.nodes[i], i) && APPROVAL <= i <= VERIFICATION
    ensures Moved(s, CompleteStage(s, i), i, 3)
  {
  }

  lemma ReadyMoves(s: Session, i: Stage)
    requires !s.failed && NodeOnCourse(s.graph.nodes[i], i) && (i == EXECUTION || i == REVIEW)
    ensures Moved(s, ReadyStage(s, i), i, 1)
  {
  }

  lemma RunMoves(s: Session, i: Stage)
    requires !s.failed && NodeOnCourse(s.graph.nodes[i], i) && EXECUTION <= i <= VERIFICATION
    ensures Moved(s, RunStage(s, i), i, 2)
  {
  }

  lemma AbortedStagesRest(s: Session, i: Stage)
    requires s.failed
    ensures CompleteStage(s, i) == ReadyStage(s, i) == RunStage(s, i) == s
  {
  }

  /** Every stage moved to its goal, or not as far when a write was refused, within `k` stage moves. */
  ghost predicate AllApproach(s: Session, t: Session, goals: seq<nat>, k: nat)
    requires |goals| == STAGES
  {
    && (forall i: Stage {:trigger goals[i]} :: Approaches(s, t, i, goals[i]))
    && t.left <= s.left <= t.left + 2 * k
    && (t.failed ==> s.left < 2 * k + 2)
  }

  lemma MoveOn(s: Session, t: Session, u: Session, goals: seq<nat>, k: nat, i: Stage, goal: nat)
    requires |goals| == STAGES && goals[i] == 0 && AllApproach(s, t, goals, k)
    requires if t.failed then u == t else Moved(t, u, i, goal)
    ensures AllApproach(s, u, goals[i := goal], k + 1)
  {
    var after := goals[i := goal];
    forall j: Stage
      ensures Approaches(s, u, j, after[j])
    {
      assert Approaches(s, t, j, goals[j]);
    }
  }

  lemma ThenComplete(s: Session, t: Session, goals: seq<nat>, k: nat, i: Stage)
    requires |goals| == STAGES && goals[i] == 0 && AllApproach(s, t, goals, k) && APPROVAL <= i <= VERIFICATION
    ensures AllApproach(s, CompleteStage(t, i), goals[i := 3], k + 1)
  {
    assert Approaches(s, t, i, goals[i]);
    if t.failed {
      AbortedStagesRest(t, i);
    } else {
      CompleteMoves(t, i);
    }
    MoveOn(s, t, CompleteStage(t, i), goals, k, i, 3);
  }

  lemma ThenReady(s: Session, t: Session, goals: seq<nat>, k: nat, i: Stage)
    requires |goals| == STAGES && goals[i] == 0 && AllApproach(s, t, goals, k) && (i == EXECUTION || i == REVIEW)
    ensures AllApproach(s, ReadyStage(t, i), goals[i := 1], k + 1)
  {
    assert Approaches(s, t, i, goals[i]);
    if t.failed {
      AbortedStagesRest(t, i);
    } else {
      ReadyMoves(t, i);
    }
    MoveOn(s, t, ReadyStage(t, i), goals, k, i, 1);
  }

  lemma ThenRun(s: Session, t: Session, goals: seq<nat>, k: nat, i: Stage)
    requires |goals| == STAGES && goals[i] == 0 && AllApproach(s, t, goals, k) && EXECUTION <= i <= VERIFICATION
    ensures AllApproach(s, RunStage(t, i), goals[i := 2], k + 1)
  {
    assert Approaches(s, t, i, goals[i]);
    if t.failed {
      AbortedStagesRest(t, i);
    } else {
      RunMoves(t, i);
    }
    MoveOn(s, t, RunStage(t, i), goals, k, i, 2);
  }

  const NOWHERE: seq<nat> := [0, 0, 0, 0, 0, 0, 0, 0]

  const APPROVED := NOWHERE[APPROVAL := 3]

  const GATHERED := APPROVED[EXECUTION := 3][EVIDENCE := 3]

  /** How far an observation of progress moves each stage. */
  function Goals(o: Observation): (g: seq<nat>)
    ensures |g| == STAGES
  {
    match o
    case LabApproved => APPROVED
    case LabQueued => APPROVED[EXECUTION := 1]
    case LabExecuting => APPROVED[EXECUTION := 2]
    case LabConsolidating => GATHERED[VERIFICATION := 2]
    case LabCompleted => GATHERED[VERIFICATION := 3][REVIEW := 1]
    case _ => NOWHERE
  }

  lemma NothingMoves(s: Session)
    requires !s.failed && OnCourse(s.graph)
    ensures AllApproach(s, s, NOWHERE, 0)
  {
    forall i: Stage
      ensures Approaches(s, s, i, NOWHERE[i])
    {
      assert NodeOnCourse(s.graph.nodes[i], i);
    }
  }

  /** One observation moves the graph to the pointwise later of where it is and where the lab is. */
  lemma ProgressJoins(s: Session, o: Observation)
    requires !s.failed && OnCourse(s.graph) && IsProgress(o)
    ensures AllApproach(s, Project(s, o), Goals(o), 5)
  {
    NothingMoves(s);
    if o != LabAwaitingApproval {
      ThenComplete(s, s, NOWHERE, 0, APPROVAL);
      var a := CompleteStage(s, APPROVAL);
      if o == LabQueued {
        ThenReady(s, a, APPROVED, 1, EXECUTION);
      } else if o == LabExecuting {
        ThenRun(s, a, APPROVED, 1, EXECUTION);
      } else if o != LabApproved {
        EvidenceJoins(s, a, o);
      }
    }
  }

  lemma EvidenceJoins(s: Session, a: Session, o: Observation)
    requires AllApproach(s, a, APPROVED, 1) && a == CompleteStage(s, APPROVAL)
    requires o == LabConsolidating || o == LabCompleted
    ensures AllApproach(s, Project(s, o), Goals(o), 5)
  {
    var b := CompleteStage(a, EXECUTION);
    ThenComplete(s, a, APPROVED, 1, EXECUTION);
    var c := CompleteStage(b, EVIDENCE);
    ThenComplete(s, b, APPROVED[EXECUTION := 3], 2, EVIDENCE);
    if o == LabConsolidating {
      ThenRun(s, c, GATHERED, 3, VERIFICATION);
    } else {
      ReviewJoins(s, c);
    }
  }

  lemma ReviewJoins(s: Session, c: Session)
    requires AllApproach(s, c, GATHERED, 3)
    ensures AllApproach(s, ReadyStage(CompleteStage(c, VERIFICATION), REVIEW), Goals(LabCompleted), 5)
  {
    ThenComplete(s, c, GATHERED, 3, VERIFICATION);
    ThenReady(s, CompleteStage(c, VERIFICATION), GATHERED[VERIFICATION := 3], 4, REVIEW);
  }

  // ---------------------------------------------------------------- convergence

  /** An observation, and how many writes of its projection go through. */
  datatype Sighting = Sighting(o: Observation, left: nat)

  /** More writes than any projection of progress needs. */
  const ENOUGH := 12

  function ProjectAll(g: Graph, sightings: seq<Sighting>): Graph {
    if sightings == [] then g
    else
      var last := sightings[|sightings| - 1];
      Project(Session(ProjectAll(g, sightings[..|sightings| - 1]), last.left, false), last.o).graph
  }

  predicate AllProgress(sightings: seq<Sighting>) {
    forall k :: 0 <= k < |sightings| ==> IsProgress(sightings[k].o)
  }

  function Later(a: Observation, b: Observation): Observation
    requires IsProgress(a) && IsProgress(b)
  {
    if Rank(a).value < Rank(b).value then b else a
  }

  /** The most advanced observation among those that were projected in full, or among all of them. */
  function Furthest(sightings: seq<Sighting>, inFull: bool): (o: Observation)
    requires AllProgress(sightings)
    ensures IsProgress(o)
  {
    if sightings == [] then LabAwaitingApproval
    else
      var last := sightings[|sightings| - 1];
      var before := Furthest(sightings[..|sightings| - 1], inFull);
      if inFull && last.left < ENOUGH then before else Later(before, last.o)
  }

  function Level(o: Observation, i: Stage): nat {
    Position(InitialStatuses(o)[i])
  }

  lemma LaterIsFarther(a: Observation, b: Observation, i: Stage)
    requires IsProgress(a) && IsProgress(b)
    ensures Level(Later(a, b), i) == Farther(Level(a, i), Level(b, i))
    ensures Goals(a)[i] == if i < APPROVAL then 0 else Level(a, i)
  {
  }

  /** However often, late or incompletely observations are projected, the graph stays between the two. */
  lemma {:induction false} ProjectionsStayBetween(sightings: seq<Sighting>, i: Stage)
    requires AllProgress(sightings)
    ensures var g := ProjectAll(NewGraph(LabAwaitingApproval), sightings);
      && OnCourse(g)
      && Level(Furthest(sightings, true), i) <= Position(g.nodes[i].status) <= Level(Furthest(sightings, false), i)
  {
    if sightings != [] {
      var before, last := sightings[..|sightings| - 1], sightings[|sightings| - 1];
      var s := Session(ProjectAll(NewGraph(LabAwaitingApproval), before), last.left, false);
      ProjectionsStayBetween(before, i);
      ProgressJoins(s, last.o);
      assert Approaches(s, Project(s, last.o), i, Goals(last.o)[i]);
      LaterIsFarther(Furthest(before, true), last.o, i);
      LaterIsFarther(Furthest(before, false), last.o, i);
      LaterIsFarther(last.o, last.o, i);
      StaysOnCourse(s, Project(s, last.o), Goals(last.o), 5);
    }
  }

  lemma StaysOnCourse(s: Session, t: Session, goals: seq<nat>, k: nat)
    requires |goals| == STAGES && AllApproach(s, t, goals, k)
    ensures OnCourse(t.graph)
  {
    forall i: Stage
      ensures NodeOnCourse(t.graph.nodes[i], i)
    {
      assert Approaches(s, t, i, goals[i]);
    }
  }

  /**
    Convergence: starting from a graph that awaits approval, any finite sequence of progress
    observations, with repetitions, stale ones and interrupted ones, ends in exactly the
    statuses of the most advanced observation, once that one has been projected in full.
   */
  lemma ProjectionsConverge(sightings: seq<Sighting>)
    requires AllProgress(sightings) && Furthest(sightings, true) == Furthest(sightings, false)
    ensures Statuses(ProjectAll(NewGraph(LabAwaitingApproval), sightings)) ==
        InitialStatuses(Furthest(sightings, false))
  {
    var g := ProjectAll(NewGraph(LabAwaitingApproval), sightings);
    var o := Furthest(sightings, false);
    forall i: Stage
      ensures Statuses(g)[i] == InitialStatuses(o)[i]
    {
      ProjectionsStayBetween(sightings, i);
      assert NodeOnCourse(g.nodes[i], i);
      PositionsTell(g.nodes[i], o, i);
    }
  }

  lemma PositionsTell(node: Node, o: Observation, i: Stage)
    requires NodeOnCourse(node, i) && IsProgress(o) && Position(node.status) == Level(o, i)
    ensures node.status == InitialStatuses(o)[i]
  {
  }

  // ---------------------------------------------------------------- endings

  ghost predicate AllEnded(g: Graph) {
    forall i: Stage {:trigger g.nodes[i]} :: Ended(g.nodes[i].status)
  }

  /** Once every stage has ended, no observation changes anything or fails. */
  lemma EndedGraphsRest(s: Session, o: Observation)
    requires AllEnded(s.graph) && !s.failed
    ensures Project(s, o) == s
  {
    match o
    case LabCancelled(reason) => NothingToCancel(s, 0, Because(reason));
    case LabBlocked(reason) =>
      NothingToCancel(s, REVIEW, Because(reason));
      NothingToFail(s, EXECUTION, false, Because(reason));
    case LabFailed(reason) =>
      NothingToCancel(s, REVIEW, Because(reason));
      NothingToFail(s, EXECUTION, true, Because(reason));
    case _ =>
  }

  lemma {:induction false} NothingToFail(s: Session, i: nat, labFailed: bool, remark: Remark)
    requires AllEnded(s.graph) && EXECUTION <= i <= REVIEW
    ensures ProjectFailureFrom(s, i, labFailed, remark) == CancelFrom(s, REVIEW, remark)
    decreases REVIEW - i
  {
    if i < REVIEW {
      NothingToFail(s, i + 1, labFailed, remark);
    }
  }

  /** A cancellation that goes through ends every stage; the stages that had ended keep their outcome. */
  lemma CancellationEndsAll(s: Session, reason: string)
    requires !s.failed && s.left >= STAGES && WithinLimits(s.graph)
    ensures var t := Project(s, LabCancelled(reason));
      && !t.failed && AllEnded(t.graph)
      && forall i: Stage {:trigger t.graph.nodes[i]} ::
        t.graph.nodes[i] == CancelledNode(s.graph.nodes[i], Because(reason))
  {
    CancelHasRoom(s, 0, Because(reason));
    assert Project(s, LabCancelled(reason)) == CancelFrom(s, 0, Because(reason));
    forall i: Stage
      ensures CancelFrom(s, 0, Because(reason)).graph.nodes[i] == CancelledNode(s.graph.nodes[i], Because(reason))
    {
      CancelAt(s, 0, Because(reason), i);
    }
  }

  /** The first stage from `i` up to verification that has not ended; `REVIEW` when there is none. */
  function FirstOpen(g: Graph, i: nat): (k: Stage)
    requires EXECUTION <= i <= REVIEW
    ensures i <= k <= REVIEW
    ensures forall j :: i <= j < k ==> Ended(g.nodes[j].status)
    ensures k < REVIEW ==> !Ended(g.nodes[k].status)
    decreases REVIEW - i
  {
    if i == REVIEW then REVIEW else if Ended(g.nodes[i].status) then FirstOpen(g, i + 1) else i
  }

  lemma {:induction false} FailureHitsFirstOpen(s: Session, i: nat, labFailed: bool, remark: Remark)
    requires EXECUTION <= i <= REVIEW
    ensures ProjectFailureFrom(s, i, labFailed, remark) ==
        ProjectFailureFrom(s, FirstOpen(s.graph, i), labFailed, remark)
    decreases REVIEW - i
  {
    if i < REVIEW && Ended(s.graph.nodes[i].status) {
      FailureHitsFirstOpen(s, i + 1, labFailed, remark);
    }
  }

  function EndedOpen(s: Session, labFailed: bool, remark: Remark): Session {
    var open := FirstOpen(s.graph, EXECUTION);
    if open < REVIEW then EndStageAt(s, open, labFailed, remark) else s
  }

  function AfterOpen(g: Graph): (i: nat)
    ensures EXECUTION < i <= REVIEW
  {
    var open := FirstOpen(g, EXECUTION);
    if open < REVIEW then open + 1 else REVIEW
  }

  /** A failure ends the first open stage, if there is one, and cancels the rest. */
  lemma FailureIsOneEnding(s: Session, labFailed: bool, remark: Remark)
    ensures ProjectFailureFrom(s, EXECUTION, labFailed, remark) ==
        CancelFrom(EndedOpen(s, labFailed, remark), AfterOpen(s.graph), remark)
  {
    FailureHitsFirstOpen(s, EXECUTION, labFailed, remark);
  }

  function BlockedNode(g: Graph, i: Stage, remark: Remark): Node {
    if i == FirstOpen(g, EXECUTION) && i < REVIEW then g.nodes[i].(status := Blocked, lastError := remark)
    else CancelledNode(g.nodes[i], remark)
  }

  /** The stage that is to be blocked, alone. */
  lemma OpenStageBlocks(s: Session, remark: Remark)
    requires !s.failed && s.left >= ENOUGH && WithinLimits(s.graph)
    ensures var u := EndedOpen(s, false, remark);
            var open := FirstOpen(s.graph, EXECUTION);
      && (u.failed <==> open < REVIEW && s.graph.nodes[open].status !in {Pending, Running})
      && (u.failed ==> u.graph == s.graph)
      && u.left >= STAGES && WithinLimits(u.graph)
      && (!u.failed && open == REVIEW ==> u == s)
      && (!u.failed && open < REVIEW ==> u.graph.nodes == s.graph.nodes[open := BlockedNode(s.graph, open, remark)])
  {
  }

  lemma BlockedAt(s: Session, remark: Remark, i: Stage)
    requires !s.failed && s.left >= ENOUGH && WithinLimits(s.graph) && EXECUTION <= i
    requires !EndedOpen(s, false, remark).failed
    ensures var t := CancelFrom(EndedOpen(s, false, remark), AfterOpen(s.graph), remark);
            !t.failed && t.graph.nodes[i] == BlockedNode(s.graph, i, remark)
  {
    var u, rest := EndedOpen(s, false, remark), AfterOpen(s.graph);
    OpenStageBlocks(s, remark);
    CancelHasRoom(u, rest, remark);
    CancelAt(u, rest, remark, i);
  }

  /**
    A blocked lab: the projection is refused exactly when the first stage still open is neither
    pending nor running, and then writes nothing; otherwise that stage is blocked and
    everything after it is cancelled.
   */
  lemma BlockedFailsExactlyWhen(s: Session, reason: string)
    requires !s.failed && s.left >= ENOUGH && WithinLimits(s.graph)
    ensures var t := Project(s, LabBlocked(reason));
            var open := FirstOpen(s.graph, EXECUTION);
      && (t.failed <==> open < REVIEW && s.graph.nodes[open].status !in {Pending, Running})
      && (t.failed ==> t.graph == s.graph)
      && (!t.failed ==> forall i: Stage :: EXECUTION <= i ==>
          t.graph.nodes[i] == BlockedNode(s.graph, i, Because(reason)))
  {
    var remark := Because(reason);
    var u := EndedOpen(s, false, remark);
    FailureIsOneEnding(s, false, remark);
    OpenStageBlocks(s, remark);
    if u.failed {
      CancelExtends(u, AfterOpen(s.graph), remark);
    } else {
      forall i: Stage | EXECUTION <= i
        ensures !Project(s, LabBlocked(reason)).failed
        ensures Project(s, LabBlocked(reason)).graph.nodes[i] == BlockedNode(s.graph, i, remark)
      {
        BlockedAt(s, remark, i);
      }
      BlockedAt(s, remark, REPORT);
    }
  }

  /** The branch is real: a lab that is blocked right after it was queued cannot be projected. */
  lemma BlockedAfterQueuedIsRefused(reason: string, left: nat)
    requires left >= ENOUGH
    ensures Project(Session(NewGraph(LabQueued), left, false), LabBlocked(reason))
         == Session(NewGraph(LabQueued), left, true)
  {
    var s := Session(NewGraph(LabQueued), left, false);
    assert Statuses(s.graph)[EXECUTION] == Ready;
    BlockedFailsExactlyWhen(s, reason);
  }

  lemma StageFails(s: Session, i: Stage, remark: Remark)
    requires !s.failed && s.left >= 2 && NodeOnCourse(s.graph.nodes[i], i) && EXECUTION <= i < REVIEW
    requires !Ended(s.graph.nodes[i].status) && WithinLimits(s.graph)
    ensures var u := EndStageAt(s, i, true, remark);
      && !u.failed && u.left + 2 >= s.left && WithinLimits(u.graph)
      && u.graph.nodes == s.graph.nodes[i := u.graph.nodes[i]]
      && u.graph.nodes[i].status == Failed && u.graph.nodes[i].lastError == remark
  {
  }

  /**
    A failed lab is always projected while the lab only made progress before: the first open stage
    fails with its reason, and every later open stage is cancelled.
   */
  lemma FailureIsProjected(s: Session, reason: string)
    requires !s.failed && s.left >= ENOUGH && OnCourse(s.graph)
    ensures var t := Project(s, LabFailed(reason));
            var open := FirstOpen(s.graph, EXECUTION);
      && !t.failed
      && (open < REVIEW ==> t.graph.nodes[open].status == Failed && t.graph.nodes[open].lastError == Because(reason))
      && (forall i: Stage {:trigger t.graph.nodes[i]} ::
            EXECUTION <= i && i != open ==> t.graph.nodes[i] == CancelledNode(s.graph.nodes[i], Because(reason)))
  {
    var open, rest, remark := FirstOpen(s.graph, EXECUTION), AfterOpen(s.graph), Because(reason);
    var u := EndedOpen(s, true, remark);
    FailureIsOneEnding(s, true, remark);
    assert Project(s, LabFailed(reason)) == CancelFrom(u, rest, remark);
    assert forall i: Stage {:trigger s.graph.nodes[i]} :: NodeOnCourse(s.graph.nodes[i], i);
    assert WithinLimits(s.graph);
    if open < REVIEW {
      StageFails(s, open, remark);
    }
    RestEnds(u, rest, remark);
  }

  lemma RestEnds(u: Session, rest: nat, remark: Remark)
    requires rest <= STAGES && !u.failed && u.left >= STAGES && WithinLimits(u.graph)
    requires forall j :: EXECUTION <= j < rest ==> Ended(u.graph.nodes[j].status)
    ensures var t := CancelFrom(u, rest, remark);
      && !t.failed
      && (forall i: Stage {:trigger t.graph.nodes[i]} ::
            t.graph.nodes[i] == if i < rest then u.graph.nodes[i] else CancelledNode(u.graph.nodes[i], remark))
  {
    CancelHasRoom(u, rest, remark);
    var t := CancelFrom(u, rest, remark);
    forall i: Stage
      ensures t.graph.nodes[i] == if i < rest then u.graph.nodes[i] else CancelledNode(u.graph.nodes[i], remark)
    {
      CancelAt(u, rest, remark, i);
    }
  }

  lemma OpenEnds(s: Session, labFailed: bool, remark: Remark)
    requires !s.failed && !EndedOpen(s, labFailed, remark).failed
    ensures forall j :: EXECUTION <= j < AfterOpen(s.graph) ==>
      Ended(EndedOpen(s, labFailed, remark).graph.nodes[j].status)
  {
  }

  lemma RestIsEnded(u: Session, rest: nat, remark: Remark)
    requires rest <= STAGES && !CancelFrom(u, rest, remark).failed
    requires forall j :: EXECUTION <= j < rest ==> Ended(u.graph.nodes[j].status)
    ensures forall k: Stage :: EXECUTION <= k ==> Ended(CancelFrom(u, rest, remark).graph.nodes[k].status)
  {
    if u.failed {
      CancelExtends(u, rest, remark);
    }
    forall k: Stage | EXECUTION <= k
      ensures Ended(CancelFrom(u, rest, remark).graph.nodes[k].status)
    {
      CancelAt(u, rest, remark, k);
    }
  }

  /** A failure that goes through ends every stage from the execution on. */
  lemma FailureEnds(s: Session, labFailed: bool, remark: Remark, t: Session)
    requires !s.failed && t == ProjectFailureFrom(s, EXECUTION, labFailed, remark) && !t.failed
    ensures forall k: Stage :: EXECUTION <= k ==> Ended(t.graph.nodes[k].status)
  {
    var u := EndedOpen(s, labFailed, remark);
    FailureIsOneEnding(s, labFailed, remark);
    if u.failed {
      CancelExtends(u, AfterOpen(s.graph), remark);
    }
    OpenEnds(s, labFailed, remark);
    RestIsEnded(u, AfterOpen(s.graph), remark);
  }

  /** Creating a graph in an ended state and projecting that state onto a graph on its way agree. */
  lemma EndedCreationAgrees(reason: string, left: nat)
    requires left >= ENOUGH
    ensures Statuses(Project(Session(NewGraph(LabAwaitingApproval), left, false), LabCancelled(reason)).graph)
         == InitialStatuses(LabCancelled(reason))
    ensures Statuses(Project(Session(NewGraph(LabApproved), left, false), LabBlocked(reason)).graph)
         == InitialStatuses(LabBlocked(reason))
    ensures Statuses(Project(Session(NewGraph(LabExecuting), left, false), LabFailed(reason)).graph)
         == InitialStatuses(LabFailed(reason))
  {
    CancelledCreationAgrees(reason, left);
    BlockedCreationAgrees(reason, left);
    FailedCreationAgrees(reason, left);
  }

  lemma CancelledCreationAgrees(reason: string, left: nat)
    requires left >= ENOUGH
    ensures Statuses(Project(Session(NewGraph(LabAwaitingApproval), left, false), LabCancelled(reason)).graph)
         == InitialStatuses(LabCancelled(reason))
  {
    var s := Session(NewGraph(LabAwaitingApproval), left, false);
    assert forall i: Stage :: s.graph.nodes[i].status == Statuses(s.graph)[i];
    AllCancelledAgree(s, Because(reason), InitialStatuses(LabCancelled(reason)));
  }

  lemma AllCancelledAgree(s: Session, remark: Remark, expected: seq<Status>)
    requires !s.failed && s.left >= STAGES && WithinLimits(s.graph) && |expected| == STAGES
    requires forall i: Stage :: expected[i] == CancelledNode(s.graph.nodes[i], remark).status
    ensures Statuses(ProjectCancelled(s, remark).graph) == expected
  {
    CancelHasRoom(s, 0, remark);
    forall i: Stage
      ensures Statuses(ProjectCancelled(s, remark).graph)[i] == expected[i]
    {
      CancelAt(s, 0, remark, i);
    }
  }

  lemma BlockedCreationAgrees(reason: string, left: nat)
    requires left >= ENOUGH
    ensures Statuses(Project(Session(NewGraph(LabApproved), left, false), LabBlocked(reason)).graph)
         == InitialStatuses(LabBlocked(reason))
  {
    var s := Session(NewGraph(LabApproved), left, false);
    assert s.graph.nodes[EXECUTION].status == Statuses(s.graph)[EXECUTION];
    EndingAgrees(s, false, Because(reason), InitialStatuses(LabBlocked(reason)));
  }

  lemma FailedCreationAgrees(reason: string, left: nat)
    requires left >= ENOUGH
    ensures Statuses(Project(Session(NewGraph(LabExecuting), left, false), LabFailed(reason)).graph)
         == InitialStatuses(LabFailed(reason))
  {
    var s := Session(NewGraph(LabExecuting), left, false);
    assert s.graph.nodes[EXECUTION].status == Statuses(s.graph)[EXECUTION];
    EndingAgrees(s, true, Because(reason), InitialStatuses(LabFailed(reason)));
  }

  /** What a stage ends up as when the execution fails or is blocked. */
  function EndedStatus(status: Status, i: Stage, labFailed: bool): Status {
    if i < EXECUTION || (i > EXECUTION && Ended(status)) then status
    else if i > EXECUTION then Cancelled
    else if labFailed then Failed
    else Blocked
  }

  lemma EndingAgrees(s: Session, labFailed: bool, remark: Remark, expected: seq<Status>)
    requires !s.failed && s.left >= ENOUGH && WithinLimits(s.graph) && |expected| == STAGES
    requires !Ended(s.graph.nodes[EXECUTION].status) && !EndStageAt(s, EXECUTION, labFailed, remark).failed
    requires forall i: Stage :: expected[i] == EndedStatus(s.graph.nodes[i].status, i, labFailed)
    ensures Statuses(ProjectFailureFrom(s, EXECUTION, labFailed, remark).graph) == expected
  {
    var u := EndStageAt(s, EXECUTION, labFailed, remark);
    CancelHasRoom(u, EVIDENCE, remark);
    forall i: Stage
      ensures Statuses(ProjectFailureFrom(s, EXECUTION, labFailed, remark).graph)[i] == expected[i]
    {
      CancelAt(u, EVIDENCE, remark, i);
    }
  }

  // ---------------------------------------------------------------- the stored projection

  /** The projection service over one stored graph. */
  class ActiveValidation {
    const core: GraphService

    constructor (core: GraphService)
      ensures this.core == core
    {
      this.core := core;
    }

    method MarkCompleted(i: Stage) returns (ok: bool)
      modifies core
      ensures core.State(!ok) == CompleteStage(old(core.State(false)), i)
      ensures forall k: Stage :: k != i ==> core.graph.nodes[k] == old(core.graph.nodes[k])
      ensures ok ==> Ended(core.graph.nodes[i].status)
      ensures ok && !old(Ended(core.graph.nodes[i].status)) ==> core.graph.nodes[i].status == Completed
    {
      ok := true;
      if Ended(core.graph.nodes[i].status) {
        return;
      }
      if core.graph.nodes[i].status in {Pending, Ready, WaitingForApproval, Paused} {
        ok := core.Transition(i, Running, NoRemark);
      }
      if ok && core.graph.nodes[i].status == Running {
        ok := core.Transition(i, Completed, NoRemark);
      }
    }

    method MarkReady(i: Stage) returns (ok: bool)
      modifies core
      ensures core.State(!ok) == ReadyStage(old(core.State(false)), i)
    {
      ok := true;
      if core.graph.nodes[i].status == Pending {
        ok := core.Transition(i, Ready, NoRemark);
      }
    }

    method MarkRunning(i: Stage) returns (ok: bool)
      modifies core
      ensures core.State(!ok) == RunStage(old(core.State(false)), i)
    {
      ok := true;
      if core.graph.nodes[i].status in {Pending, Ready, Paused} {
        ok := core.Transition(i, Running, NoRemark);
      }
    }

    /** Complete approval, execution and evidence. */
    method MarkEvidenceCompleted() returns (ok: bool)
      modifies core
      ensures core.State(!ok) ==
          CompleteStage(CompleteStage(CompleteStage(old(core.State(false)), APPROVAL), EXECUTION), EVIDENCE)
    {
      ok := MarkCompleted(APPROVAL);
      if ok {
        ok := MarkCompleted(EXECUTION);
      }
      if ok {
        ok := MarkCompleted(EVIDENCE);
      }
    }

    method EndStage(i: Stage, labFailed: bool, remark: Remark) returns (ok: bool)
      requires EXECUTION <= i < REVIEW
      modifies core
      ensures core.State(!ok) == EndStageAt(old(core.State(false)), i, labFailed, remark)
    {
      ok := true;
      if labFailed && core.graph.nodes[i].status != Running {
        ok := MarkRunning(i);
      }
      if ok {
        ok := core.Transition(i, if labFailed then Failed else Blocked, remark);
      }
    }

    /** The first open stage up to verification, found by looking at each. */
    method FindOpen() returns (open: Stage)
      ensures open == FirstOpen(core.graph, EXECUTION)
    {
      for i := EXECUTION to REVIEW
        invariant FirstOpen(core.graph, EXECUTION) == FirstOpen(core.graph, i)
      {
        if !Ended(core.graph.nodes[i].status) {
          return i;
        }
      }
      open := REVIEW;
    }

    /** End the first open stage up to verification and cancel everything after it. */
    method ProjectFailure(labFailed: bool, remark: Remark) returns (ok: bool)
      modifies core
      ensures core.State(!ok) == ProjectFailureFrom(old(core.State(false)), EXECUTION, labFailed, remark)
      ensures ok ==> forall k: Stage :: EXECUTION <= k ==> Ended(core.graph.nodes[k].status)
    {
      ghost var s := core.State(false);
      ok := EndFirstOpen(labFailed, remark);
      if ok {
        FailureEnds(s, labFailed, remark, core.State(false));
      }
    }

    method EndFirstOpen(labFailed: bool, remark: Remark) returns (ok: bool)
      modifies core
      ensures core.State(!ok) == ProjectFailureFrom(old(core.State(false)), EXECUTION, labFailed, remark)
    {
      var open := FindOpen();
      FailureIsOneEnding(core.State(false), labFailed, remark);
      if open == REVIEW {
        ok := core.CancelDownstream(REVIEW, remark);
        return;
      }
      ok := EndStage(open, labFailed, remark);
      if ok {
        ok := core.CancelDownstream(open + 1, remark);
      } else {
        CancelExtends(core.State(true), open + 1, remark);
      }
    }

    /** Project one observed lab state. */
    method ProjectState(o: Observation) returns (ok: bool)
      modifies core
      ensures core.State(!ok) == Project(old(core.State(false)), o)
      ensures ok && o.LabCancelled? ==>
        forall k: Stage :: core.graph.nodes[k] == CancelledNode(old(core.graph.nodes[k]), Because(o.reason))
      ensures o in {LabAwaitingApproval, LabUnknown} ==> ok && core.graph == old(core.graph)
      ensures ok && (o.LabBlocked? || o.LabFailed?) ==>
        forall k: Stage :: EXECUTION <= k ==> Ended(core.graph.nodes[k].status)
    {
      ok := true;
      match o
      case LabAwaitingApproval =>
      case LabApproved => ok := MarkCompleted(APPROVAL);
      case LabQueued =>
        ok := MarkCompleted(APPROVAL);
        if ok { ok := MarkReady(EXECUTION); }
      case LabExecuting =>
        ok := MarkCompleted(APPROVAL);
        if ok { ok := MarkRunning(EXECUTION); }
      case LabConsolidating =>
        ok := MarkEvidenceCompleted();
        if ok { ok := MarkRunning(VERIFICATION); }
      case LabCompleted =>
        ok := MarkEvidenceCompleted();
        if ok { ok := MarkCompleted(VERIFICATION); }
        if ok { ok := MarkReady(REVIEW); }
      case LabCancelled(reason) => ok := core.ProjectTerminal(Because(reason));
      case LabBlocked(reason) => ok := ProjectFailure(false, Because(reason));
      case LabFailed(reason) => ok := ProjectFailure(true, Because(reason));
      case LabUnknown =>
    }
  }
}
