/**
  The eight-stage task graph behind an assessment, and the guarded writes made on it.

  A projection loads the graph once and then writes one node at a time, each write naming the
  revision the previous one produced.  Once any other write lands, every further write of the
  projection is refused, because revisions only grow.  So all that can be stored of a
  projection is a prefix of its writes; `left` says how many of them still go through.
 */
module TaskGraph {
  import opened Common

  datatype Status = Pending | Ready | Running | WaitingForApproval | Paused | Blocked | Failed | Completed | Cancelled

  predicate Ended(status: Status) {
    status in {Blocked, Failed, Completed, Cancelled}
  }

  function NextStatuses(status: Status): set<Status> {
    match status
    case Pending => {Pending, Ready, Running, Blocked, Cancelled}
    case Ready => {Ready, Running, Paused, Cancelled}
    case Running => {Running, Ready, WaitingForApproval, Paused, Blocked, Failed, Completed, Cancelled}
    case WaitingForApproval => {WaitingForApproval, Running, Paused, Cancelled}
    case Paused => {Paused, Ready, Running, Cancelled}
    case _ => {}
  }

  // The stages in pipeline order.
  const AUTHORIZATION := 0
  const PLAN := 1
  const APPROVAL := 2
  const EXECUTION := 3
  const EVIDENCE := 4
  const VERIFICATION := 5
  const REVIEW := 6
  const REPORT := 7
  const STAGES := 8

  type Stage = i: nat | i < STAGES

  /** What a projection leaves in a node's error field. */
  datatype Remark =
    | NoRemark
    | Because(reason: string)
    | FailedSafe(reason: string)
    | Rework(verdict: string, receipt: string)
    | Retest(outcome: string, receipt: string, detail: Option<string>)
    | Review(approved: bool, outcome: string, receipt: string, detail: Option<string>)
    | Report(reportId: string, manifestId: string)

  datatype Node = Node(status: Status, attempts: nat, maximumAttempts: nat, lastError: Remark)

  datatype GraphData = GraphData(nodes: seq<Node>, revision: nat)

  type Graph = g: GraphData | |g.nodes| == STAGES
    witness GraphData(seq(STAGES, i => Node(Pending, 0, 1, NoRemark)), 0)

  function Candidate(node: Node, status: Status, remark: Remark): Node {
    node.(status := status, lastError := remark,
          attempts := node.attempts + if status == Running && node.status != Running then 1 else 0)
  }

  predicate Accepts(node: Node, status: Status) {
    && status in NextStatuses(node.status)
    && Candidate(node, status, NoRemark).attempts <= node.maximumAttempts
  }

  /** A projection under way; `failed` says it was aborted by an error. */
  datatype Session = Session(graph: Graph, left: nat, failed: bool)

  /** One guarded write of one node. */
  function Write(s: Session, i: Stage, status: Status, remark: Remark): Session {
    if s.failed then s
    else if s.left == 0 || !Accepts(s.graph.nodes[i], status) then Abort(s)
    else
      var nodes := s.graph.nodes[i := Candidate(s.graph.nodes[i], status, remark)];
      Session(GraphData(nodes, s.graph.revision + 1), s.left - 1, false)
  }

  function Abort(s: Session): Session {
    s.(failed := true)
  }

  /** Cancel every stage from `i` on that has not ended. */
  function CancelFrom(s: Session, i: nat, remark: Remark): Session
    requires i <= STAGES
    decreases STAGES - i
  {
    if i == STAGES then s
    else
      CancelFrom(if Ended(s.graph.nodes[i].status) then s else Write(s, i, Cancelled, remark), i + 1, remark)
  }

  /** A run stopped from outside. */
  function ProjectCancelled(s: Session, remark: Remark): Session {
    CancelFrom(s, 0, remark)
  }

  // ---------------------------------------------------------------- what every projection keeps

  /**
    Ended nodes are kept, no node is parked, attempts only grow and stay within their limit,
    and revisions count the changes.
   */
  ghost predicate Evolves(g: Graph, h: Graph) {
    && g.revision <= h.revision
    && (g.revision == h.revision ==> g == h)
    && forall i {:trigger g.nodes[i]} {:trigger h.nodes[i]} :: 0 <= i < STAGES ==> NodeEvolves(g.nodes[i], h.nodes[i])
  }

  /** A node waits for somebody else. */
  predicate Parked(status: Status) {
    status in {WaitingForApproval, Paused}
  }

  predicate NodeEvolves(a: Node, b: Node) {
    && (Ended(a.status) ==> a == b)
    && (Parked(b.status) ==> b.status == a.status)
    && a.maximumAttempts == b.maximumAttempts
    && a.attempts <= b.attempts && (b.attempts <= b.maximumAttempts || b.attempts == a.attempts)
  }

  ghost predicate WithinLimits(g: Graph) {
    forall i {:trigger g.nodes[i]} :: 0 <= i < STAGES ==> g.nodes[i].attempts <= g.nodes[i].maximumAttempts
  }

  /** A session only ever adds writes, at most as many as there are left. */
  ghost predicate Extends(s: Session, t: Session) {
    && Evolves(s.graph, t.graph)
    && t.graph.revision + t.left == s.graph.revision + s.left
    && (s.failed ==> t == s)
  }

  lemma ExtendsCompose(a: Session, b: Session, c: Session)
    requires Extends(a, b) && Extends(b, c)
    ensures Extends(a, c)
  {
  }

  lemma WriteExtends(s: Session, i: Stage, status: Status, remark: Remark)
    requires !Parked(status)
    ensures Extends(s, Write(s, i, status, remark))
  {
  }

  lemma {:induction false} CancelExtends(s: Session, i: nat, remark: Remark)
    requires i <= STAGES
    ensures Extends(s, CancelFrom(s, i, remark))
    decreases STAGES - i
  {
    if i < STAGES {
      var t := if Ended(s.graph.nodes[i].status) then s else Write(s, i, Cancelled, remark);
      WriteExtends(s, i, Cancelled, remark);
      CancelExtends(t, i + 1, remark);
      ExtendsCompose(s, t, CancelFrom(t, i + 1, remark));
    }
  }

  function CancelledNode(node: Node, remark: Remark): Node {
    if Ended(node.status) then node else node.(status := Cancelled, lastError := remark)
  }

  /** Cancellation reaches every stage from `i` on, unless its writes stop going through, and touches no other. */
  lemma {:induction false} CancelAt(s: Session, i: nat, remark: Remark, k: Stage)
    requires i <= STAGES && !s.failed
    ensures var t := CancelFrom(s, i, remark);
            var before, after := s.graph.nodes[k], t.graph.nodes[k];
      && (after == before || (k >= i && after == CancelledNode(before, remark)))
      && (k >= i && !t.failed ==> after == CancelledNode(before, remark))
    decreases STAGES - i
  {
    if i < STAGES {
      var t := if Ended(s.graph.nodes[i].status) then s else Write(s, i, Cancelled, remark);
      if t.failed {
        CancelExtends(t, i + 1, remark);
      } else {
        CancelAt(t, i + 1, remark, k);
      }
    }
  }

  lemma {:induction false} CancelHasRoom(s: Session, i: nat, remark: Remark)
    requires i <= STAGES && !s.failed && s.left >= STAGES - i && WithinLimits(s.graph)
    ensures !CancelFrom(s, i, remark).failed
    decreases STAGES - i
  {
    if i < STAGES {
      CancelHasRoom(if Ended(s.graph.nodes[i].status) then s else Write(s, i, Cancelled, remark), i + 1, remark);
    }
  }

  lemma {:induction false} NothingToCancel(s: Session, i: nat, remark: Remark)
    requires i <= STAGES && forall k: Stage {:trigger s.graph.nodes[k]} :: i <= k ==> Ended(s.graph.nodes[k].status)
    ensures CancelFrom(s, i, remark) == s
    decreases STAGES - i
  {
    if i < STAGES {
      NothingToCancel(s, i + 1, remark);
    }
  }

  // ---------------------------------------------------------------- one decision on the approval stage

  function ProjectApproval(s: Session, approved: bool, executionIntended: bool, reason: string): Session {
    var approval := s.graph.nodes[APPROVAL];
    if approved then
      if approval.status == WaitingForApproval then
        StartExecution(
          Write(Write(s, APPROVAL, Running, NoRemark), APPROVAL, Completed, NoRemark), executionIntended, reason)
      else if approval.status != Completed then Abort(s)
      else StartExecution(s, executionIntended, reason)
    else if approval.status == WaitingForApproval then
      CancelFrom(Write(s, APPROVAL, Cancelled, Because(reason)), EXECUTION, Because(reason))
    else if approval.status != Cancelled then Abort(s)
    else CancelFrom(s, EXECUTION, Because(reason))
  }

  function StartExecution(s: Session, executionIntended: bool, reason: string): Session {
    if Ended(s.graph.nodes[EXECUTION].status) then s
    else if executionIntended then Write(s, EXECUTION, Running, NoRemark)
    else Write(s, EXECUTION, Blocked, Because(reason))
  }

  /**
    A decision that went through closes the approval stage its way.  An approval starts or blocks
    the execution, a denial cancels every open stage from the execution on; nothing else moves.
   */
  lemma DecisionLeaves(s: Session, approved: bool, intended: bool, reason: string)
    requires !s.failed && !ProjectApproval(s, approved, intended, reason).failed
    ensures var g, h := s.graph, ProjectApproval(s, approved, intended, reason).graph;
      && h.nodes[APPROVAL].status == (if approved then Completed else Cancelled)
      && (forall i: Stage {:trigger h.nodes[i]} ::
            i < APPROVAL || (approved && i > EXECUTION) ==> h.nodes[i] == g.nodes[i])
      && (!approved ==>
            forall i: Stage {:trigger h.nodes[i]} ::
              i < EXECUTION || h.nodes[i] == CancelledNode(g.nodes[i], Because(reason)))
      && (approved ==>
            if Ended(g.nodes[EXECUTION].status) then h.nodes[EXECUTION] == g.nodes[EXECUTION]
            else if intended then h.nodes[EXECUTION].status == Running
            else h.nodes[EXECUTION].status == Blocked && h.nodes[EXECUTION].lastError == Because(reason))
  {
    if !approved {
      var u := if s.graph.nodes[APPROVAL].status == WaitingForApproval
          then Write(s, APPROVAL, Cancelled, Because(reason)) else s;
      if u.failed {
        CancelExtends(u, EXECUTION, Because(reason));
      }
      forall i: Stage
        ensures ProjectApproval(s, approved, intended, reason).graph.nodes[i] ==
                if i > APPROVAL then CancelledNode(s.graph.nodes[i], Because(reason)) else u.graph.nodes[i]
      {
        CancelAt(u, EXECUTION, Because(reason), i);
      }
    }
  }

  /** The graph takes the decision: it is still open or was decided the same way, and the execution can follow. */
  predicate Decidable(g: Graph, approved: bool, intended: bool) {
    var approval, execution := g.nodes[APPROVAL].status, g.nodes[EXECUTION].status;
    if !approved then approval in {WaitingForApproval, Cancelled}
    else
      && approval in {WaitingForApproval, Completed}
      && (execution in {Pending, Running} || Ended(execution)
          || (intended && execution in {Ready, WaitingForApproval, Paused}))
  }

  /** There are writes enough for any decision, and attempts for both stages it may start. */
  ghost predicate RoomToDecide(s: Session) {
    && !s.failed && s.left > STAGES && WithinLimits(s.graph)
    && s.graph.nodes[APPROVAL].attempts < s.graph.nodes[APPROVAL].maximumAttempts
    && s.graph.nodes[EXECUTION].attempts < s.graph.nodes[EXECUTION].maximumAttempts
  }

  /** With writes and attempts left a decision goes through exactly when the graph takes it. */
  lemma DecisionGoesThroughExactlyWhen(s: Session, approved: bool, intended: bool, reason: string)
    requires RoomToDecide(s)
    ensures !ProjectApproval(s, approved, intended, reason).failed <==> Decidable(s.graph, approved, intended)
  {
    if !approved {
      var u := if s.graph.nodes[APPROVAL].status == WaitingForApproval
          then Write(s, APPROVAL, Cancelled, Because(reason)) else s;
      CancelHasRoom(u, EXECUTION, Because(reason));
    }
  }

  /**
    A decision that went through excludes the opposite one for good: it is refused and writes
    nothing.  A denial that went through ends every later stage.
   */
  lemma DecisionsExclude(
      s: Session, approved: bool, intended: bool, reason: string, later: Session, intended': bool, reason': string)
    requires !s.failed && !ProjectApproval(s, approved, intended, reason).failed
    requires !later.failed && Evolves(ProjectApproval(s, approved, intended, reason).graph, later.graph)
    ensures ProjectApproval(later, !approved, intended', reason') == Abort(later)
    ensures !approved ==> forall i: Stage {:trigger later.graph.nodes[i]} :: APPROVAL <= i ==>
        Ended(later.graph.nodes[i].status)
  {
    var t := ProjectApproval(s, approved, intended, reason);
    DecisionLeaves(s, approved, intended, reason);
    assert NodeEvolves(t.graph.nodes[APPROVAL], later.graph.nodes[APPROVAL]);
    forall i: Stage | !approved && APPROVAL <= i
      ensures Ended(later.graph.nodes[i].status)
    {
      assert NodeEvolves(t.graph.nodes[i], later.graph.nodes[i]);
    }
  }

  // ---------------------------------------------------------------- the stored graph

  /**
    The stored graph and the writes made on it.  `left` is not known to the caller: it stands
    for the moment at which another writer, or the clock, makes the store refuse.
   */
  class GraphService {
    var graph: Graph
    var left: nat

    function State(failed: bool): Session
      reads this
    {
      Session(graph, left, failed)
    }

    constructor (graph: Graph, left: nat)
      ensures this.graph == graph && this.left == left
    {
      this.graph, this.left := graph, left;
    }

    /** Update one node's status; the answer is false when the store refuses. */
    method Transition(i: Stage, status: Status, remark: Remark) returns (ok: bool)
      modifies this
      ensures State(!ok) == Write(old(State(false)), i, status, remark)
    {
      var node := graph.nodes[i];
      ok := left > 0 && Accepts(node, status);
      if ok {
        graph := GraphData(graph.nodes[i := Candidate(node, status, remark)], graph.revision + 1);
        left := left - 1;
      }
    }

    /** Cancel whatever has not ended, from the starting stage on. */
    method CancelDownstream(start: Stage, remark: Remark) returns (ok: bool)
      modifies this
      ensures State(!ok) == CancelFrom(old(State(false)), start, remark)
      ensures forall i: Stage :: i < start ==> graph.nodes[i] == old(graph.nodes[i])
      ensures ok ==> forall i: Stage :: start <= i ==> graph.nodes[i] == CancelledNode(old(graph.nodes[i]), remark)
    {
      ghost var s := State(false);
      forall i: Stage
        ensures i < start ==> CancelFrom(s, start, remark).graph.nodes[i] == s.graph.nodes[i]
        ensures i >= start && !CancelFrom(s, start, remark).failed ==>
          CancelFrom(s, start, remark).graph.nodes[i] == CancelledNode(s.graph.nodes[i], remark)
      {
        CancelAt(s, start, remark, i);
      }
      ok := true;
      for i := start to STAGES
        invariant CancelFrom(State(!ok), i, remark) == CancelFrom(old(State(false)), start, remark)
        invariant ok
      {
        if !Ended(graph.nodes[i].status) {
          ok := Transition(i, Cancelled, remark);
          if !ok {
            CancelExtends(State(true), i + 1, remark);
            return;
          }
        }
      }
    }

    /** Project an approval decision. */
    method ProjectDecision(approved: bool, executionIntended: bool, reason: string) returns (ok: bool)
      modifies this
      ensures State(!ok) == ProjectApproval(old(State(false)), approved, executionIntended, reason)
      ensures ok ==>
        && graph.nodes[APPROVAL].status == (if approved then Completed else Cancelled)
        && (!approved ==> forall i: Stage :: EXECUTION <= i ==>
              graph.nodes[i] == CancelledNode(old(graph.nodes[i]), Because(reason)))
        && (approved && !old(Ended(graph.nodes[EXECUTION].status)) ==>
              graph.nodes[EXECUTION].status == if executionIntended then Running else Blocked)
      ensures RoomToDecide(old(State(false))) ==> (ok <==> Decidable(old(graph), approved, executionIntended))
    {
      ghost var s := State(false);
      if RoomToDecide(s) {
        DecisionGoesThroughExactlyWhen(s, approved, executionIntended, reason);
      }
      if !ProjectApproval(s, approved, executionIntended, reason).failed {
        DecisionLeaves(s, approved, executionIntended, reason);
      }
      ok := true;
      var approval := graph.nodes[APPROVAL];
      if approved {
        if approval.status == WaitingForApproval {
          ok := Transition(APPROVAL, Running, NoRemark);
          if ok {
            ok := Transition(APPROVAL, Completed, NoRemark);
          }
        } else if approval.status != Completed {
          return false;
        }
        if ok && !Ended(graph.nodes[EXECUTION].status) {
          if executionIntended {
            ok := Transition(EXECUTION, Running, NoRemark);
          } else {
            ok := Transition(EXECUTION, Blocked, Because(reason));
          }
        }
        return;
      }
      if approval.status == WaitingForApproval {
        ok := Transition(APPROVAL, Cancelled, Because(reason));
      } else if approval.status != Cancelled {
        return false;
      }
      if ok {
        ok := CancelDownstream(EXECUTION, Because(reason));
      } else {
        CancelExtends(State(true), EXECUTION, Because(reason));
      }
    }

    /** Cancel a whole run. */
    method ProjectTerminal(remark: Remark) returns (ok: bool)
      modifies this
      ensures State(!ok) == ProjectCancelled(old(State(false)), remark)
      ensures ok ==> forall i: Stage :: graph.nodes[i] == CancelledNode(old(graph.nodes[i]), remark)
    {
      ok := CancelDownstream(0, remark);
    }
  }
}
