/** Projecting receipts and decisions onto the task graph of a remediation. */
module Remediation {
  import opened Common
  import opened TaskGraph

  datatype State =
    | ReadyForImplementation | Interim | RemediationCancelled(reason: string) | RemediationFailed(reason: string)

  datatype Verdict = Fixed | NotFixed(verdict: string)

  datatype RetestResult = RetestPassed | RetestCancelled | RetestNotPassed(outcome: string)

  datatype Decision = ReviewApproved | ReviewNotApproved(outcome: string)

  datatype Op =
    | StateOp(state: State)
    | FixOp(receipt: string, verdict: Verdict)
    | RetestOp(receipt: string, result: RetestResult, detail: Option<string>)
    | ReviewOp(receipt: string, decision: Decision, detail: Option<string>)
    | ReportOp(reportId: string, manifestId: string)

  function ProjectState(s: Session, state: State): Session {
    match state
    case ReadyForImplementation =>
      if s.graph.nodes[EXECUTION].status == Pending then Write(s, EXECUTION, Ready, NoRemark) else s
    case Interim => s
    case RemediationCancelled(reason) => ProjectCancelled(s, Because(reason))
    case RemediationFailed(reason) =>
      var t := if Ended(s.graph.nodes[EXECUTION].status) then s else Write(s, EXECUTION, Cancelled, FailedSafe(reason));
      CancelFrom(t, EVIDENCE, FailedSafe(reason))
  }

  /** Bring a stage to an end by way of running; a stage that ended otherwise is an error. */
  function CompleteAttempt(s: Session, i: Stage): Session {
    var status := s.graph.nodes[i].status;
    if s.failed || status == Completed then s
    else if Ended(status) then Abort(s)
    else
      var t := if status in {Pending, Ready} then Write(s, i, Running, NoRemark) else s;
      if t.graph.nodes[i].status == Running then Write(t, i, Completed, NoRemark) else t
  }

  /** Send a stage back for another attempt. */
  function SendBack(s: Session, i: Stage, marker: Remark): Session {
    var status := s.graph.nodes[i].status;
    if s.failed then s
    else if Ended(status) then Abort(s)
    else
      var t := if status in {Pending, Ready} then Write(s, i, Running, NoRemark) else s;
      if t.graph.nodes[i].status == Running then Write(t, i, Ready, marker) else t
  }

  function ProjectFix(s: Session, receipt: string, verdict: Verdict): Session {
    var verification := s.graph.nodes[VERIFICATION];
    match verdict
    case Fixed =>
      if verification.status == Completed then s
      else CompleteAttempt(CompleteAttempt(CompleteAttempt(s, EXECUTION), EVIDENCE), VERIFICATION)
    case NotFixed(text) =>
      var marker := Rework(text, receipt);
      if verification.status == Ready && verification.lastError == marker then s
      else SendBack(SendBack(SendBack(s, EXECUTION, marker), EVIDENCE, marker), VERIFICATION, marker)
  }

  function ProjectRetest(s: Session, receipt: string, result: RetestResult, detail: Option<string>): Session {
    var review := s.graph.nodes[REVIEW];
    match result
    case RetestCancelled => s
    case RetestPassed =>
      if review.status == Completed then s
      else if review.status == Ready then
        if review.lastError.Review? then Write(Write(s, REVIEW, Running, NoRemark), REVIEW, Ready, NoRemark) else s
      else if review.status != Pending then Abort(s)
      else Write(s, REVIEW, Ready, NoRemark)
    case RetestNotPassed(outcome) =>
      if review.status == Cancelled && review.lastError.Retest?
         && review.lastError.outcome == outcome && review.lastError.receipt == receipt then s
      else if review.status != Pending then Abort(s)
      else CancelFrom(s, REVIEW, Retest(outcome, receipt, detail))
  }

  function ProjectReview(s: Session, receipt: string, decision: Decision, detail: Option<string>): Session {
    var review := s.graph.nodes[REVIEW];
    match decision
    case ReviewApproved =>
      var marker := Review(true, "", receipt, None);
      if review.status == Completed && review.lastError == marker then s
      else if review.status != Ready then Abort(s)
      else
        var t := Write(Write(s, REVIEW, Running, NoRemark), REVIEW, Completed, marker);
        if t.graph.nodes[REPORT].status == Pending then Write(t, REPORT, Ready, NoRemark) else t
    case ReviewNotApproved(outcome) =>
      if review.status == Ready && review.lastError == Review(false, outcome, receipt, None) then s
      else if review.status != Ready then Abort(s)
      else
        var t := Write(Write(s, REVIEW, Running, NoRemark), REVIEW, Ready, Review(false, outcome, receipt, detail));
        if s.graph.nodes[REPORT].status != Pending then Abort(t) else t
  }

  function ProjectReport(s: Session, reportId: string, manifestId: string): Session {
    var report := s.graph.nodes[REPORT];
    var marker := Report(reportId, manifestId);
    if report.status == Completed then (if report.lastError == marker then s else Abort(s))
    else if report.status != Ready then Abort(s)
    else Write(Write(s, REPORT, Running, NoRemark), REPORT, Completed, marker)
  }

  function Project(s: Session, op: Op): Session {
    match op
    case StateOp(state) => ProjectState(s, state)
    case FixOp(receipt, verdict) => ProjectFix(s, receipt, verdict)
    case RetestOp(receipt, result, detail) => ProjectRetest(s, receipt, result, detail)
    case ReviewOp(receipt, decision, detail) => ProjectReview(s, receipt, decision, detail)
    case ReportOp(reportId, manifestId) => ProjectReport(s, reportId, manifestId)
  }

  /** A graph created as ready for implementation. */
  function NewGraph(): Graph {
    GraphData(
      [Node(Completed, 0, 1, NoRemark), Node(Completed, 0, 1, NoRemark), Node(Completed, 0, 1, NoRemark),
       Node(Ready, 0, 10, NoRemark), Node(Pending, 0, 10, NoRemark), Node(Pending, 0, 10, NoRemark),
       Node(Pending, 0, 10, NoRemark), Node(Pending, 0, 1, NoRemark)], 0)
  }

  /** One call, and how many of its writes go through. */
  datatype Step = Step(op: Op, left: nat)

  function Run(g: Graph, steps: seq<Step>): Graph {
    if steps == [] then g
    else
      var last := steps[|steps| - 1];
      Project(Session(Run(g, steps[..|steps| - 1]), last.left, false), last.op).graph
  }

  // ---------------------------------------------------------------- review and report

  predicate PassesRetest(op: Op) { op.RetestOp? && op.result.RetestPassed? }

  predicate Approves(op: Op) { op.ReviewOp? && op.decision.ReviewApproved? }

  /** What one call can do to the review stage. */
  predicate ReviewMoves(op: Op, a: Status, b: Status) {
    || b == a
    || (b == Cancelled && !Ended(a))
    || (PassesRetest(op) && a in {Pending, Ready} && b in {Ready, Running})
    || (op.ReviewOp? && a == Ready && b == Running)
    || (Approves(op) && a == Ready && b == Completed)
  }

  /** What one call can do to the report stage, when the review stage ends up as `review`. */
  predicate ReportMoves(op: Op, review: Status, a: Status, b: Status) {
    || b == a
    || (b == Cancelled && !Ended(a))
    || (Approves(op) && a == Pending && b == Ready && review == Completed)
    || (op.ReportOp? && a == Ready && b in {Running, Completed})
  }

  ghost predicate GovernedMove(op: Op, g: Graph, h: Graph) {
    && ReviewMoves(op, g.nodes[REVIEW].status, h.nodes[REVIEW].status)
    && ReportMoves(op, h.nodes[REVIEW].status, g.nodes[REPORT].status, h.nodes[REPORT].status)
  }

  ghost predicate OnlyStage(s: Session, t: Session, i: Stage) {
    forall k: Stage {:trigger t.graph.nodes[k]} :: k != i ==> t.graph.nodes[k] == s.graph.nodes[k]
  }

  lemma AttemptsStayInTheirStage(s: Session, i: Stage, marker: Remark)
    ensures OnlyStage(s, CompleteAttempt(s, i), i) && OnlyStage(s, SendBack(s, i, marker), i)
  {
  }

  /** Calls about the fix leave review and report alone. */
  lemma FixLeavesReview(s: Session, receipt: string, verdict: Verdict, k: Stage)
    requires k == REVIEW || k == REPORT
    ensures ProjectFix(s, receipt, verdict).graph.nodes[k] == s.graph.nodes[k]
  {
    match verdict
    case Fixed =>
      AttemptsStayInTheirStage(s, EXECUTION, NoRemark);
      AttemptsStayInTheirStage(CompleteAttempt(s, EXECUTION), EVIDENCE, NoRemark);
      AttemptsStayInTheirStage(CompleteAttempt(CompleteAttempt(s, EXECUTION), EVIDENCE), VERIFICATION, NoRemark);
    case NotFixed(text) =>
      var marker := Rework(text, receipt);
      AttemptsStayInTheirStage(s, EXECUTION, marker);
      AttemptsStayInTheirStage(SendBack(s, EXECUTION, marker), EVIDENCE, marker);
      AttemptsStayInTheirStage(SendBack(SendBack(s, EXECUTION, marker), EVIDENCE, marker), VERIFICATION, marker);
  }

  lemma CancellingIsGoverned(s: Session, op: Op, i: Stage, remark: Remark)
    ensures GovernedMove(op, s.graph, CancelFrom(s, i, remark).graph)
  {
    if s.failed {
      CancelExtends(s, i, remark);
    } else {
      CancelAt(s, i, remark, REVIEW);
      CancelAt(s, i, remark, REPORT);
    }
  }

  lemma ProjectionIsGoverned(s: Session, op: Op)
    requires !s.failed
    ensures GovernedMove(op, s.graph, Project(s, op).graph)
  {
    match op
    case StateOp(RemediationCancelled(reason)) => CancellingIsGoverned(s, op, 0, Because(reason));
    case StateOp(RemediationFailed(reason)) =>
      var t := if Ended(s.graph.nodes[EXECUTION].status) then s else Write(s, EXECUTION, Cancelled, FailedSafe(reason));
      CancellingIsGoverned(t, op, EVIDENCE, FailedSafe(reason));
    case RetestOp(receipt, RetestNotPassed(outcome), detail) =>
      CancellingIsGoverned(s, op, REVIEW, Retest(outcome, receipt, detail));
    case FixOp(receipt, verdict) =>
      FixLeavesReview(s, receipt, verdict, REVIEW);
      FixLeavesReview(s, receipt, verdict, REPORT);
    case _ =>
  }

  // ---------------------------------------------------------------- what a report proves

  /** Some retest passed. */
  ghost predicate Retested(steps: seq<Step>) {
    exists i :: 0 <= i < |steps| && PassesRetest(steps[i].op)
  }

  /** After a passed retest, some review approved. */
  ghost predicate ReviewedAfterRetest(steps: seq<Step>) {
    exists j :: 0 <= j < |steps| && Approves(steps[j].op) && Retested(steps[..j])
  }

  /** After that, the report was generated. */
  ghost predicate ReportedAfterReview(steps: seq<Step>) {
    exists k :: 0 <= k < |steps| && steps[k].op.ReportOp? && ReviewedAfterRetest(steps[..k])
  }

  lemma HistoryGrows(steps: seq<Step>, last: Step)
    ensures var all := steps + [last];
      && (Retested(all) <==> Retested(steps) || PassesRetest(last.op))
      && (ReviewedAfterRetest(all) <==> ReviewedAfterRetest(steps) || (Approves(last.op) && Retested(steps)))
      && (ReportedAfterReview(all) <==> ReportedAfterReview(steps) || (last.op.ReportOp? && ReviewedAfterRetest(steps)))
  {
    var all := steps + [last];
    assert all[|steps|] == last && all[..|steps|] == steps;
    assert forall i :: 0 <= i < |steps| ==> all[i] == steps[i] && all[..i] == steps[..i];
  }

  ghost predicate Governed(g: Graph, steps: seq<Step>) {
    var review, report := g.nodes[REVIEW].status, g.nodes[REPORT].status;
    && review in {Pending, Ready, Running, Completed, Cancelled}
    && report in {Pending, Ready, Running, Completed, Cancelled}
    && (review in {Ready, Running, Completed} ==> Retested(steps))
    && (review == Completed ==> ReviewedAfterRetest(steps))
    && (report in {Ready, Running, Completed} ==> review == Completed)
    && (report == Completed ==> ReportedAfterReview(steps))
  }

  lemma {:induction false} RunsAreGoverned(steps: seq<Step>)
    ensures Governed(Run(NewGraph(), steps), steps)
  {
    if steps != [] {
      var before, last := steps[..|steps| - 1], steps[|steps| - 1];
      RunsAreGoverned(before);
      assert steps == before + [last];
      HistoryGrows(before, last);
      ProjectionIsGoverned(Session(Run(NewGraph(), before), last.left, false), last.op);
    }
  }

  /**
    Whatever is called, repeated or interrupted: a completed report comes from a history in
    which a retest passed, later a review approved, and later the report was generated; and a
    report stage that has moved at all stands behind a completed review.
   */
  lemma ReportsAreEarned(steps: seq<Step>)
    ensures var g := Run(NewGraph(), steps);
      && (g.nodes[REPORT].status in {Ready, Running, Completed} ==> g.nodes[REVIEW].status == Completed)
      && (g.nodes[REPORT].status == Completed ==>
            exists k, j, i :: 0 <= i < j < k < |steps|
              && PassesRetest(steps[i].op) && Approves(steps[j].op) && steps[k].op.ReportOp?)
  {
    RunsAreGoverned(steps);
    if Run(NewGraph(), steps).nodes[REPORT].status == Completed {
      var k :| 0 <= k < |steps| && steps[k].op.ReportOp? && ReviewedAfterRetest(steps[..k]);
      var j :| 0 <= j < k && Approves(steps[..k][j].op) && Retested(steps[..k][..j]);
      var i :| 0 <= i < j && PassesRetest(steps[..k][..j][i].op);
      assert steps[..k][..j][i] == steps[i] && steps[..k][j] == steps[j];
    }
  }

  /** Those three calls are also enough: nothing ties the report to the verification of the fix. */
  lemma VerificationIsNotRequired(receipt: string, reportId: string, manifestId: string)
    ensures var steps := [Step(RetestOp(receipt, RetestPassed, None), 3),
                          Step(ReviewOp(receipt, ReviewApproved, None), 3),
                          Step(ReportOp(reportId, manifestId), 3)];
            var g := Run(NewGraph(), steps);
      g.nodes[REPORT].status == Completed && g.nodes[VERIFICATION].status == Pending &&
          g.nodes[EXECUTION].status == Ready
  {
    var a, b, c := Step(RetestOp(receipt, RetestPassed, None), 3), Step(ReviewOp(receipt, ReviewApproved, None), 3),
                   Step(ReportOp(reportId, manifestId), 3);
    assert [a, b, c][..2] == [a, b] && [a, b][..1] == [a] && [a][..0] == [];
    var g0 := Project(Session(NewGraph(), 3, false), a.op).graph;
    var g1 := Project(Session(g0, 3, false), b.op).graph;
    assert Run(NewGraph(), [a]) == g0;
    assert Run(NewGraph(), [a, b]) == g1;
    assert g1.nodes[REPORT] == Node(Ready, 0, 1, NoRemark) && g1.nodes[VERIFICATION] == NewGraph().nodes[VERIFICATION];
  }

  // ---------------------------------------------------------------- interrupted approvals

  /** The review is closed and the report was never readied. */
  predicate Stranded(g: Graph) {
    g.nodes[REVIEW].status == Completed && g.nodes[REPORT].status in {Pending, Cancelled}
  }

  /**
    An approval of a ready review readies the report exactly when all three of its writes go
    through; interrupted before the last one, it strands the report.
   */
  lemma ApprovalReadiesReportExactlyWhen(s: Session, receipt: string, detail: Option<string>)
    requires !s.failed && s.graph.nodes[REVIEW].status == Ready && s.graph.nodes[REPORT].status == Pending
    requires WithinLimits(s.graph) && s.graph.nodes[REVIEW].attempts < s.graph.nodes[REVIEW].maximumAttempts
    ensures var t := Project(s, ReviewOp(receipt, ReviewApproved, detail)).graph;
      && (t.nodes[REPORT].status == Ready <==> s.left >= 3)
      && (Stranded(t) <==> s.left == 2)
  {
  }

  lemma StrandedStays(s: Session, op: Op)
    requires !s.failed && Stranded(s.graph)
    ensures Stranded(Project(s, op).graph)
  {
    ProjectionIsGoverned(s, op);
    if op.ReviewOp? && op.decision.ReviewApproved? {
      assert Project(s, op).graph == s.graph;
    }
  }

  /** A stranded report is never generated, however often the approval or the report is projected again. */
  lemma {:induction false} StrandedReportsStayStranded(g: Graph, steps: seq<Step>)
    requires Stranded(g)
    ensures Stranded(Run(g, steps))
  {
    if steps != [] {
      var before, last := steps[..|steps| - 1], steps[|steps| - 1];
      StrandedReportsStayStranded(g, before);
      StrandedStays(Session(Run(g, before), last.left, false), last.op);
    }
  }

  lemma RunOfTwo(g: Graph, a: Step, b: Step)
    ensures Run(g, [a]) == Project(Session(g, a.left, false), a.op).graph
    ensures Run(g, [a, b]) == Project(Session(Run(g, [a]), b.left, false), b.op).graph
  {
    assert [a][..0] == [] && [a, b][..1] == [a];
  }

  /** The branch is real: a passed retest, then an approval whose third write is refused. */
  lemma ApprovalCanStrand(receipt: string)
    ensures Stranded(Run(NewGraph(),
        [Step(RetestOp(receipt, RetestPassed, None), 1), Step(ReviewOp(receipt, ReviewApproved, None), 2)]))
  {
    var a, b := Step(RetestOp(receipt, RetestPassed, None), 1), Step(ReviewOp(receipt, ReviewApproved, None), 2);
    RunOfTwo(NewGraph(), a, b);
    assert Run(NewGraph(), [a]).nodes[REVIEW] == Node(Ready, 0, 10, NoRemark);
    ApprovalReadiesReportExactlyWhen(Session(Run(NewGraph(), [a]), 2, false), receipt, None);
  }

  // ---------------------------------------------------------------- repeated calls

  lemma AttemptExtends(s: Session, t: Session, i: Stage, marker: Remark)
    requires Extends(s, t)
    ensures Extends(s, CompleteAttempt(t, i)) && Extends(s, SendBack(t, i, marker))
  {
    WriteExtends(t, i, Running, NoRemark);
    var u := if t.graph.nodes[i].status in {Pending, Ready} then Write(t, i, Running, NoRemark) else t;
    WriteExtends(u, i, Completed, NoRemark);
    WriteExtends(u, i, Ready, marker);
    ExtendsCompose(s, t, u);
    ExtendsCompose(s, u, Write(u, i, Completed, NoRemark));
    ExtendsCompose(s, u, Write(u, i, Ready, marker));
    assert Extends(s, t.(failed := true));
  }

  lemma TwoWritesExtend(s: Session, i: Stage, status: Status, remark: Remark)
    requires !Parked(status)
    ensures Extends(s, Write(Write(s, i, Running, NoRemark), i, status, remark))
  {
  }

  lemma FixExtends(s: Session, receipt: string, verdict: Verdict)
    ensures Extends(s, ProjectFix(s, receipt, verdict))
  {
    match verdict
    case Fixed =>
      AttemptExtends(s, s, EXECUTION, NoRemark);
      AttemptExtends(s, CompleteAttempt(s, EXECUTION), EVIDENCE, NoRemark);
      AttemptExtends(s, CompleteAttempt(CompleteAttempt(s, EXECUTION), EVIDENCE), VERIFICATION, NoRemark);
    case NotFixed(text) =>
      var marker := Rework(text, receipt);
      AttemptExtends(s, s, EXECUTION, marker);
      AttemptExtends(s, SendBack(s, EXECUTION, marker), EVIDENCE, marker);
      AttemptExtends(s, SendBack(SendBack(s, EXECUTION, marker), EVIDENCE, marker), VERIFICATION, marker);
  }

  /** No call changes a stage that has ended, parks one, or exceeds its attempts. */
  lemma ProjectionExtends(s: Session, op: Op)
    requires !s.failed
    ensures Evolves(s.graph, Project(s, op).graph)
  {
    match op
    case StateOp(ReadyForImplementation) => WriteExtends(s, EXECUTION, Ready, NoRemark);
    case StateOp(Interim) =>
    case StateOp(RemediationCancelled(reason)) => CancelExtends(s, 0, Because(reason));
    case StateOp(RemediationFailed(reason)) =>
      var t := if Ended(s.graph.nodes[EXECUTION].status) then s else Write(s, EXECUTION, Cancelled, FailedSafe(reason));
      WriteExtends(s, EXECUTION, Cancelled, FailedSafe(reason));
      CancelExtends(t, EVIDENCE, FailedSafe(reason));
      ExtendsCompose(s, t, CancelFrom(t, EVIDENCE, FailedSafe(reason)));
    case FixOp(receipt, verdict) => FixExtends(s, receipt, verdict);
    case RetestOp(receipt, result, detail) =>
      WriteExtends(s, REVIEW, Ready, NoRemark);
      TwoWritesExtend(s, REVIEW, Ready, NoRemark);
      if result.RetestNotPassed? {
        CancelExtends(s, REVIEW, Retest(result.outcome, receipt, detail));
      }
    case ReviewOp(receipt, decision, detail) =>
      var marker := if decision.ReviewApproved?
          then Review(true, "", receipt, None) else Review(false, decision.outcome, receipt, detail);
      var status := if decision.ReviewApproved? then Completed else Ready;
      var t := Write(Write(s, REVIEW, Running, NoRemark), REVIEW, status, marker);
      TwoWritesExtend(s, REVIEW, status, marker);
      WriteExtends(t, REPORT, Ready, NoRemark);
      ExtendsCompose(s, t, Write(t, REPORT, Ready, NoRemark));
    case ReportOp(reportId, manifestId) => TwoWritesExtend(s, REPORT, Completed, Report(reportId, manifestId));
  }

  lemma {:induction false} RunsEvolve(g: Graph, steps: seq<Step>)
    ensures Evolves(g, Run(g, steps))
  {
    if steps != [] {
      var before, last := steps[..|steps| - 1], steps[|steps| - 1];
      RunsEvolve(g, before);
      ProjectionExtends(Session(Run(g, before), last.left, false), last.op);
    }
  }

  ghost predicate NothingParked(g: Graph) {
    forall i: Stage {:trigger g.nodes[i]} :: !Parked(g.nodes[i].status)
  }

  /** A decision against the fix that gives its reasons: its own marker hides that it has been recorded. */
  predicate ForgetsItself(g: Graph, op: Op) {
    && op.ReviewOp? && op.decision.ReviewNotApproved? && op.detail.Some?
    && g.nodes[REVIEW].lastError != Review(false, op.decision.outcome, op.receipt, None)
  }

  lemma RepeatedEnding(s: Session, i: Stage, remark: Remark, left: nat)
    requires !s.failed && !CancelFrom(s, i, remark).failed
    ensures var t := CancelFrom(s, i, remark);
      CancelFrom(Session(t.graph, left, false), i, remark) == Session(t.graph, left, false)
  {
    var t := CancelFrom(s, i, remark);
    forall k: Stage | i <= k
      ensures Ended(t.graph.nodes[k].status)
    {
      CancelAt(s, i, remark, k);
    }
    NothingToCancel(Session(t.graph, left, false), i, remark);
  }

  lemma RepeatedState(s: Session, state: State, left: nat)
    requires !s.failed && !ProjectState(s, state).failed
    ensures var g := ProjectState(s, state).graph;
      ProjectState(Session(g, left, false), state) == Session(g, left, false)
  {
    match state
    case RemediationCancelled(reason) => RepeatedEnding(s, 0, Because(reason), left);
    case RemediationFailed(reason) =>
      var remark := FailedSafe(reason);
      var t := if Ended(s.graph.nodes[EXECUTION].status) then s else Write(s, EXECUTION, Cancelled, remark);
      if t.failed {
        CancelExtends(t, EVIDENCE, remark);
        assert false;
      }
      RepeatedEnding(t, EVIDENCE, remark, left);
      CancelAt(t, EVIDENCE, remark, EXECUTION);
    case _ =>
  }

  /** An attempt that went through completes its stage, or hands it back with the marker. */
  lemma AttemptOutcome(s: Session, i: Stage, marker: Remark)
    requires !s.failed && !Parked(s.graph.nodes[i].status)
    ensures var t := CompleteAttempt(s, i); !t.failed ==> t.graph.nodes[i].status == Completed
    ensures var t := SendBack(s, i, marker);
      !t.failed ==> t.graph.nodes[i].status == Ready && t.graph.nodes[i].lastError == marker
  {
  }

  lemma RepeatedFix(s: Session, receipt: string, verdict: Verdict, left: nat)
    requires !s.failed && !Parked(s.graph.nodes[VERIFICATION].status) && !ProjectFix(s, receipt, verdict).failed
    ensures var g := ProjectFix(s, receipt, verdict).graph;
      ProjectFix(Session(g, left, false), receipt, verdict) == Session(g, left, false)
  {
    match verdict
    case Fixed =>
      var t := CompleteAttempt(s, EXECUTION);
      var u := CompleteAttempt(t, EVIDENCE);
      AttemptsStayInTheirStage(s, EXECUTION, NoRemark);
      AttemptsStayInTheirStage(t, EVIDENCE, NoRemark);
      if s.graph.nodes[VERIFICATION].status != Completed && !u.failed {
        AttemptOutcome(u, VERIFICATION, NoRemark);
      }
    case NotFixed(text) =>
      var marker := Rework(text, receipt);
      var t := SendBack(s, EXECUTION, marker);
      var u := SendBack(t, EVIDENCE, marker);
      AttemptsStayInTheirStage(s, EXECUTION, marker);
      AttemptsStayInTheirStage(t, EVIDENCE, marker);
      if !(s.graph.nodes[VERIFICATION].status == Ready && s.graph.nodes[VERIFICATION].lastError == marker) &&
          !u.failed {
        AttemptOutcome(u, VERIFICATION, marker);
      }
  }

  lemma RepeatedRetest(s: Session, receipt: string, result: RetestResult, detail: Option<string>, left: nat)
    requires !s.failed && !ProjectRetest(s, receipt, result, detail).failed
    ensures var g := ProjectRetest(s, receipt, result, detail).graph;
      ProjectRetest(Session(g, left, false), receipt, result, detail) == Session(g, left, false)
  {
    if result.RetestNotPassed? {
      var remark := Retest(result.outcome, receipt, detail);
      CancelAt(s, REVIEW, remark, REVIEW);
    }
  }

  lemma RepeatedReview(s: Session, receipt: string, decision: Decision, detail: Option<string>, left: nat)
    requires !s.failed && !ProjectReview(s, receipt, decision, detail).failed && left >= 2
    ensures var g := ProjectReview(s, receipt, decision, detail).graph;
            var again := ProjectReview(Session(g, left, false), receipt, decision, detail);
            var forgets := ForgetsItself(s.graph, ReviewOp(receipt, decision, detail));
      && (again == Session(g, left, false) <==> !forgets)
      && (forgets ==>
            if g.nodes[REVIEW].attempts < g.nodes[REVIEW].maximumAttempts
            then again.graph.nodes[REVIEW].attempts == g.nodes[REVIEW].attempts + 1
            else again == Abort(Session(g, left, false)))
  {
  }

  /**
    A call that went through can be repeated without effect, exactly unless it is a review
    decision against the fix that gives reasons; such a decision is recorded again on every
    repetition and spends another attempt, until the attempts are used up and it is an error.
   */
  lemma RepeatsChangeNothingExactlyWhen(s: Session, op: Op, left: nat)
    requires !s.failed && NothingParked(s.graph) && !Project(s, op).failed && left >= 2
    ensures var g := Project(s, op).graph;
            var again := Project(Session(g, left, false), op);
      && (again == Session(g, left, false) <==> !ForgetsItself(s.graph, op))
      && (ForgetsItself(s.graph, op) ==>
            if g.nodes[REVIEW].attempts < g.nodes[REVIEW].maximumAttempts
            then again.graph.nodes[REVIEW].attempts == g.nodes[REVIEW].attempts + 1
            else again == Abort(Session(g, left, false)))
  {
    match op
    case StateOp(state) => RepeatedState(s, state, left);
    case FixOp(receipt, verdict) => RepeatedFix(s, receipt, verdict, left);
    case RetestOp(receipt, result, detail) => RepeatedRetest(s, receipt, result, detail, left);
    case ReviewOp(receipt, decision, detail) => RepeatedReview(s, receipt, decision, detail, left);
    case ReportOp(_, _) =>
  }

  /** The branch is real: after a passed retest, the same decision recorded twice has spent two attempts. */
  lemma DecisionsCanForgetThemselves(receipt: string, outcome: string, reason: string)
    ensures var retest := Step(RetestOp(receipt, RetestPassed, None), 1);
            var decision := Step(ReviewOp(receipt, ReviewNotApproved(outcome), Some(reason)), 2);
      && ForgetsItself(Run(NewGraph(), [retest]), decision.op)
      && Run(NewGraph(), [retest, decision]).nodes[REVIEW].attempts == 1
      && Run(NewGraph(), [retest, decision, decision]).nodes[REVIEW].attempts == 2
  {
    var retest := Step(RetestOp(receipt, RetestPassed, None), 1);
    var decision := Step(ReviewOp(receipt, ReviewNotApproved(outcome), Some(reason)), 2);
    RunOfTwo(NewGraph(), retest, decision);
    var g := Run(NewGraph(), [retest]);
    assert g.nodes[REVIEW] == Node(Ready, 0, 10, NoRemark) && g.nodes[REPORT].status == Pending;
    var h := Run(NewGraph(), [retest, decision]);
    assert h.nodes[REVIEW] == Node(Ready, 1, 10, Review(false, outcome, receipt, Some(reason))) &&
        h.nodes[REPORT].status == Pending;
    assert [retest, decision, decision][..2] == [retest, decision];
  }

  // ---------------------------------------------------------------- the verification of the fix

  /** The call is a verdict that the fix works, and it went through. */
  predicate VerifiesFix(s: Session, op: Op) {
    op.FixOp? && op.verdict.Fixed? && !Project(s, op).failed
  }

  lemma FixedVerdictCompletes(s: Session, receipt: string)
    requires !s.failed && NothingParked(s.graph)
    ensures var t := ProjectFix(s, receipt, Fixed);
      t.graph.nodes[VERIFICATION].status == Completed <==> !t.failed
  {
    var t := CompleteAttempt(s, EXECUTION);
    var u := CompleteAttempt(t, EVIDENCE);
    AttemptsStayInTheirStage(s, EXECUTION, NoRemark);
    AttemptsStayInTheirStage(t, EVIDENCE, NoRemark);
    if s.graph.nodes[VERIFICATION].status != Completed && !u.failed {
      AttemptOutcome(u, VERIFICATION, NoRemark);
    }
  }

  lemma OtherCallsLeaveVerification(s: Session, op: Op)
    requires !s.failed && s.graph.nodes[VERIFICATION].status != Completed && !(op.FixOp? && op.verdict.Fixed?)
    ensures Project(s, op).graph.nodes[VERIFICATION].status != Completed
  {
    match op
    case StateOp(RemediationCancelled(reason)) => CancelAt(s, 0, Because(reason), VERIFICATION);
    case StateOp(RemediationFailed(reason)) =>
      var remark := FailedSafe(reason);
      var t := if Ended(s.graph.nodes[EXECUTION].status) then s else Write(s, EXECUTION, Cancelled, remark);
      if t.failed {
        CancelExtends(t, EVIDENCE, remark);
      } else {
        CancelAt(t, EVIDENCE, remark, VERIFICATION);
      }
    case RetestOp(receipt, RetestNotPassed(outcome), detail) =>
      CancelAt(s, REVIEW, Retest(outcome, receipt, detail), VERIFICATION);
    case FixOp(receipt, NotFixed(text)) =>
      var marker := Rework(text, receipt);
      AttemptsStayInTheirStage(s, EXECUTION, marker);
      AttemptsStayInTheirStage(SendBack(s, EXECUTION, marker), EVIDENCE, marker);
    case _ =>
  }

  lemma VerificationMoves(s: Session, op: Op)
    requires !s.failed && NothingParked(s.graph)
    ensures Project(s, op).graph.nodes[VERIFICATION].status == Completed
        <==> s.graph.nodes[VERIFICATION].status == Completed || VerifiesFix(s, op)
  {
    if op.FixOp? && op.verdict.Fixed? {
      FixedVerdictCompletes(s, op.receipt);
    } else if s.graph.nodes[VERIFICATION].status != Completed {
      OtherCallsLeaveVerification(s, op);
    } else {
      ProjectionExtends(s, op);
    }
  }

  /** The call at this point of the history verified the fix. */
  predicate VerifiedAt(steps: seq<Step>, i: nat) {
    i < |steps| && VerifiesFix(Session(Run(NewGraph(), steps[..i]), steps[i].left, false), steps[i].op)
  }

  lemma EarlierCallsAgree(steps: seq<Step>, n: nat, i: nat)
    requires i < n <= |steps|
    ensures VerifiedAt(steps[..n], i) == VerifiedAt(steps, i)
  {
    assert steps[..n][..i] == steps[..i];
  }

  lemma StepVerifies(g: Graph, step: Step, h: Graph)
    requires NothingParked(g) && h == Project(Session(g, step.left, false), step.op).graph
    ensures (h.nodes[VERIFICATION].status == Completed)
        <==> (g.nodes[VERIFICATION].status == Completed || VerifiesFix(Session(g, step.left, false), step.op))
  {
    VerificationMoves(Session(g, step.left, false), step.op);
  }

  lemma RunsParkNothing(steps: seq<Step>)
    ensures NothingParked(Run(NewGraph(), steps))
  {
    RunsEvolve(NewGraph(), steps);
  }

  /**
    The verification of the fix is completed exactly when some verdict that the fix works went
    through at its point in the history.  In particular this says which completed reports rest
    on a verified fix.
   */
  lemma {:induction false} VerifiedExactlyWhen(steps: seq<Step>)
    ensures Run(NewGraph(), steps).nodes[VERIFICATION].status == Completed <==> exists i: nat :: VerifiedAt(steps, i)
  {
    if steps == [] {
      assert forall i: nat :: !VerifiedAt(steps, i);
    } else {
      var n := |steps| - 1;
      VerifiedExactlyWhen(steps[..n]);
      RunsParkNothing(steps[..n]);
      StepVerifies(Run(NewGraph(), steps[..n]), steps[n], Run(NewGraph(), steps));
      forall i: nat | i < n
        ensures VerifiedAt(steps[..n], i) == VerifiedAt(steps, i)
      {
        EarlierCallsAgree(steps, n, i);
      }
      assert forall i: nat :: VerifiedAt(steps[..n], i) ==> i < n;
      assert forall i: nat :: VerifiedAt(steps, i) ==> i <= n;
      assert VerifiedAt(steps, n) <==>
          VerifiesFix(Session(Run(NewGraph(), steps[..n]), steps[n].left, false), steps[n].op);
    }
  }

  // ---------------------------------------------------------------- what a successful call leaves

  /** Everything but these stages is as it was. */
  ghost predicate OnlyStages(g: Graph, h: Graph, stages: set<int>) {
    forall k: Stage {:trigger h.nodes[k]} :: k !in stages ==> h.nodes[k] == g.nodes[k]
  }

  lemma CancellationReaches(s: Session, i: Stage, remark: Remark)
    requires !s.failed && !CancelFrom(s, i, remark).failed
    ensures forall k: Stage {:trigger CancelFrom(s, i, remark).graph.nodes[k]} ::
      if k >= i then Ended(CancelFrom(s, i, remark).graph.nodes[k].status)
      else CancelFrom(s, i, remark).graph.nodes[k] == s.graph.nodes[k]
  {
    forall k: Stage
      ensures k >= i ==> Ended(CancelFrom(s, i, remark).graph.nodes[k].status)
      ensures k < i ==> CancelFrom(s, i, remark).graph.nodes[k] == s.graph.nodes[k]
    {
      CancelAt(s, i, remark, k);
    }
  }

  /**
    A cancelled remediation ends every open stage with its reason, a failed one every open stage from
    the execution on; nothing else moves.
   */
  lemma StateLeaves(s: Session, state: State)
    requires !s.failed && !ProjectState(s, state).failed
    ensures var h := ProjectState(s, state).graph;
      match state
      case RemediationCancelled(reason) =>
        forall k: Stage {:trigger h.nodes[k]} :: h.nodes[k] == CancelledNode(s.graph.nodes[k], Because(reason))
      case RemediationFailed(reason) =>
        forall k: Stage {:trigger h.nodes[k]} ::
          h.nodes[k] == if k < EXECUTION then s.graph.nodes[k]
                        else CancelledNode(s.graph.nodes[k], FailedSafe(reason))
      case ReadyForImplementation => h.nodes[EXECUTION].status != Pending
      case Interim => h == s.graph
  {
    match state
    case RemediationCancelled(reason) =>
      forall k: Stage
        ensures ProjectState(s, state).graph.nodes[k] == CancelledNode(s.graph.nodes[k], Because(reason))
      {
        CancelAt(s, 0, Because(reason), k);
      }
    case RemediationFailed(reason) =>
      var remark := FailedSafe(reason);
      var t := if Ended(s.graph.nodes[EXECUTION].status) then s else Write(s, EXECUTION, Cancelled, remark);
      if t.failed {
        CancelExtends(t, EVIDENCE, remark);
      }
      forall k: Stage
        ensures ProjectState(s, state).graph.nodes[k] ==
                if k < EXECUTION then s.graph.nodes[k] else CancelledNode(s.graph.nodes[k], remark)
      {
        CancelAt(t, EVIDENCE, remark, k);
      }
    case _ =>
  }

  /**
    A verdict touches the three stages of the fix, and leaves the verification completed or handed
    back with its marker.
   */
  lemma FixLeaves(s: Session, receipt: string, verdict: Verdict)
    requires !s.failed && !Parked(s.graph.nodes[VERIFICATION].status) && !ProjectFix(s, receipt, verdict).failed
    ensures var h := ProjectFix(s, receipt, verdict).graph;
      && OnlyStages(s.graph, h, {EXECUTION, EVIDENCE, VERIFICATION})
      && match verdict
         case Fixed => h.nodes[VERIFICATION].status == Completed
         case NotFixed(text) =>
           && h.nodes[VERIFICATION].status == Ready
           && h.nodes[VERIFICATION].lastError == Rework(text, receipt)
  {
    match verdict
    case Fixed =>
      var t := CompleteAttempt(s, EXECUTION);
      var u := CompleteAttempt(t, EVIDENCE);
      AttemptsStayInTheirStage(s, EXECUTION, NoRemark);
      AttemptsStayInTheirStage(t, EVIDENCE, NoRemark);
      AttemptsStayInTheirStage(u, VERIFICATION, NoRemark);
      if s.graph.nodes[VERIFICATION].status != Completed && !u.failed {
        AttemptOutcome(u, VERIFICATION, NoRemark);
      }
    case NotFixed(text) =>
      var marker := Rework(text, receipt);
      var t := SendBack(s, EXECUTION, marker);
      var u := SendBack(t, EVIDENCE, marker);
      AttemptsStayInTheirStage(s, EXECUTION, marker);
      AttemptsStayInTheirStage(t, EVIDENCE, marker);
      AttemptsStayInTheirStage(u, VERIFICATION, marker);
      if !(s.graph.nodes[VERIFICATION].status == Ready && s.graph.nodes[VERIFICATION].lastError == marker) &&
          !u.failed {
        AttemptOutcome(u, VERIFICATION, marker);
      }
  }

  const FIX_STAGES := {EXECUTION, EVIDENCE, VERIFICATION}

  /** Every stage of the fix is completed. */
  predicate FixCompleted(g: Graph) {
    && g.nodes[EXECUTION].status == Completed && g.nodes[EVIDENCE].status == Completed
    && g.nodes[VERIFICATION].status == Completed
  }

  /** Every stage of the fix waits for another attempt, with the marker. */
  predicate FixSentBack(g: Graph, marker: Remark) {
    && g.nodes[EXECUTION].status == Ready && g.nodes[EXECUTION].lastError == marker
    && g.nodes[EVIDENCE].status == Ready && g.nodes[EVIDENCE].lastError == marker
    && g.nodes[VERIFICATION].status == Ready && g.nodes[VERIFICATION].lastError == marker
  }

  /** A verdict that goes through completes all three stages of the fix, or sends them back; or it was known. */
  lemma FixLeavesAllStages(s: Session, receipt: string, verdict: Verdict)
    requires !s.failed && NothingParked(s.graph) && !ProjectFix(s, receipt, verdict).failed
    ensures var h, verification := ProjectFix(s, receipt, verdict).graph, s.graph.nodes[VERIFICATION];
      match verdict
      case Fixed => if verification.status == Completed then h == s.graph else FixCompleted(h)
      case NotFixed(text) =>
        if verification.status == Ready && verification.lastError == Rework(text, receipt) then h == s.graph
        else FixSentBack(h, Rework(text, receipt))
  {
    match verdict
    case Fixed =>
      var t := CompleteAttempt(s, EXECUTION);
      var u := CompleteAttempt(t, EVIDENCE);
      AttemptsStayInTheirStage(s, EXECUTION, NoRemark);
      AttemptsStayInTheirStage(t, EVIDENCE, NoRemark);
      AttemptsStayInTheirStage(u, VERIFICATION, NoRemark);
      if s.graph.nodes[VERIFICATION].status != Completed {
        AttemptOutcome(s, EXECUTION, NoRemark);
        AttemptOutcome(t, EVIDENCE, NoRemark);
        AttemptOutcome(u, VERIFICATION, NoRemark);
      }
    case NotFixed(text) =>
      var marker := Rework(text, receipt);
      var t := SendBack(s, EXECUTION, marker);
      var u := SendBack(t, EVIDENCE, marker);
      AttemptsStayInTheirStage(s, EXECUTION, marker);
      AttemptsStayInTheirStage(t, EVIDENCE, marker);
      AttemptsStayInTheirStage(u, VERIFICATION, marker);
      if !(s.graph.nodes[VERIFICATION].status == Ready && s.graph.nodes[VERIFICATION].lastError == marker) {
        AttemptOutcome(s, EXECUTION, marker);
        AttemptOutcome(t, EVIDENCE, marker);
        AttemptOutcome(u, VERIFICATION, marker);
      }
  }

  /** The stage is open, waits for nobody, and has an attempt left or is in one. */
  predicate CanTry(node: Node) {
    && node.status in {Pending, Ready, Running} && node.attempts <= node.maximumAttempts
    && (node.status == Running || node.attempts < node.maximumAttempts)
  }

  lemma AttemptHasRoom(s: Session, i: Stage, marker: Remark)
    requires !s.failed && s.left >= 2 && CanTry(s.graph.nodes[i])
    ensures !CompleteAttempt(s, i).failed && CompleteAttempt(s, i).left + 2 >= s.left
    ensures !SendBack(s, i, marker).failed && SendBack(s, i, marker).left + 2 >= s.left
  {
  }

  /** With enough writes and attempts left and no stage of the fix ended, any verdict goes through. */
  lemma FixGoesThrough(s: Session, receipt: string, verdict: Verdict)
    requires !s.failed && s.left >= 6 && forall k: Stage :: k in FIX_STAGES ==> CanTry(s.graph.nodes[k])
    ensures !ProjectFix(s, receipt, verdict).failed
  {
    match verdict
    case Fixed =>
      var t := CompleteAttempt(s, EXECUTION);
      AttemptHasRoom(s, EXECUTION, NoRemark);
      AttemptsStayInTheirStage(s, EXECUTION, NoRemark);
      AttemptHasRoom(t, EVIDENCE, NoRemark);
      AttemptsStayInTheirStage(t, EVIDENCE, NoRemark);
      AttemptHasRoom(CompleteAttempt(t, EVIDENCE), VERIFICATION, NoRemark);
    case NotFixed(text) =>
      var marker := Rework(text, receipt);
      var t := SendBack(s, EXECUTION, marker);
      AttemptHasRoom(s, EXECUTION, marker);
      AttemptsStayInTheirStage(s, EXECUTION, marker);
      AttemptHasRoom(t, EVIDENCE, marker);
      AttemptsStayInTheirStage(t, EVIDENCE, marker);
      AttemptHasRoom(SendBack(t, EVIDENCE, marker), VERIFICATION, marker);
  }

  lemma VerificationBringsTheOthers(g: Graph, step: Step, h: Graph)
    requires NothingParked(g) && h == Project(Session(g, step.left, false), step.op).graph
    requires g.nodes[VERIFICATION].status == Completed ==> FixCompleted(g)
    ensures h.nodes[VERIFICATION].status == Completed ==> FixCompleted(h)
  {
    var s := Session(g, step.left, false);
    StepVerifies(g, step, h);
    if g.nodes[VERIFICATION].status == Completed {
      ProjectionExtends(s, step.op);
    } else if VerifiesFix(s, step.op) {
      FixLeavesAllStages(s, step.op.receipt, Fixed);
    }
  }

  /** In every run a completed verification stands behind a completed execution and completed evidence. */
  lemma {:induction false} VerificationComesLast(steps: seq<Step>)
    ensures var g := Run(NewGraph(), steps); g.nodes[VERIFICATION].status == Completed ==> FixCompleted(g)
  {
    if steps != [] {
      var n := |steps| - 1;
      VerificationComesLast(steps[..n]);
      RunsParkNothing(steps[..n]);
      VerificationBringsTheOthers(Run(NewGraph(), steps[..n]), steps[n], Run(NewGraph(), steps));
    }
  }

  /** A retest opens the review, or ends it and the report; nothing else moves. */
  lemma RetestLeaves(s: Session, receipt: string, result: RetestResult, detail: Option<string>)
    requires !s.failed && !ProjectRetest(s, receipt, result, detail).failed
    ensures var h := ProjectRetest(s, receipt, result, detail).graph;
      && OnlyStages(s.graph, h, {REVIEW, REPORT})
      && match result
         case RetestCancelled => h == s.graph
         case RetestPassed =>
           && h.nodes[REVIEW].status in {Ready, Completed} && h.nodes[REPORT] == s.graph.nodes[REPORT]
           && (h.nodes[REVIEW].status == Ready ==> !h.nodes[REVIEW].lastError.Review?)
         case RetestNotPassed(_) =>
           && h.nodes[REVIEW].status == Cancelled
           && (h == s.graph
               || h.nodes[REPORT] == CancelledNode(s.graph.nodes[REPORT], Retest(result.outcome, receipt, detail)))
  {
    if result.RetestNotPassed? && s.graph.nodes[REVIEW].status == Pending {
      CancellationReaches(s, REVIEW, Retest(result.outcome, receipt, detail));
      CancelAt(s, REVIEW, Retest(result.outcome, receipt, detail), REVIEW);
      CancelAt(s, REVIEW, Retest(result.outcome, receipt, detail), REPORT);
    }
  }

  // ---------------------------------------------------------------- which calls go through

  /** Every stage has ended or can be tried, and there are writes enough for any call. */
  ghost predicate HasRoom(s: Session) {
    && !s.failed && s.left >= STAGES
    && forall k: Stage {:trigger s.graph.nodes[k]} :: WithinNode(s.graph.nodes[k])
  }

  predicate WithinNode(node: Node) {
    node.attempts <= node.maximumAttempts && (Ended(node.status) || CanTry(node))
  }

  /** The graph takes the call: the stages it is about are where the call expects them, or it is a repetition. */
  predicate Welcome(g: Graph, op: Op) {
    var review, report := g.nodes[REVIEW], g.nodes[REPORT];
    match op
    case StateOp(_) => true
    case FixOp(receipt, verdict) =>
      var verification := g.nodes[VERIFICATION];
      (match verdict
       case Fixed =>
         || verification.status == Completed
         || forall k: Stage :: k in FIX_STAGES ==> g.nodes[k].status !in {Blocked, Failed, Cancelled}
       case NotFixed(text) =>
         || (verification.status == Ready && verification.lastError == Rework(text, receipt))
         || forall k: Stage :: k in FIX_STAGES ==> !Ended(g.nodes[k].status))
    case RetestOp(receipt, result, _) =>
      (match result
       case RetestCancelled => true
       case RetestPassed => review.status in {Pending, Ready, Completed}
       case RetestNotPassed(outcome) =>
         || review.status == Pending
         || (review.status == Cancelled && review.lastError.Retest?
               && review.lastError.outcome == outcome && review.lastError.receipt == receipt))
    case ReviewOp(receipt, decision, _) =>
      (match decision
       case ReviewApproved =>
         review.status == Ready
         || (review.status == Completed && review.lastError == Review(true, "", receipt, None))
       case ReviewNotApproved(outcome) =>
         review.status == Ready
         && (report.status == Pending || review.lastError == Review(false, outcome, receipt, None)))
    case ReportOp(reportId, manifestId) =>
      || report.status == Ready
      || (report.status == Completed && report.lastError == Report(reportId, manifestId))
  }

  lemma StatesGoThrough(s: Session, state: State)
    requires HasRoom(s)
    ensures !ProjectState(s, state).failed
  {
    assert WithinNode(s.graph.nodes[EXECUTION]);
    match state
    case RemediationCancelled(reason) => CancelHasRoom(s, 0, Because(reason));
    case RemediationFailed(reason) =>
      var t := if Ended(s.graph.nodes[EXECUTION].status) then s
               else Write(s, EXECUTION, Cancelled, FailedSafe(reason));
      CancelHasRoom(t, EVIDENCE, FailedSafe(reason));
    case _ =>
  }

  lemma FixesGoThroughExactlyWhen(s: Session, receipt: string, verdict: Verdict)
    requires HasRoom(s)
    ensures !ProjectFix(s, receipt, verdict).failed <==> Welcome(s.graph, FixOp(receipt, verdict))
  {
    assert WithinNode(s.graph.nodes[EXECUTION]) && WithinNode(s.graph.nodes[EVIDENCE]);
    assert WithinNode(s.graph.nodes[VERIFICATION]);
    assert FIX_STAGES == {EXECUTION, EVIDENCE, VERIFICATION};
    match verdict
    case Fixed =>
      var t := CompleteAttempt(s, EXECUTION);
      AttemptStands(s, EXECUTION, NoRemark);
      AttemptStands(t, EVIDENCE, NoRemark);
      AttemptStands(CompleteAttempt(t, EVIDENCE), VERIFICATION, NoRemark);
    case NotFixed(text) =>
      var marker := Rework(text, receipt);
      var t := SendBack(s, EXECUTION, marker);
      AttemptStands(s, EXECUTION, marker);
      AttemptStands(t, EVIDENCE, marker);
      AttemptStands(SendBack(t, EVIDENCE, marker), VERIFICATION, marker);
  }

  /** With room one stage is completed unless it ended otherwise, or sent back unless it ended at all. */
  lemma AttemptStands(s: Session, i: Stage, marker: Remark)
    ensures var t := CompleteAttempt(s, i);
      && (s.failed ==> t.failed)
      && (!s.failed && s.left >= 2 && WithinNode(s.graph.nodes[i]) ==>
            && (t.failed <==> s.graph.nodes[i].status in {Blocked, Failed, Cancelled})
            && (!t.failed ==> t.left + 2 >= s.left && t.graph.nodes == s.graph.nodes[i := t.graph.nodes[i]]))
    ensures var t := SendBack(s, i, marker);
      && (s.failed ==> t.failed)
      && (!s.failed && s.left >= 2 && WithinNode(s.graph.nodes[i]) ==>
            && (t.failed <==> Ended(s.graph.nodes[i].status))
            && (!t.failed ==> t.left + 2 >= s.left && t.graph.nodes == s.graph.nodes[i := t.graph.nodes[i]]))
  {
  }

  lemma RetestsGoThroughExactlyWhen(s: Session, receipt: string, result: RetestResult, detail: Option<string>)
    requires HasRoom(s)
    ensures !ProjectRetest(s, receipt, result, detail).failed <==> Welcome(s.graph, RetestOp(receipt, result, detail))
  {
    assert WithinNode(s.graph.nodes[REVIEW]);
    if result.RetestNotPassed? {
      CancelHasRoom(s, REVIEW, Retest(result.outcome, receipt, detail));
    }
  }

  lemma ReviewsGoThroughExactlyWhen(s: Session, receipt: string, decision: Decision, detail: Option<string>)
    requires HasRoom(s)
    ensures !ProjectReview(s, receipt, decision, detail).failed
        <==> Welcome(s.graph, ReviewOp(receipt, decision, detail))
  {
    assert WithinNode(s.graph.nodes[REVIEW]) && WithinNode(s.graph.nodes[REPORT]);
  }

  /** With writes and attempts left a call goes through exactly when the graph takes it. */
  lemma GoesThroughExactlyWhen(s: Session, op: Op)
    requires HasRoom(s)
    ensures !Project(s, op).failed <==> Welcome(s.graph, op)
  {
    match op
    case StateOp(state) => StatesGoThrough(s, state);
    case FixOp(receipt, verdict) => FixesGoThroughExactlyWhen(s, receipt, verdict);
    case RetestOp(receipt, result, detail) => RetestsGoThroughExactlyWhen(s, receipt, result, detail);
    case ReviewOp(receipt, decision, detail) => ReviewsGoThroughExactlyWhen(s, receipt, decision, detail);
    case ReportOp(_, _) => assert WithinNode(s.graph.nodes[REPORT]);
  }

  // ---------------------------------------------------------------- the stored projection

  /** The projection service over one stored graph; every answer of false is a raised error. */
  class Remediation {
    const core: GraphService

    constructor (core: GraphService)
      ensures this.core == core
    {
      this.core := core;
    }

    method TwoTransitions(i: Stage, status: Status, remark: Remark) returns (ok: bool)
      modifies core
      ensures core.State(!ok) == Write(Write(old(core.State(false)), i, Running, NoRemark), i, status, remark)
    {
      ok := core.Transition(i, Running, NoRemark);
      if ok {
        ok := core.Transition(i, status, remark);
      }
    }

    method ProjectState(state: State) returns (ok: bool)
      modifies core
      ensures core.State(!ok) == Project(old(core.State(false)), StateOp(state))
      ensures ok && state.RemediationCancelled? ==>
        forall k: Stage :: core.graph.nodes[k] == CancelledNode(old(core.graph.nodes[k]), Because(state.reason))
      ensures ok && state.RemediationFailed? ==>
        forall k: Stage ::
          core.graph.nodes[k] == if k < EXECUTION then old(core.graph.nodes[k])
                                 else CancelledNode(old(core.graph.nodes[k]), FailedSafe(state.reason))
      ensures ok && state.ReadyForImplementation? ==>
        && OnlyStages(old(core.graph), core.graph, {EXECUTION})
        && core.graph.nodes[EXECUTION].status ==
             if old(core.graph.nodes[EXECUTION].status) == Pending then Ready
             else old(core.graph.nodes[EXECUTION].status)
      ensures ok && state.Interim? ==> core.graph == old(core.graph)
      ensures HasRoom(old(core.State(false))) ==> (ok <==> Welcome(old(core.graph), StateOp(state)))
    {
      if HasRoom(core.State(false)) {
        GoesThroughExactlyWhen(core.State(false), StateOp(state));
      }
      ghost var s := core.State(false);
      if !Project(s, StateOp(state)).failed {
        StateLeaves(s, state);
      }
      ok := true;
      var execution := core.graph.nodes[EXECUTION];
      match state
      case ReadyForImplementation =>
        if execution.status == Pending {
          ok := core.Transition(EXECUTION, Ready, NoRemark);
        }
      case Interim =>
      case RemediationCancelled(reason) => ok := core.ProjectTerminal(Because(reason));
      case RemediationFailed(reason) =>
        if !Ended(execution.status) {
          ok := core.Transition(EXECUTION, Cancelled, FailedSafe(reason));
        }
        if ok {
          ok := core.CancelDownstream(EVIDENCE, FailedSafe(reason));
        } else {
          CancelExtends(core.State(true), EVIDENCE, FailedSafe(reason));
        }
    }

    method CompleteAttemptStage(i: Stage) returns (ok: bool)
      modifies core
      ensures core.State(!ok) == CompleteAttempt(old(core.State(false)), i)
      ensures ok && !Parked(old(core.graph.nodes[i].status)) ==> core.graph.nodes[i].status == Completed
      ensures OnlyStages(old(core.graph), core.graph, {i})
    {
      ok := true;
      var status := core.graph.nodes[i].status;
      if status == Completed {
        return;
      }
      if Ended(status) {
        return false;
      }
      if status in {Pending, Ready} {
        ok := core.Transition(i, Running, NoRemark);
      }
      if ok && core.graph.nodes[i].status == Running {
        ok := core.Transition(i, Completed, NoRemark);
      }
    }

    method SendStageBack(i: Stage, marker: Remark) returns (ok: bool)
      modifies core
      ensures core.State(!ok) == SendBack(old(core.State(false)), i, marker)
      ensures ok && !Parked(old(core.graph.nodes[i].status)) ==>
        core.graph.nodes[i].status == Ready && core.graph.nodes[i].lastError == marker
      ensures OnlyStages(old(core.graph), core.graph, {i})
    {
      ok := true;
      var status := core.graph.nodes[i].status;
      if Ended(status) {
        return false;
      }
      if status in {Pending, Ready} {
        ok := core.Transition(i, Running, NoRemark);
      }
      if ok && core.graph.nodes[i].status == Running {
        ok := core.Transition(i, Ready, marker);
      }
    }

    method ProjectFixVerification(receipt: string, verdict: Verdict) returns (ok: bool)
      modifies core
      ensures core.State(!ok) == Project(old(core.State(false)), FixOp(receipt, verdict))
      ensures ok && !Parked(old(core.graph.nodes[VERIFICATION].status)) ==>
        && OnlyStages(old(core.graph), core.graph, {EXECUTION, EVIDENCE, VERIFICATION})
        && match verdict
           case Fixed => core.graph.nodes[VERIFICATION].status == Completed
           case NotFixed(text) =>
             core.graph.nodes[VERIFICATION].status == Ready &&
                 core.graph.nodes[VERIFICATION].lastError == Rework(text, receipt)
      ensures ok && NothingParked(old(core.graph)) ==>
        var verification := old(core.graph.nodes[VERIFICATION]);
        match verdict
        case Fixed =>
          if verification.status == Completed then core.graph == old(core.graph) else FixCompleted(core.graph)
        case NotFixed(text) =>
          if verification.status == Ready && verification.lastError == Rework(text, receipt) then
            core.graph == old(core.graph)
          else FixSentBack(core.graph, Rework(text, receipt))
      ensures old(core.left) >= 6 && (forall k: Stage :: k in FIX_STAGES ==> old(CanTry(core.graph.nodes[k]))) ==> ok
      ensures HasRoom(old(core.State(false))) ==> (ok <==> Welcome(old(core.graph), FixOp(receipt, verdict)))
    {
      if HasRoom(core.State(false)) {
        GoesThroughExactlyWhen(core.State(false), FixOp(receipt, verdict));
      }
      ghost var s := core.State(false);
      if NothingParked(s.graph) && !ProjectFix(s, receipt, verdict).failed {
        FixLeavesAllStages(s, receipt, verdict);
      }
      if s.left >= 6 && forall k: Stage :: k in FIX_STAGES ==> CanTry(s.graph.nodes[k]) {
        FixGoesThrough(s, receipt, verdict);
      }
      if !Parked(s.graph.nodes[VERIFICATION].status) && !ProjectFix(s, receipt, verdict).failed {
        FixLeaves(s, receipt, verdict);
      }
      var verification := core.graph.nodes[VERIFICATION];
      match verdict
      case Fixed =>
        if verification.status == Completed {
          return true;
        }
        ok := CompleteAttemptStage(EXECUTION);
        if ok {
          ok := CompleteAttemptStage(EVIDENCE);
        }
        if ok {
          ok := CompleteAttemptStage(VERIFICATION);
        }
      case NotFixed(text) =>
        var marker := Rework(text, receipt);
        if verification.status == Ready && verification.lastError == marker {
          return true;
        }
        ok := SendStageBack(EXECUTION, marker);
        if ok {
          ok := SendStageBack(EVIDENCE, marker);
        }
        if ok {
          ok := SendStageBack(VERIFICATION, marker);
        }
    }

    method ProjectRetestOutcome(receipt: string, result: RetestResult, detail: Option<string>) returns (ok: bool)
      modifies core
      ensures core.State(!ok) == Project(old(core.State(false)), RetestOp(receipt, result, detail))
      ensures ok ==>
        && OnlyStages(old(core.graph), core.graph, {REVIEW, REPORT})
        && match result
           case RetestCancelled => core.graph == old(core.graph)
           case RetestPassed =>
             && core.graph.nodes[REVIEW].status in {Ready, Completed}
             && (core.graph.nodes[REVIEW].status == Ready ==> !core.graph.nodes[REVIEW].lastError.Review?)
           case RetestNotPassed(_) =>
             && core.graph.nodes[REVIEW].status == Cancelled
             && (core.graph == old(core.graph)
                 || core.graph.nodes[REPORT] ==
                      CancelledNode(old(core.graph.nodes[REPORT]), Retest(result.outcome, receipt, detail)))
      ensures HasRoom(old(core.State(false))) ==> (ok <==> Welcome(old(core.graph), RetestOp(receipt, result, detail)))
    {
      if HasRoom(core.State(false)) {
        GoesThroughExactlyWhen(core.State(false), RetestOp(receipt, result, detail));
      }
      ghost var s := core.State(false);
      if !ProjectRetest(s, receipt, result, detail).failed {
        RetestLeaves(s, receipt, result, detail);
      }
      var review := core.graph.nodes[REVIEW];
      match result
      case RetestCancelled => ok := true;
      case RetestPassed =>
        if review.status == Completed {
          return true;
        }
        if review.status == Ready {
          ok := true;
          if review.lastError.Review? {
            ok := TwoTransitions(REVIEW, Ready, NoRemark);
          }
          return;
        }
        if review.status != Pending {
          return false;
        }
        ok := core.Transition(REVIEW, Ready, NoRemark);
      case RetestNotPassed(outcome) =>
        if review.status == Cancelled && review.lastError.Retest?
           && review.lastError.outcome == outcome && review.lastError.receipt == receipt {
          return true;
        }
        if review.status != Pending {
          return false;
        }
        ok := core.CancelDownstream(REVIEW, Retest(outcome, receipt, detail));
    }

    method ProjectReviewDecision(receipt: string, decision: Decision, detail: Option<string>) returns (ok: bool)
      modifies core
      ensures core.State(!ok) == Project(old(core.State(false)), ReviewOp(receipt, decision, detail))
      ensures OnlyStages(old(core.graph), core.graph, {REVIEW, REPORT})
      ensures ok ==>
        var review := core.graph.nodes[REVIEW];
        match decision
        case ReviewApproved => review.status == Completed && review.lastError == Review(true, "", receipt, None)
        case ReviewNotApproved(outcome) =>
          && review.status == Ready
          && review.lastError in {Review(false, outcome, receipt, detail), Review(false, outcome, receipt, None)}
      ensures ok && decision.ReviewApproved? && old(core.graph.nodes[REVIEW].status) == Ready ==>
        core.graph.nodes[REPORT].status != Pending
      ensures HasRoom(old(core.State(false))) ==>
        (ok <==> Welcome(old(core.graph), ReviewOp(receipt, decision, detail)))
    {
      if HasRoom(core.State(false)) {
        GoesThroughExactlyWhen(core.State(false), ReviewOp(receipt, decision, detail));
      }
      var review, report := core.graph.nodes[REVIEW], core.graph.nodes[REPORT];
      match decision
      case ReviewApproved =>
        var marker := Review(true, "", receipt, None);
        if review.status == Completed && review.lastError == marker {
          return true;
        }
        if review.status != Ready {
          return false;
        }
        ok := TwoTransitions(REVIEW, Completed, marker);
        if ok && core.graph.nodes[REPORT].status == Pending {
          ok := core.Transition(REPORT, Ready, NoRemark);
        }
      case ReviewNotApproved(outcome) =>
        if review.status == Ready && review.lastError == Review(false, outcome, receipt, None) {
          return true;
        }
        if review.status != Ready {
          return false;
        }
        ok := TwoTransitions(REVIEW, Ready, Review(false, outcome, receipt, detail));
        if ok && report.status != Pending {
          ok := false;
        }
    }

    method ProjectReportGeneration(reportId: string, manifestId: string) returns (ok: bool)
      modifies core
      ensures core.State(!ok) == Project(old(core.State(false)), ReportOp(reportId, manifestId))
      ensures OnlyStages(old(core.graph), core.graph, {REPORT})
      ensures ok ==>
        && core.graph.nodes[REPORT].status == Completed
        && core.graph.nodes[REPORT].lastError == Report(reportId, manifestId)
      ensures HasRoom(old(core.State(false))) ==> (ok <==> Welcome(old(core.graph), ReportOp(reportId, manifestId)))
    {
      if HasRoom(core.State(false)) {
        GoesThroughExactlyWhen(core.State(false), ReportOp(reportId, manifestId));
      }
      var report := core.graph.nodes[REPORT];
      var marker := Report(reportId, manifestId);
      if report.status == Completed {
        return report.lastError == marker;
      }
      if report.status != Ready {
        return false;
      }
      ok := TwoTransitions(REPORT, Completed, marker);
    }
  }
}
