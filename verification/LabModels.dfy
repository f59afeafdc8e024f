/**
  Models of the controlled simulation lab: the plan that is approved, the record that is
  stored, the changes one save makes, and when a run of trials may stop.
 */
module LabModels {
  import opened Common

  datatype LabState =
    | AwaitingApproval | Approved | Queued | Provisioning | Running | Evaluating | Cleaning
    | Completed | Cancelled | Blocked | Failed

  predicate TerminalState(state: LabState) {
    state in {Completed, Cancelled, Blocked, Failed}
  }

  /** A worker owns the run. */
  predicate Executing(state: LabState) {
    state in {Provisioning, Running, Evaluating, Cleaning}
  }

  /** No worker has seen the run yet. */
  predicate Unclaimed(state: LabState) {
    state in {AwaitingApproval, Approved, Queued}
  }

  datatype TrialOutcome = Confirmed | NotReproduced | Inconclusive | TrialCancelled | TrialFailed

  datatype LabResult = ResultConfirmed | ResultInconclusive | FailedClosed

  datatype LabScenario = LabScenario(scenarioId: string, version: string, variations: seq<string>)

  datatype LabPlan = LabPlan(
    labId: string, assessmentId: string, findingReference: string, authorizationId: string, targetReference: string,
    scenarioId: string, scenarioVersion: string, requestedBy: string, requestedAt: int,
    maximumTrials: nat, minimumTrials: nat, requiredConfirmations: nat,
    perTrialTimeout: nat, totalTimeout: nat, variations: seq<string>, planDigest: string)

  datatype LabTrial = LabTrial(number: nat, variation: string, outcome: TrialOutcome, startedAt: int, completedAt: int)

  /** The trials stored so far and the counters kept beside them. */
  datatype Progress = Progress(confirmed: nat, inconclusive: nat, failed: nat, trials: seq<LabTrial>)

  datatype LabRecord = LabRecord(
    plan: LabPlan, state: LabState,
    approvedBy: Option<string>, approvedPlanDigest: Option<string>, queuedBy: Option<string>,
    currentTrial: nat, progress: Progress,
    cancellationRequested: bool, cancellationReason: Option<string>,
    cleanupVerified: bool, result: Option<LabResult>,
    startedAt: Option<int>, completedAt: Option<int>, updatedAt: int, revision: nat)
  {
    predicate IsTerminal() { TerminalState(state) }
  }

  // ---------------------------------------------------------------- plans

  /** What the plan model accepts. */
  predicate TrialPolicy(p: LabPlan) {
    && 1 <= p.minimumTrials <= p.maximumTrials <= 10
    && 1 <= p.requiredConfirmations <= p.maximumTrials
    && p.maximumTrials <= |p.variations| <= 10
  }

  /** The digest of everything in the plan but the digest itself. */
  function Fingerprint(digest: LabPlan -> string, p: LabPlan): string {
    digest(p.(planDigest := ""))
  }

  function Least(a: nat, b: nat): nat { if a < b then a else b }

  /** The signed plan for a scenario, or nothing when the model rejects it. */
  function CreatePlan(
      digest: LabPlan -> string, draft: LabPlan, scenario: LabScenario, maximumTrials: int): Option<LabPlan>
  {
    if maximumTrials < 1 || maximumTrials > 10 || scenario.variations == [] then None
    else
      var provisional := draft.(
        scenarioId := scenario.scenarioId, scenarioVersion := scenario.version,
        maximumTrials := maximumTrials,
        minimumTrials := Least(3, maximumTrials), requiredConfirmations := Least(2, maximumTrials),
        variations := Cycled(scenario.variations, maximumTrials));
      Some(provisional.(planDigest := Fingerprint(digest, provisional)))
  }

  /** `n` items, taken round and round. */
  function Cycled(items: seq<string>, n: nat): seq<string>
    requires items != []
  {
    seq(n, i requires 0 <= i < n => items[i % |items|])
  }

  lemma CycledItems(items: seq<string>, n: nat)
    requires items != []
    ensures forall v :: v in Cycled(items, n) ==> v in items
    ensures n >= |items| ==> forall v :: v in items ==> v in Cycled(items, n)
  {
    var cycled := Cycled(items, n);
    forall v | v in cycled
      ensures v in items
    {
      var i :| 0 <= i < n && cycled[i] == v;
      var k := i % |items|;
      assert items[k] == v;
    }
    if n >= |items| {
      forall v | v in items
        ensures v in cycled
      {
        var i :| 0 <= i < |items| && items[i] == v;
        SmallRemainder(i, |items|);
        assert cycled[i] == v;
      }
    }
  }

  lemma SmallRemainder(i: nat, n: nat)
    requires i < n
    ensures i % n == i
  {
  }

  /** Created plans ask for three trials and two confirmations, or for all there are. */
  lemma CreatedPlansAskFor(digest: LabPlan -> string, draft: LabPlan, scenario: LabScenario, maximumTrials: int)
    requires CreatePlan(digest, draft, scenario, maximumTrials).Some?
    ensures var p := CreatePlan(digest, draft, scenario, maximumTrials).value;
      && p.maximumTrials == maximumTrials
      && p.minimumTrials == (if maximumTrials < 3 then maximumTrials else 3)
      && p.requiredConfirmations == (if maximumTrials < 2 then maximumTrials else 2)
      && p.labId == draft.labId && p.requestedBy == draft.requestedBy
  {
  }

  /** Created plans pass the trial policy, carry one variation per trial, and are signed as they stand. */
  lemma CreatedPlansAreSigned(digest: LabPlan -> string, draft: LabPlan, scenario: LabScenario, maximumTrials: int)
    ensures var p := CreatePlan(digest, draft, scenario, maximumTrials);
            && (p.Some? <==> 1 <= maximumTrials <= 10 && scenario.variations != [])
            && (p.Some? ==>
                  && TrialPolicy(p.value) && |p.value.variations| == p.value.maximumTrials
                  && p.value.planDigest == Fingerprint(digest, p.value)
                  && (forall v :: v in p.value.variations ==> v in scenario.variations)
                  && (maximumTrials >= |scenario.variations| ==>
                        forall v :: v in scenario.variations ==> v in p.value.variations))
  {
    var p := CreatePlan(digest, draft, scenario, maximumTrials);
    if p.Some? {
      CycledItems(scenario.variations, maximumTrials);
      assert p.value.(planDigest := "") == p.value.(planDigest := draft.planDigest).(planDigest := "");
    }
  }

  function NewRecord(plan: LabPlan, now: int): LabRecord {
    LabRecord(plan, AwaitingApproval, None, None, None, 0, Progress(0, 0, 0, []), false, None, false, None, None,
        None, now, 1)
  }

  // ---------------------------------------------------------------- what one save writes

  function Stamped(changed: LabRecord, now: int): LabRecord {
    changed.(updatedAt := now, revision := changed.revision + 1)
  }

  predicate MayApprove(digest: LabPlan -> string, r: LabRecord, actor: string) {
    r.state == AwaitingApproval && actor != r.plan.requestedBy && r.plan.planDigest == Fingerprint(digest, r.plan)
  }

  function WithApproval(r: LabRecord, actor: string): LabRecord {
    r.(state := Approved, approvedBy := Some(actor), approvedPlanDigest := Some(r.plan.planDigest))
  }

  predicate MayQueue(r: LabRecord) {
    r.state == Approved && r.approvedPlanDigest == Some(r.plan.planDigest)
  }

  function WithQueuer(r: LabRecord, actor: string): LabRecord {
    r.(state := Queued, queuedBy := Some(actor))
  }

  function Claimed(r: LabRecord, now: int): LabRecord {
    r.(state := Provisioning, startedAt := if r.startedAt.Some? then r.startedAt else Some(now))
  }

  /** A request to stop ends an unclaimed run at once and marks a running one. */
  function WithCancellation(r: LabRecord, reason: string, now: int): LabRecord {
    var ends := Unclaimed(r.state);
    r.(state := if ends then Cancelled else r.state,
       cancellationRequested := true, cancellationReason := Some(reason),
       completedAt := if ends then Some(now) else r.completedAt)
  }

  function WithState(r: LabRecord, state: LabState): LabRecord {
    r.(state := state)
  }

  function WithTrialBegun(r: LabRecord, n: nat): LabRecord {
    r.(state := Running, currentTrial := n)
  }

  function WithTrial(r: LabRecord, t: LabTrial): LabRecord {
    r.(progress := AddTrial(r.progress, t))
  }

  function AddTrial(g: Progress, t: LabTrial): Progress {
    Progress(
      g.confirmed + (if t.outcome == Confirmed then 1 else 0),
      g.inconclusive + (if t.outcome == Inconclusive then 1 else 0),
      g.failed + (if t.outcome == TrialFailed then 1 else 0),
      g.trials + [t])
  }

  function WithResult(r: LabRecord, result: LabResult, now: int): LabRecord {
    r.(state := Completed, cleanupVerified := true, result := Some(result), completedAt := Some(now))
  }

  function StoppedEarly(r: LabRecord, cleanup: bool, now: int): LabRecord {
    r.(state := Cancelled, cleanupVerified := cleanup, completedAt := Some(now))
  }

  function ClosedByFailure(r: LabRecord, cleanup: bool, now: int): LabRecord {
    r.(state := Failed, cleanupVerified := cleanup, result := Some(FailedClosed), completedAt := Some(now))
  }

  // ---------------------------------------------------------------- when trials may stop

  function Tally(trials: seq<LabTrial>, outcome: TrialOutcome): nat {
    if trials == [] then 0
    else Tally(trials[..|trials| - 1], outcome) + if trials[|trials| - 1].outcome == outcome then 1 else 0
  }

  lemma TallyGrows(trials: seq<LabTrial>, t: LabTrial, outcome: TrialOutcome)
    ensures Tally(trials + [t], outcome) == Tally(trials, outcome) + if t.outcome == outcome then 1 else 0
  {
    assert (trials + [t])[..|trials|] == trials;
  }

  /** Enough trials ran and enough of them confirmed the finding. */
  predicate Enough(p: LabPlan, trials: seq<LabTrial>) {
    |trials| >= p.minimumTrials && Tally(trials, Confirmed) >= p.requiredConfirmations
  }

  /** No shorter run of the same trials was enough. */
  ghost predicate NoneSooner(p: LabPlan, trials: seq<LabTrial>) {
    forall k {:trigger TooSoon(p, trials, k)} :: TooSoon(p, trials, k)
  }

  predicate TooSoon(p: LabPlan, trials: seq<LabTrial>, k: int) {
    0 <= k < |trials| ==> !Enough(p, trials[..k])
  }

  /** The checks a worker makes before it touches the runner. */
  predicate Bound(digest: LabPlan -> string, r: LabRecord) {
    && r.plan.planDigest == Fingerprint(digest, r.plan)
    && r.approvedPlanDigest == Some(r.plan.planDigest)
    && r.approvedBy.Some? && r.approvedBy.value != r.plan.requestedBy
  }

  /** What the synthetic scenario runner answers for trial `n`: it echoes number and variation, and refuses to go on. */
  predicate Echoes(p: LabPlan, n: nat, t: LabTrial) {
    1 <= n <= p.maximumTrials <= |p.variations| && t.number == n && t.variation == p.variations[n - 1]
  }

  /** The trials are numbered from one and follow the plan's variations. */
  predicate Numbered(p: LabPlan, trials: seq<LabTrial>) {
    forall i :: 0 <= i < |trials| ==> Echoes(p, i + 1, trials[i])
  }

  predicate Tallied(g: Progress) {
    && g.confirmed == Tally(g.trials, Confirmed)
    && g.inconclusive == Tally(g.trials, Inconclusive)
    && g.failed == Tally(g.trials, TrialFailed)
  }

  /** What holds of the stored trials at any time. */
  ghost predicate ProgressOk(p: LabPlan, g: Progress) {
    TrialPolicy(p) && |g.trials| <= |p.variations| && Tallied(g) && NoneSooner(p, g.trials)
  }

  /** The trials stopped exactly when they should: at the first sufficient run, or after all of them. */
  predicate StoppedRight(p: LabPlan, g: Progress) {
    Enough(p, g.trials) || |g.trials| == |p.variations|
  }

  /** What the state says about the rest of the record. */
  ghost predicate StateFits(digest: LabPlan -> string, r: LabRecord) {
    var n := |r.progress.trials|;
    && n <= r.currentTrial <= n + 1 && r.currentTrial <= |r.plan.variations|
    && (Unclaimed(r.state) ==> n == r.currentTrial == 0 && !r.cancellationRequested)
    && (r.state == Provisioning ==> n == r.currentTrial == 0)
    && (Executing(r.state) ==> r.startedAt.Some?)
    && (r.state in {Approved, Queued} || Executing(r.state) || r.currentTrial > 0 || r.state == Completed ==>
        Bound(digest, r))
    && (r.state in {Evaluating, Cleaning, Completed} ==> StoppedRight(r.plan, r.progress))
    && (r.state == Completed ==> r.cleanupVerified && r.result == Some(ResultOf(r.plan, r.progress)))
  }

  /** What holds of every stored record. */
  ghost predicate Sound(digest: LabPlan -> string, r: LabRecord) {
    ProgressOk(r.plan, r.progress) && StateFits(digest, r)
  }

  function ResultOf(p: LabPlan, g: Progress): LabResult {
    if g.confirmed >= p.requiredConfirmations then ResultConfirmed else ResultInconclusive
  }

  /** The worker is about to run trial `n`. */
  predicate BeforeTrial(r: LabRecord, n: nat) {
    r.state == Running && |r.progress.trials| == n - 1 && r.currentTrial == n - 1 &&
        !Enough(r.plan, r.progress.trials) && n <= |r.plan.variations|
  }

  /** Trial `n` has been announced in the record and not been stored yet. */
  predicate InTrial(r: LabRecord, n: nat) {
    r.state == Running && |r.progress.trials| == n - 1 && r.currentTrial == n &&
        !Enough(r.plan, r.progress.trials) && n <= |r.plan.variations|
  }

  /** The worker may consolidate. */
  predicate AfterTrials(r: LabRecord) {
    r.state == Running && StoppedRight(r.plan, r.progress)
  }

  lemma NewRecordIsSound(digest: LabPlan -> string, plan: LabPlan, now: int)
    requires TrialPolicy(plan)
    ensures Sound(digest, NewRecord(plan, now))
  {
  }

  /** A stored trial, whatever it says, either ends the run, or leads to the next one, or used up the plan. */
  lemma TrialKeepsSound(digest: LabPlan -> string, r: LabRecord, n: nat, t: LabTrial)
    requires Sound(digest, r) && n >= 1 && InTrial(r, n)
    ensures var after := WithTrial(r, t);
            && Sound(digest, after)
            && if Enough(r.plan, after.progress.trials) || n == |r.plan.variations| then AfterTrials(after)
               else BeforeTrial(after, n + 1)
    ensures Numbered(r.plan, r.progress.trials) && Echoes(r.plan, n, t) ==>
      Numbered(r.plan, WithTrial(r, t).progress.trials)
  {
    var trials, after := r.progress.trials, r.progress.trials + [t];
    TallyGrows(trials, t, Confirmed);
    TallyGrows(trials, t, Inconclusive);
    TallyGrows(trials, t, TrialFailed);
    forall k
      ensures TooSoon(r.plan, after, k)
    {
      assert TooSoon(r.plan, trials, k);
      if k == |trials| {
        assert after[..k] == trials;
      } else if 0 <= k < |trials| {
        assert after[..k] == trials[..k];
      }
    }
  }

  lemma ClaimKeepsSound(digest: LabPlan -> string, r: LabRecord, now: int)
    requires Sound(digest, r)
    ensures r.state == Queued ==> Sound(digest, Claimed(r, now))
    ensures r.state == Provisioning ==> Sound(digest, WithState(r, Running)) && BeforeTrial(WithState(r, Running), 1)
  {
  }

  lemma CancellationKeepsSound(digest: LabPlan -> string, r: LabRecord, reason: string, now: int)
    requires Sound(digest, r) && !r.IsTerminal()
    ensures Sound(digest, WithCancellation(r, reason, now))
  {
  }

  lemma TrialBegunKeepsSound(digest: LabPlan -> string, r: LabRecord, n: nat)
    requires Sound(digest, r) && BeforeTrial(r, n)
    ensures Sound(digest, WithTrialBegun(r, n)) && InTrial(WithTrialBegun(r, n), n)
  {
  }

  lemma ClosingKeepsSound(digest: LabPlan -> string, r: LabRecord, now: int, cleanup: bool)
    requires Sound(digest, r)
    ensures AfterTrials(r) ==> Sound(digest, WithState(r, Evaluating))
    ensures r.state == Evaluating ==> Sound(digest, WithState(r, Cleaning))
    ensures r.state == Cleaning ==> Sound(digest, WithResult(r, ResultOf(r.plan, r.progress), now))
    ensures !Unclaimed(r.state) ==>
        Sound(digest, StoppedEarly(r, cleanup, now)) && Sound(digest, ClosedByFailure(r, cleanup, now))
  {
  }

  lemma HumanSavesKeepSound(digest: LabPlan -> string, r: LabRecord, actor: string)
    requires Sound(digest, r)
    ensures MayApprove(digest, r, actor) ==> Sound(digest, WithApproval(r, actor))
    ensures MayQueue(r) ==> Sound(digest, WithQueuer(r, actor))
  {
  }

  lemma StampKeepsSound(digest: LabPlan -> string, r: LabRecord, now: int)
    requires Sound(digest, r)
    ensures Sound(digest, Stamped(r, now))
  {
  }

  /**
    A completed lab: its counters count its trials, an independent actor approved this very
    plan, and the run stopped at the first point where enough trials had confirmed the finding,
    or else ran every trial of the plan and is inconclusive.  When the trials are numbered, as
    the runner's answers make them, every trial of the plan is the plan's maximum.
   */
  lemma CompletedLabStoppedRight(digest: LabPlan -> string, r: LabRecord)
    requires Sound(digest, r) && r.state == Completed
    ensures Tallied(r.progress) && Bound(digest, r) && r.cleanupVerified
    ensures r.result == Some(ResultConfirmed) || r.result == Some(ResultInconclusive)
    ensures var p, trials := r.plan, r.progress.trials;
      r.result == Some(ResultConfirmed) ==>
        && p.minimumTrials <= |trials| && p.requiredConfirmations <= Tally(trials, Confirmed)
        && forall k :: p.minimumTrials <= k < |trials| ==> Tally(trials[..k], Confirmed) < p.requiredConfirmations
    ensures var p, trials := r.plan, r.progress.trials;
      r.result == Some(ResultInconclusive) ==>
        && |trials| == |p.variations| && (Numbered(p, trials) ==> |trials| == p.maximumTrials)
        && forall k :: p.minimumTrials <= k <= |trials| ==> Tally(trials[..k], Confirmed) < p.requiredConfirmations
  {
    var p, trials := r.plan, r.progress.trials;
    assert trials[..|trials|] == trials;
    assert Numbered(p, trials) && trials != [] ==> Echoes(p, |trials|, trials[|trials| - 1]);
    forall k | p.minimumTrials <= k < |trials|
      ensures Tally(trials[..k], Confirmed) < p.requiredConfirmations
    {
      assert TooSoon(p, trials, k);
    }
  }

  /**
    A lab of a created plan that completed as confirmed ran three trials with two confirmations
    at least, or all the plan has; and no shorter run of its trials would have been enough.
   */
  lemma ConfirmedLabsRanEnough(
      digest: LabPlan -> string, draft: LabPlan, scenario: LabScenario, maximumTrials: int, r: LabRecord)
    requires CreatePlan(digest, draft, scenario, maximumTrials) == Some(r.plan)
    requires Sound(digest, r) && r.state == Completed && r.result == Some(ResultConfirmed)
    ensures var trials, most := r.progress.trials, maximumTrials;
      && (|trials| >= 3 || |trials| == most) && |trials| <= most
      && (Tally(trials, Confirmed) >= 2 || most == 1 == Tally(trials, Confirmed))
      && forall k :: 0 <= k < |trials| && (k >= 3 || k >= most) ==> Tally(trials[..k], Confirmed) < 2
  {
    CreatedPlansAskFor(digest, draft, scenario, maximumTrials);
    CreatedPlansAreSigned(digest, draft, scenario, maximumTrials);
    CompletedLabStoppedRight(digest, r);
    if maximumTrials == 1 {
      TallyAtMost(r.progress.trials, Confirmed);
    }
  }

  lemma {:induction false} TallyAtMost(trials: seq<LabTrial>, outcome: TrialOutcome)
    ensures Tally(trials, outcome) <= |trials|
  {
    if trials != [] {
      TallyAtMost(trials[..|trials| - 1], outcome);
    }
  }
}
