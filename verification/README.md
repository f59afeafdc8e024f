# Governed execution machinery: a verified model

This project models the parts of VulnHunter that decide what may run, how often, on whose
approval, and what is recorded about it, and proves that they keep their promises.  Planners,
tool handlers, trial runners, clocks and digest functions are parameters or arbitrary choices:
everything below holds whatever they do, unless a statement says otherwise.

The model has four parts.

* **Agent runtime and approval centre.**  `AgentModels`, `AgentPolicy`, `AuditTable`,
  `AuditReplay` and `AgentStore` hold the task row with its optimistic revision, the policy, and
  the audit table.  `AgentController` is the controller as a class, one API call at a time;
  `AgentRules` is the accounting it is proved with, `AgentPasses` says event by event what one pass
  of its loop does, `AgentWorld` is the clock, the planner and the handlers around it, and
  `AuditCounts` reads the counters and the executed calls off the log.  `AgentSteps`,
  `AgentTickets`, `AgentInterleaving`, `AgentGate`, `AgentReplays` and `AgentReach` are the same
  controller as a state machine in which one step is one read, one guarded write, one event insert,
  one planner or handler call or one approval transaction, and any number of API calls and approval
  transactions interleave.  `ApprovalModels`, `ApprovalConditions`,
  `ApprovalLedger` and `ApprovalStore` are the approval centre: its transactions as a function
  on a state, and the store as a class that is proved to compute exactly that function.
  `SaveInterleaving` and `AppendInterleaving` interleave the two-step saves and the two-step
  audit appends; `AgentBudget` compares the step count with the step budget.
* **Adversary lab.**  `LabModels` has plans, records and the changes one save makes; `LabStore`
  and `LabService` are the store and the worker with its bounded trial loop, with requests to
  stop arriving between any two store accesses; `LabInterleaving` is the state machine of
  approvers, queuers, cancellers and workers.  `LabFutures` says what can still become of a lab
  and `LabRuns` has the runs that show it.
* **Hash-chained ledgers.**  `HashChain` is shared by the audit log, the approval ledger and the
  activity stream.  `ActivityStore` is the append-only file, `ActivityFeed` the paging and
  merging of it on the client.
* **Assessment graphs.**  `TaskGraph` has the eight-stage graph and its guarded writes;
  `ActiveValidation` and `Remediation` project observations and receipts onto it.

## Main results

1. *Steps pay for handler calls.*  However many API calls work on a task at once, handlers run at
   most `maxSteps` times and the counted calls stay within the call budget
   (`AgentInterleaving.HandlerCallsAreBounded`).  What is followed is each step: taken by one
   accepted save, held by one call, parked with a pending proposal, spent at most once.
2. *Ended is ended.*  A terminal task is never written again and every call still in flight
   reaches a handler at most once more (`AgentInterleaving.EndedTasksStayEnded`).
3. *Gated calls are approved.*  When a handler was called for an approval-required action, the
   bound request was consumed by this task before its expiry, on the bound manifest, after
   somebody other than the requester approved it by one of the two approving decisions, the bound
   plan meets its conditions, and the call names exactly the approved action
   (`AgentGate.GatedCallsAreApproved`).  In the class the same is read off the log: every executed
   call is inside the allow lists, and a gated one carries the reference of an earlier logged
   approval (`AuditCounts.ExecutedCallsAreApproved`), on every task, also one that a failing call
   left part-way.  The gate is no dead end: `AgentReach.ApprovedCallsReachHandlers`.  One approval
   leads to at most one replay; a further gated call needs a planner proposal that brings the
   consumed reference along (`AgentReplays.OneApprovalOneReplay`).  The second half is a property
   of the code: the consumed reference stays in the task's memory and the policy only compares
   with it.
4. *A pass does what the policy says.*  Given what the clock, the planner and the handler answered,
   one pass of the loop logs exactly the events of its script, calls the handler exactly when the
   call is within all limits, approved if it must be, and in time, and ends as the script says, or
   fails part-way through it for a real reason (`AgentController.Iterate`, `AgentPasses`).
5. *The log accounts for the task.*  At every return of an API call, the log determines the
   counters, the failure counts, the memory and the status (`AuditCounts.LogAccountsForTask`), and
   with a fixed playbook the number of loop iterations over all calls is bounded
   (`AuditCounts.PlaybookBoundsTheLoop`).  Every API method promises that a call which answers
   leaves the task exempt from nothing, that only a call on this task which answers with an error
   can exempt it, and that the log only grows.
6. *Approvals.*  After any history, each request's status is what its own rows replay to; a
   refused transaction changes nothing but for the one committed expiry; consumption succeeds
   exactly when stated (`ApprovalLedger.EveryHistoryIsLawful`, `RefusalChangesNothing`,
   `ConsumedExactlyWhen`), as do decisions, each with the status it leads to (`DecidedExactlyWhen`);
   every condition means what its name says (`ApprovalConditions.LimitsMean` and its neighbours),
   and all of them must be met (`AcceptedExactlyWhenEveryConditionIsMet`).
7. *Labs.*  Claimed at most once; every trial starts on an independently approved,
   digest-matching plan; a cancellation before the claim means no trial; a request to stop lets
   at most the announced trial run; a completed lab stopped at the first sufficient number of
   trials, or ran them all and is inconclusive (`LabInterleaving`,
   `LabModels.CompletedLabStoppedRight`), whatever the runner answers; no trial starts after the
   deadline was read, and a run fails only by a fault that befell it (`LabService.RunNext`).
   Which claimed labs can still complete is known exactly (`LabFutures.CompletesExactlyWhen`), as
   is which ended rows are final (`LabRuns.EndedRowsAreFinalExactlyWhen`).
8. *Ledgers.*  The last digest of a verified ledger fixes all of it; the verifying loops report
   no error exactly when the chain predicate holds; no interleaving of appenders breaks a chain.
9. *Graphs.*  Observations of progress converge however late, repeated or interrupted they are;
   a completed remediation report is earned by a retest, a review and a generation, in that order;
   which calls a graph takes is known exactly (`Remediation.GoesThroughExactlyWhen`,
   `TaskGraph.DecisionGoesThroughExactlyWhen`).

## Where the code does less than one would expect

These are proved as stated, with the exact condition or a concrete run.

* `ActiveValidation.BlockedFailsExactlyWhen`, `BlockedAfterQueuedIsRefused`: projecting the state
  `blocked` is refused exactly when the first open stage is neither pending nor running, for
  instance right after `queued`: a ready stage has no transition to blocked.  (The lab itself
  never enters that state.)
* `Remediation.ApprovalReadiesReportExactlyWhen`, `ApprovalCanStrand`, `StrandedReportsStayStranded`:
  a review approval whose third write is refused closes the review without readying the report;
  the repeated approval is then taken for a duplicate and the report can never be generated.
* `Remediation.VerificationIsNotRequired`: a passed retest, an approval and a report generation
  complete the report while the verification of the fix is still pending.  The verification is
  completed exactly when some verdict that the fix works went through
  (`Remediation.VerifiedExactlyWhen`).
* `Remediation.RepeatsChangeNothingExactlyWhen`, `DecisionsCanForgetThemselves`: a call can be
  repeated without effect if and only if it is not a review decision against the fix that gives
  reasons; such a decision is recorded again and spends another attempt.
* `LabRuns.CompletionCanBeOverwritten`, `StopCanBeOverwritten`: when the event after the completing
  or the stopping save cannot be recorded, the worker overwrites the ended lab as failed.  An ended
  row is final exactly when no worker stands at closing the run
  (`LabRuns.EndedRowsAreFinalExactlyWhen`).
* `LabRuns.LateStopsAreNotSeen`: for every signed plan some run completes with a request to stop
  standing.  `LabFutures.MustStop` is what a canceller can read off the row: once it holds the lab
  never completes (`StopsTakeEffect`).  Whether a lab can still complete depends besides on the
  worker, which may hold an answer of the runner that is not in the row yet
  (`CompletesExactlyWhen`).
* `LabRuns.StopsCanAbandon`, `AbandonedLabsNeverEnd`: a request to stop that makes a save of the
  worker fail leaves the lab executing with nobody working on it, and no continuation ends it.
* `ActivityStore.PrefixesAreGenuine`: a truncated stream verifies; only a remembered last digest
  shows the truncation.
* `AgentBudget.StepsMayPassTheBudget`, `StepsPassTheBudgetExactlyWhen`: taking a step is not checked
  against `maxSteps`; what is bounded is handler calls.  Under interleaving some run takes more
  steps than the budget if and only if the playbook is longer than the budget.  One call at a time,
  only pauses by the planner and the step that ends the task get past it
  (`AuditCounts.OnlyPausesPassTheBudget`).
* `ApprovalLedger.InsertIsLawfulExactlyWhen`: the approval store takes any consistent record; its
  status is what its rows say if and only if it is inserted pending, as the approval service does.

## Reading the model

A digest function is a parameter of type `Material -> string` (or of the record it covers).
Theorems that need it to be collision-free say `Injective(hash)`; most need nothing.  Raised
errors are results: `Option`, `Result`, `Reply` or an `ok` flag.  A local variable in the source
that holds a task, record or graph while others may write is a snapshot in the state machines.

In the class `AgentController`, `interrupted` names the tasks on which some call answered with an
error part-way (a save refused after its event was logged, a clock that ran backwards, a handler
whose result was unusable); for those the accounts may be off, for all others they are exact.  The
object `world` remembers, for specifications only, every reading of the clock, answer of the
planner, handler call, and trouble that made a call fail; contracts name a reading by its place
after the call began.  `LabService.seen` does the same for the lab's worker: its faults, readings,
the runner's answers, what clean-ups verified, and refused saves.  The service takes any answer of
the runner; that stored trials are numbered is promised for runners that echo number and variation,
as the synthetic scenario runner does (`runnerEchoes`, `LabRuns.EchoingRunnersNumberTrials`).

A `Session` in `TaskGraph` carries `left`, the number of guarded writes that still find their
revision current; see the comment there for why that covers concurrent projections.

## Model

| member | source | states |
|---|---|---|
| AgentInterleaving.HandlerCallsAreBounded | vulnhunter/agent/controller.py:164-458 | in every interleaving of any number of API calls, handler invocations are at most maxSteps, counted calls are real and within the call budget |
| AgentInterleaving.StepKeepsStepsPaid | vulnhunter/agent/controller.py:171-187 | each step of any actor keeps every step ticket in at most one place: a runner, the pending slot, or a past invocation |
| AgentInterleaving.EndedTasksStayEnded | vulnhunter/agent/controller.py:164-169 | once terminal the stored task never changes, and each call in flight reaches a handler at most once more |
| AgentInterleaving.TerminalTaskIsFrozen | vulnhunter/agent/store.py:242-269 | no step of any actor writes a terminal task |
| AgentInterleaving.HandlerCallsAreInTime | vulnhunter/agent/controller.py:415-430 | in any interleaving a reading of the clock before the deadline stands behind every handler call |
| AgentReach.AllowedCallsReachHandlers | vulnhunter/agent/controller.py:324-430 | some run of a new task calls the handler for any ungated call within the limits |
| AgentReach.ApprovedCallsReachHandlers | vulnhunter/agent/controller.py:352-430 | some run of a new task waits for approval, consumes the bound request and calls the handler with the consumed reference, for any gated call within the limits whose request can be consumed |
| AgentTickets.StepClears | vulnhunter/agent/policy.py:25-121 | a proposal reaches the handler only after the policy allowed it within both budgets, and for a gated action only with the consumed reference on the bound action |
| AgentTickets.StepFlows | vulnhunter/agent/controller.py:790-799 | a step in hand comes from one advancing or popping save, and leaves by one handler call or into the pending slot |
| AgentTickets.SuitableSavesAreRefusedExactlyWhen | vulnhunter/agent/models.py:60-114 | every kind of save the controller makes, on a task in a status it is made in, is accepted if and only if the task has not moved on and the clock is not behind |
| AgentBudget.StepsMayPassTheBudget | vulnhunter/agent/controller.py:790-793 | a concrete run of a new task under any playbook longer than the budget ends with one step more than the budget |
| AgentBudget.StepsPassTheBudgetExactlyWhen | vulnhunter/agent/controller.py:164-259 | some interleaving takes more steps than maxSteps if and only if the playbook is longer than maxSteps |
| AuditCounts.OnlyPausesPassTheBudget | vulnhunter/agent/policy.py:57-59 | one call at a time, the step count exceeds maxSteps at most by the planner's pauses and the step that ended the task |
| AgentGate.GatedCallsAreApproved | vulnhunter/agent/controller.py:617-680 | every handler call of an approval-required action: request consumed by this task, before expiry, same manifest digest, decided by approve-once or approve-with-conditions by another person, conditions met by the bound plan, same action, tool and operation |
| AgentGate.ConsumptionGrants | vulnhunter/approvals/store.py:256-341 | a successful consumption turns an approved request into one consumed by this execution on the bound manifest, with its conditions met by the bound plan |
| AgentGate.BindingIsConsumedExactlyWhen | vulnhunter/agent/controller.py:617-660 | the consumption a task asks for succeeds if and only if another actor consumes an approved, unexpired request on the bound manifest whose conditions the bound plan meets |
| AgentGate.GrantsLast | vulnhunter/approvals/store.py:174-347 | no later approval transaction takes a grant away |
| AgentReplays.OneApprovalOneReplay | vulnhunter/agent/controller.py:171-187 | at most one replay ever reaches a handler, and gated calls exceed it only by proposals that brought the reference |
| AgentReplays.StepKeepsOneReplay | vulnhunter/agent/controller.py:617-680 | the single consumption is in one place at a time: an approving call, the task, a replaying call, or spent |
| AuditCounts.LogAccountsForTask | vulnhunter/agent/controller.py:242-573 | for every known task at every return of an API call that no call left part-way: the log replays to the task; steps, calls and failure counts equal the numbers of proposed, executed and retry events; budgets hold with one step reserved for a pending proposal |
| AuditCounts.PlaybookBoundsTheLoop | vulnhunter/agent/planner.py:36-46 | for the same tasks: the cursor is the step count, proposals are the playbook's prefix in order, iterations over all calls are at most twice the playbook plus operator pauses plus one, and a playbook within the budget keeps within it |
| AuditCounts.ReplayCounts | vulnhunter/agent/store.py:334-357 | the replay's counters are independent counts over the log |
| AuditCounts.ExecutedCallsAreApproved | vulnhunter/agent/policy.py:63-121 | for every event of an executed call in the log of any known task, failed calls or not: action and tool are in the allow lists and not globally denied, and a gated call carries the reference of an earlier logged approval of the bound request, for exactly the approved action |
| AgentPasses.HandlerIsCalledExactlyWhen | vulnhunter/agent/controller.py:324-430 | a proposed call reaches its handler if and only if it is within all limits, approved if its action needs it, and the deadline has not been read; then once |
| AgentPasses.CallsArePermitted | vulnhunter/agent/controller.py:164-430 | whenever a pass calls a handler: one call, the one it proposed or replayed, permitted at one reading of the clock, in time at a later one, with the decision to allow it already logged |
| AgentPasses.UnreferencedCallsWait | vulnhunter/agent/controller.py:352-399 | a gated call without a reference, within all other limits, ends the pass paused for approval or with an error; no handler is called |
| AgentPasses.AnswersLead | vulnhunter/agent/tools.py:66-115 | what each outcome of a handler leads to: the logged result and evaluation, the next pass, the counted retry, the stop at the limit of identical failures, the failure, or an error without a message |
| AgentController.AgentController.CreateTask | vulnhunter/agent/controller.py:55-133 | creates exactly when the id is new and the binding fits; the new task is the one asked for, created at the clock's reading, at rest with its creation logged |
| AgentController.AgentController.Run | vulnhunter/agent/controller.py:135-616 | a late task times out, a waiting one is left alone, any other enters the loop; a call that answers keeps the log accounting exactly, one that errs met trouble or an unknown task and exempts at most this task; the log only grows; an answer is never created or running; a terminal task is answered unchanged; a budget pause comes after exactly the allowed iterations |
| AgentController.AgentController.Iterate | vulnhunter/agent/controller.py:164-594 | one pass plays its script: events, handler call and end are those the clock, the planner and the handler imply, or an error part-way with a real trouble behind it; the exact accounts are kept unless it errs |
| AgentController.AgentController.Judge | vulnhunter/agent/policy.py:25-121 | the policy's decision at the next reading of the clock; what it allows is within the budgets and covered by what the log grants |
| AgentController.AgentController.AskPlanner | vulnhunter/agent/controller.py:811-817 | after the planner the task is unchanged, or an operator has cancelled or paused it and its revision shows it |
| AgentController.AgentController.Save | vulnhunter/agent/controller.py:795-799 | a save is accepted exactly when the task is the stored one, the change admissible and the clock not behind; then it stores the change one revision later at that reading, else it changes nothing |
| AgentController.AgentController.TimeOut | vulnhunter/agent/controller.py:819-858 | a timed-out task is logged, then saved, and is at rest |
| AgentController.AgentController.ApproveAndResume | vulnhunter/agent/controller.py:617-680 | an error without a trace unless paused for approval; a late task times out; when the bound request cannot be consumed the call is an error and the task is left alone; otherwise the request is consumed by this execution, its digest is logged first, and the call errs only after trouble |
| AgentController.AgentController.Cancel | vulnhunter/agent/controller.py:682-717 | an answer is a terminal task with its cancellation logged, or the terminal task unchanged; an error leaves no trace and means an unknown task or trouble |
| AgentController.AgentController.OperatorPause | vulnhunter/agent/controller.py:719-749 | refused without a trace for a blank reason or while waiting for approval; an answer is paused with its pause logged, or the terminal or paused task unchanged; other errors mean an unknown task or trouble |
| AgentController.AgentController.Resume | vulnhunter/agent/controller.py:751-770 | refused without a trace unless paused by an operator; a late task times out; otherwise an answer means the resumption is logged and the run that followed is over |
| AgentRules.StepTaken | vulnhunter/agent/controller.py:790-793 | an advancing save gives the loop exactly one unspent step for the logged proposal, next in the playbook |
| AgentRules.CallSpent | vulnhunter/agent/controller.py:458-588 | counting a call spends that step, and each of the three evaluations leaves the accounts right |
| AgentRules.FailureIsCounted | vulnhunter/agent/controller.py:527-571 | a retryable failure is counted once; at the limit the task is blocked, below it the loop goes on |
| AgentRules.ApprovalAwaited | vulnhunter/agent/controller.py:352-399 | the unspent step moves into the pending proposal |
| AgentPolicy.AllowedCallsAreCovered | vulnhunter/agent/policy.py:25-121 | an allowed call is within budgets and expiry, its action, tool and risk are in the allow lists and not denied, it matches its tool exactly, and when gated carries the consumed reference on the bound action |
| AgentPolicy.DecidesExactly | vulnhunter/agent/policy.py:48-121 | the exact condition of each of the three answers: allowed, needs approval, denied |
| AgentPolicy.ToolRegistry.Register | vulnhunter/agent/tools.py:52-55 | registration is refused exactly for a known id and never replaces a tool |
| AgentPolicy.ToolRegistry.Get | vulnhunter/agent/tools.py:57-61 | the registered tool under this id, or nothing |
| SaveInterleaving.SnapshotsAreMonotonic | vulnhunter/agent/models.py:466-504 | committed snapshots are numbered from zero, identity is constant, counters and times never decrease, nothing follows a terminal one |
| SaveInterleaving.WriteIsCompareAndSwap | vulnhunter/agent/store.py:242-269 | a validated save is accepted exactly when it is a valid update of the row as it is at the write |
| AgentStore.AgentStore.SaveTask | vulnhunter/agent/store.py:242-269 | accepted exactly when the expected revision is stored and the update is valid; otherwise nothing changes |
| AgentStore.AgentStore.AppendEvent | vulnhunter/agent/store.py:271-332 | adds one row at the end of this task's log, leaves all other logs, keeps the table intact |
| AgentStore.AgentStore.ListEvents | vulnhunter/agent/store.py:334-357 | all rows of a task in order; fails exactly when some row is numbered below one |
| AgentStore.AgentStore.VerifyIntegrity | vulnhunter/agent/store.py:386-406 | on any table whatsoever: succeeds exactly when every row of the task can be read and they form a contiguous sealed chain from the zero hash, and returns its last digest |
| AppendInterleaving.EveryRunVerifies | vulnhunter/agent/store.py:271-332 | whatever interleaving of head reads and inserts happened, what is stored verifies for every task |
| AppendInterleaving.StaleInsertsFail | vulnhunter/agent/store.py:147-157 | an insert succeeds exactly when its head is still current |
| AuditTable.AppendExtendsRows | vulnhunter/agent/store.py:271-332 | an uninterrupted append extends its task's rows by one and no other's |
| AuditTable.FinalHashFixesLog | vulnhunter/agent/store.py:386-406 | two logs that verify with the same final hash are the same rows |
| HashChain.LastDigestFixesLedger | vulnhunter/agent/store.py:386-406 | a contiguous ledger is fixed by its last digest, for any collision-free digest |
| HashChain.TipFixesChain | vulnhunter/approvals/store.py:349-392 | a chain without its own numbering is fixed by its tip when the digest is never the zero hash |
| ApprovalLedger.EveryHistoryIsLawful | vulnhunter/approvals/store.py:112-481 | after any history each request's status is what its rows replay to, an approved or consumed request carries an approving decision by another person and a denied one a denying decision, each projection is a chain from the zero hash, rows are numbered globally |
| ApprovalLedger.ProjectionIncreases | vulnhunter/approvals/store.py:431-481 | each request's rows are strictly increasing in the global numbering |
| ApprovalLedger.TerminalRequestsAreFrozen | vulnhunter/approvals/store.py:174-347 | consumed, denied and expired requests never change |
| ApprovalLedger.ConsumedAtMostOnce | vulnhunter/approvals/store.py:256-341 | a lawful life has one consumption if it ends consumed and none otherwise |
| ApprovalLedger.RefusalChangesNothing | vulnhunter/approvals/store.py:174-347 | a refused transaction changes nothing, or only moves its own request to expired at or after its expiry with one row |
| ApprovalLedger.ConsumedExactlyWhen | vulnhunter/approvals/store.py:256-341 | consumption succeeds if and only if another actor asks in time on the same manifest and, when conditional, the plan fits and every condition is met; then the request is consumed by that execution at that time |
| ApprovalLedger.DecidedExactlyWhen | vulnhunter/approvals/store.py:174-254 | a decision is accepted if and only if it is reasoned, timely, by another person, on an open request and well-formed; the six decisions lead to approved, approved, information required, conditions proposed, denied and denied |
| ApprovalLedger.StatusesNameTheirDecisions | vulnhunter/approvals/store.py:174-254 | after any history the status of a request names the decisions that can have led to it |
| ApprovalLedger.LateDecisionsExpire | vulnhunter/approvals/store.py:174-254 | a decision marks the request as expired if and only if it is otherwise in order and too late; no other refused decision writes anything |
| ApprovalLedger.LateConsumptionsExpire | vulnhunter/approvals/store.py:256-347 | the same for consumptions |
| ApprovalLedger.RowsSayWhatHappened | vulnhunter/approvals/store.py:431-481 | each accepted transaction adds one row that names the request, what was done, by whom, and for a conditional consumption the evaluation |
| ApprovalLedger.CreatedRequestsExpireOnTime | vulnhunter/approvals/service.py:18-40 | a request the service created can be decided exactly as long as its time to live lasts |
| ApprovalStore.ApprovalStore.Create | vulnhunter/approvals/store.py:112-146 | stores any consistent record under a new identifier, with its row, as specified |
| ApprovalStore.ApprovalStore.Request | vulnhunter/approvals/service.py:18-40 | the service's fresh, pending request, as specified |
| ApprovalLedger.InsertIsLawfulExactlyWhen | vulnhunter/approvals/store.py:112-146 | an accepted insertion keeps every status equal to the fold of its rows if and only if the record is pending |
| ApprovalStore.ApprovalStore.Decide | vulnhunter/approvals/store.py:174-254 | the stored state and answer are those of the specification, expiry included |
| ApprovalStore.ApprovalStore.Consume | vulnhunter/approvals/store.py:256-347 | the stored state and answer are those of the specification, expiry included |
| ApprovalStore.ApprovalStore.Events | vulnhunter/approvals/store.py:349-392 | answers a request's rows exactly when they form a chain |
| ApprovalStore.ApprovalStore.AppendEvent | vulnhunter/approvals/store.py:431-481 | the next row continues the global numbering and the request's own chain |
| ApprovalConditions.AcceptedExactlyWhenEveryConditionIsMet | vulnhunter/approvals/conditions.py:127-226 | acceptance is the plan fitting manifest and budgets plus every condition on its own; fresh evaluations are never stale or misbound |
| ApprovalConditions.MoreConditionsNeverWiden | vulnhunter/approvals/conditions.py:229-291 | the order of conditions does not matter and further conditions only shrink acceptance |
| ApprovalConditions.ConditionMeaning | vulnhunter/approvals/conditions.py:229-291 | the check of one condition string accepts exactly what the condition states about the plan, name by name |
| ApprovalConditions.WrittenConditionMeans | vulnhunter/approvals/conditions.py:234-239 | space around name and value does not matter, and a condition without an equals sign is never met |
| ApprovalConditions.LimitsMean | vulnhunter/approvals/conditions.py:240-245 | the numeric limits bound the plan's budgets and attempts |
| ApprovalConditions.TargetAndToolMean | vulnhunter/approvals/conditions.py:246-251 | target and tool conditions name the plan's own |
| ApprovalConditions.ProfileAndAdapterMean | vulnhunter/approvals/conditions.py:252-269 | profile and adapter conditions name the plan's own |
| ApprovalConditions.ProhibitionsMean | vulnhunter/approvals/conditions.py:255-260 | prohibitions are met exactly by plans that do without |
| ApprovalConditions.BoundariesMean | vulnhunter/approvals/conditions.py:261-291 | paths must lie inside the stated boundary |
| LabModels.CreatedPlansAreSigned | vulnhunter/adversary_lab/models.py:121-175 | a plan is created exactly for one to ten trials of a scenario with variations; it passes the trial policy and is signed as it stands |
| LabModels.CreatedPlansAskFor | vulnhunter/adversary_lab/models.py:121-175 | created plans ask for three trials and two confirmations, or for all there are |
| LabModels.ConfirmedLabsRanEnough | vulnhunter/adversary_lab/models.py:152-153 | a confirmed lab of a created plan ran at least three trials with two confirmations, or as many as the plan has |
| LabModels.CompletedLabStoppedRight | vulnhunter/adversary_lab/service.py:322-459 | counters equal outcome counts; stopped at the least sufficient number of trials, or inconclusive after every trial of the plan, which is the maximum when trials are numbered |
| LabModels.TrialKeepsSound | vulnhunter/adversary_lab/service.py:362-399 | storing whatever the runner answered keeps all of that and leads to the next trial or to the end exactly as the plan says |
| LabStore.LabStore.Save | vulnhunter/adversary_lab/store.py:134-161 | accepted exactly one revision after the stored row; otherwise nothing changes |
| LabStore.LabStore.ClaimNext | vulnhunter/adversary_lab/store.py:163-213 | claims a queued run that has waited longest, or nothing when none is queued |
| LabStore.LabStore.RequestCancellation | vulnhunter/adversary_lab/store.py:215-247 | ends an unclaimed run, marks a running one, leaves an ended one |
| LabService.LabService.CreatePlan | vulnhunter/adversary_lab/service.py:75-157 | stores a new record exactly for a fresh id and a valid number of trials |
| LabService.LabService.Approve | vulnhunter/adversary_lab/service.py:159-186 | succeeds exactly for an awaiting, digest-matching plan and another person than the requester, and records the approver and the approved digest |
| LabService.LabService.QueueRun | vulnhunter/adversary_lab/service.py:188-211 | succeeds exactly for an approved plan, and records who queued it |
| LabService.LabService.RunNext | vulnhunter/adversary_lab/service.py:235-239 | carries the oldest queued run to a sound end; it fails only by exactly one fault that can befall it, and with no fault and no refused save it completes or was asked to stop; the stored clean-up flag is what the clean-up said; trials are announced only after a reading before the deadline and stored trials are the runner's answers; it is left unended only after a request to stop; no other row changes |
| LabService.LabService.RunTrials | vulnhunter/adversary_lab/service.py:322-411 | for any answers of the runner, ends with the trials over as they should be and nothing gone wrong, or leaves for exactly one fault, a refused save or a requested stop; readings and answers govern what is stored |
| LabService.LabService.FailClosed | vulnhunter/adversary_lab/service.py:505-541 | ends the run as failed, unless a request to stop comes in between |
| LabInterleaving.TrialsAreGoverned | vulnhunter/adversary_lab/service.py:241-340 | in every interleaving: claimed at most once; trial i starts at most once, in order, announced, on an independently approved digest-matching plan, after a reading before the deadline |
| LabInterleaving.WorkersGiveUpExactlyWhen | vulnhunter/adversary_lab/service.py:322-377 | a worker closes a run by failure exactly when a check, a recording or the clean-up failed, the runner raised or took too long, or the deadline was read |
| LabInterleaving.StopsLetOneTrialRun | vulnhunter/adversary_lab/service.py:322-337 | at most one trial starts after a request to stop is stored |
| LabInterleaving.CancelledBeforeClaimNeverRuns | vulnhunter/adversary_lab/store.py:215-247 | a lab cancelled before its claim keeps its row and never runs a trial |
| LabInterleaving.EndedLabsStayEnded | vulnhunter/adversary_lab/service.py:482-541 | as long as no closing event is lost, an ended lab keeps its row |
| LabRuns.CompletionCanBeOverwritten | vulnhunter/adversary_lab/service.py:453-483 | for every signed plan a run from creation completes and is then overwritten as failed |
| LabRuns.StopCanBeOverwritten | vulnhunter/adversary_lab/service.py:485-503 | the same for a run that stopped as asked |
| LabRuns.EndedRowsAreFinalExactlyWhen | vulnhunter/adversary_lab/service.py:482-541 | an ended row is kept by every continuation if and only if no worker stands at closing the run |
| LabRuns.LateStopsAreNotSeen | vulnhunter/adversary_lab/service.py:413-459 | for every signed plan a run from creation completes with a request to stop standing |
| LabFutures.StopsTakeEffect | vulnhunter/adversary_lab/service.py:322-325 | when the row shows that a checkpoint must still be passed, a requested stop keeps the lab from completing in every continuation |
| LabFutures.CompletesExactlyWhen | vulnhunter/adversary_lab/service.py:301-459 | a claimed lab can complete if and only if no requested stop must take effect and some worker is neither closing, nor stale, nor holding an answer that leads to a checkpoint |
| LabRuns.StopsCanAbandon | vulnhunter/adversary_lab/store.py:134-161 | for every signed plan a request to stop can make the worker's save fail and leave the lab executing with nobody on it |
| LabRuns.AbandonedLabsNeverEnd | vulnhunter/adversary_lab/service.py:482-483 | such a lab keeps its state in every continuation |
| LabRuns.EchoingRunnersNumberTrials | vulnhunter/adversary_lab/runner.py:150-209 | when every answer echoes number and variation within the maximum, stored trials are numbered from one and follow the plan |
| LabInterleaving.StoredRowsAreSound | vulnhunter/adversary_lab/models.py:200-235 | every reachable row is sound, completed ones included |
| ActivityStore.IntegrityErrors | vulnhunter/agent_activity/store.py:88-107 | no error exactly when the stream is contiguous, chained, sealed and correctly identified |
| ActivityStore.ActivityStore.Load | vulnhunter/agent_activity/store.py:66-86 | loads exactly the readable, genuine files |
| ActivityStore.ActivityStore.Append | vulnhunter/agent_activity/store.py:109-146 | appends one event exactly when the whole stream verifies, and it verifies afterwards |
| ActivityStore.ActivityStore.ReadAfter | vulnhunter/agent_activity/store.py:148-169 | the slice after the cursor, or the exact reason for an error |
| ActivityStore.ActivityStore.Verify | vulnhunter/agent_activity/store.py:171-207 | valid exactly when the file loads, with its length and last digest |
| ActivityStore.LastDigestFixesStream | vulnhunter/agent_activity/store.py:88-107 | two verified streams that end in the same digest are the same events |
| ActivityStore.PrefixesAreGenuine | vulnhunter/agent_activity/store.py:88-107 | every prefix of a verified stream verifies |
| ActivityFeed.MergeEvents | frontend/src/App.tsx:48-56 | the merge shows the latest event per number, strictly sorted |
| ActivityFeed.OneListShows | frontend/src/App.tsx:48-56 | there is only one such list |
| ActivityFeed.MergingAgainChangesNothing | frontend/src/App.tsx:48-56 | merging a page again changes nothing |
| ActivityFeed.OrderMattersExactlyWhen | frontend/src/App.tsx:48-56 | the order of two pages matters exactly when they disagree on a number |
| ActivityFeed.PollingReadsThePrefix | vulnhunter/agent_activity/store.py:148-169 | polling a growing log with any positive limits and overlaps always holds a gap-free prefix, and n polls from the cursor fetch the first n events |
| ActivityFeed.StreamsAreLogs | vulnhunter/agent_activity/store.py:148-169 | a genuine stream is a log numbered from one, and the pages served from it are pages of that log |
| TaskGraph.GraphService.Transition | vulnhunter/taskgraph/store.py:107-149 | one guarded status write with its attempt counting, or a refusal without change |
| TaskGraph.GraphService.CancelDownstream | vulnhunter/assessment_graph/service.py:329-348 | the specified cancellation; success means every open stage from the starting stage on is cancelled with the remark, and earlier stages never move |
| TaskGraph.GraphService.ProjectTerminal | vulnhunter/assessment_graph/service.py:270-286 | cancels every stage that has not ended, with the remark |
| TaskGraph.GraphService.ProjectDecision | vulnhunter/assessment_graph/service.py:194-251 | the specified projection; with writes and attempts left it goes through exactly when the graph takes the decision; success closes the approval stage that way, starts or blocks the execution, or cancels every open later stage with the reason |
| TaskGraph.CancelAt | vulnhunter/assessment_graph/service.py:329-348 | cancellation touches only stages from the start on that have not ended, and all of them when its writes go through |
| TaskGraph.DecisionsExclude | vulnhunter/assessment_graph/service.py:194-251 | a decision that went through excludes the opposite one for good; a denial ends every later stage |
| TaskGraph.DecisionGoesThroughExactlyWhen | vulnhunter/assessment_graph/service.py:194-251 | with writes and attempts left a decision goes through if and only if the approval is open or was decided the same way and the execution can follow |
| TaskGraph.DecisionLeaves | vulnhunter/assessment_graph/service.py:194-251 | what each decision that went through leaves in every stage |
| TaskGraph.WriteExtends | vulnhunter/taskgraph/models.py:162-198 | a write keeps ended nodes, never lowers attempts and never exceeds their limit |
| ActiveValidation.ActiveValidation.ProjectState | vulnhunter/assessment_graph/active_validation.py:155-208 | the stored graph becomes the specified projection of the observation |
| ActiveValidation.ActiveValidation.MarkCompleted | vulnhunter/assessment_graph/active_validation.py:241-267 | success means the stage is completed, or had ended before; no other stage moves |
| ActiveValidation.ActiveValidation.ProjectFailure | vulnhunter/assessment_graph/active_validation.py:291-328 | ends the first open stage and cancels the rest; success means every stage from the execution on has ended |
| ActiveValidation.ProgressJoins | vulnhunter/assessment_graph/active_validation.py:155-208 | one observation moves every stage to the later of where it is and where the lab is, or not as far when writes are refused, and never back |
| ActiveValidation.ProjectionsConverge | vulnhunter/assessment_graph/active_validation.py:330-384 | any sequence of progress observations, repeated, stale or interrupted, ends in the initial statuses of the most advanced one |
| ActiveValidation.EndedGraphsRest | vulnhunter/assessment_graph/active_validation.py:155-208 | once all stages have ended no observation changes anything |
| ActiveValidation.CancellationEndsAll | vulnhunter/assessment_graph/service.py:270-286 | a cancellation with room goes through and cancels every open stage with its reason |
| ActiveValidation.BlockedFailsExactlyWhen | vulnhunter/assessment_graph/active_validation.py:291-328 | a blocked lab is refused if and only if the first open stage is neither pending nor running, and then writes nothing |
| ActiveValidation.BlockedAfterQueuedIsRefused | vulnhunter/assessment_graph/active_validation.py:291-328 | the concrete case: blocked right after queued |
| ActiveValidation.FailureIsProjected | vulnhunter/assessment_graph/active_validation.py:291-328 | a failed lab is always projected on a graph that only saw progress: the first open stage fails with the reason, later open stages are cancelled |
| ActiveValidation.EndedCreationAgrees | vulnhunter/assessment_graph/active_validation.py:330-384 | a graph created for an ended lab has the statuses that projecting this ending leads to: cancelled while awaiting approval, blocked once approved, failed while executing |
| Remediation.Remediation.ProjectState | vulnhunter/assessment_graph/remediation.py:181-238 | the specified projection; with room it always goes through; a cancellation cancels every open stage, a failure every open stage from the execution on, readiness readies a pending execution and nothing else |
| Remediation.Remediation.ProjectFixVerification | vulnhunter/assessment_graph/remediation.py:240-294 | the specified projection; a working fix that goes through leaves all three stages completed, any other verdict sends all three back with its marker, or it was known; with writes and attempts left and none of the three ended it goes through |
| Remediation.Remediation.ProjectRetestOutcome | vulnhunter/assessment_graph/remediation.py:296-353 | the specified projection; a passed retest opens the review without an earlier verdict, another cancels review and report; goes through exactly when the graph takes it; only review and report move |
| Remediation.Remediation.ProjectReviewDecision | vulnhunter/assessment_graph/remediation.py:355-418 | the specified projection; success means the review is completed or ready again with its marker, and an approval leaves no pending report; goes through exactly when the graph takes it; only review and report move |
| Remediation.Remediation.ProjectReportGeneration | vulnhunter/assessment_graph/remediation.py:420-453 | the specified projection; success means the report is completed with this marker, and only the report moves |
| Remediation.Remediation.CompleteAttemptStage | vulnhunter/assessment_graph/remediation.py:455-482 | completes a stage as specified; an otherwise ended one is an error |
| Remediation.ReportsAreEarned | vulnhunter/assessment_graph/remediation.py:296-453 | a completed report has a passed retest, a later approval and a later generation in its history; a moved report stands behind a completed review |
| Remediation.GoesThroughExactlyWhen | vulnhunter/assessment_graph/remediation.py:181-453 | with writes and attempts left each of the five calls goes through if and only if the stages it is about are where it expects them, or it repeats what is recorded |
| Remediation.VerificationComesLast | vulnhunter/assessment_graph/remediation.py:255-264 | in every run a completed verification stands behind a completed execution and evidence |
| Remediation.FixLeavesAllStages | vulnhunter/assessment_graph/remediation.py:240-294 | a verdict that goes through completes all three stages of the fix or sends all three back with its marker, unless it was known |
| Remediation.FixGoesThrough | vulnhunter/assessment_graph/remediation.py:240-294 | with six writes and an attempt left in each stage of the fix any verdict goes through |
| Remediation.ProjectionIsGoverned | vulnhunter/assessment_graph/remediation.py:296-453 | which calls can move the review and report stages, and between which statuses |
| Remediation.VerificationIsNotRequired | vulnhunter/assessment_graph/remediation.py:314-341 | those three calls suffice, with the verification still pending |
| Remediation.VerifiedExactlyWhen | vulnhunter/assessment_graph/remediation.py:240-264 | in any run the verification is completed if and only if some verdict that the fix works went through at its point |
| Remediation.ApprovalReadiesReportExactlyWhen | vulnhunter/assessment_graph/remediation.py:372-398 | an approval readies the report if and only if all three writes go through, and strands it if and only if the last one is refused |
| Remediation.ApprovalCanStrand | vulnhunter/assessment_graph/remediation.py:372-398 | the concrete run: a passed retest, then an approval whose third write is refused |
| Remediation.StrandedReportsStayStranded | vulnhunter/assessment_graph/remediation.py:372-376 | a stranded report is never generated, whatever is called afterwards |
| Remediation.RepeatsChangeNothingExactlyWhen | vulnhunter/assessment_graph/remediation.py:399-418 | a call that went through can be repeated without effect if and only if it is not a decision against the fix that gives reasons; that one spends another attempt or is an error |
| Remediation.DecisionsCanForgetThemselves | vulnhunter/assessment_graph/remediation.py:399-418 | the concrete run in which one decision spends two attempts |
| Remediation.RunsEvolve | vulnhunter/taskgraph/models.py:162-198 | in any run ended stages keep their outcome and attempts stay within their limits |

## Left out

- SQLite, file locks, fsync, JSON, canonical serialisation and time zones: rows are maps and sequences, writes are guarded steps, times are integers.
- SHA-256: digests are functions, injective where a theorem needs it.  The audit table's second digest over the stored payload and the approval store's digest over the stored record are not modelled separately.
- Activity events recorded beside the authoritative ones, summary texts, pause reasons and the execution report.
- The planners behind a model gateway: they are covered by `AnyPlanner`, an arbitrary answer.
- `tool.registry_error` after the policy: `AgentPolicy.AllowedCallsAreCovered` shows that an allowed call matches its registered tool, so the branch is dead.
- AgentController.AgentController.Run: for a task with an earlier call that answered with an error part-way the log need not account for the counters, because such a call leaves an event without its save or a save without its event; the budgets, the scripts of the passes and the approval of executed calls are claimed for these tasks too.
- AgentSteps models the task row, the approval centre and the handler calls of one task; the audit log, whose concurrent appends are the subject of `AppendInterleaving`, is not part of that state machine.
- That the class `AgentController` takes the steps of the state machine `AgentSteps` is not proved: the two model the same source at two grains, the class for what holds at call boundaries and in the log, the state machine for what holds under interleaving.  The same goes for `LabService` and `LabInterleaving`, which share the record changes of `LabModels`.
- LabInterleaving follows one lab; which of several queued labs a worker claims is in `LabStore.ClaimNext`.
- The lab plan's literal fields (network mode, synthetic data only) and the checks on them, and the ceiling of ten trials, which the plan model already enforces.
- The scenario runner's generated files and evidence digests.
- The safe-path check on run identifiers, and the feed's `last_sequence` and `run_state`, which look only at the first thousand events.
- Non-integer sequence numbers on the client; the merge drops them as it drops negative ones.
- Leases on graph nodes, graph-envelope digests, bundles, role and skill tables; error texts on nodes are structured values, so prefix tests on them become tests of their kind.
- The graph store's acceptance of rewriting an ended node with exactly its own value at the same instant; no projection does so.
- The API layer, the command line, the rest of the client, scripts, migrations, consent and authorization lookups.
