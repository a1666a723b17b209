# Recovery backend: a verified model

A Dafny model of the Python backend that recovers failed payments, and of the code that evaluates its
policies. It covers four connected parts.

1. **Webhook ingestion.** A delivery is recorded, marked PROCESSING, reconciled against the payment
   provider, handled by the recovery engine and marked PROCESSED or FAILED, in three commits, with rollback
   on failure. Deliveries may repeat, the provider may fail at any call, the worker may die between commits.
2. **The recovery engine and the case lifecycle.** A 14-state machine driven by webhooks, order scans,
   expiry sweeps, PATCH, manual creation and experiment batches.
3. **The baseline experiment service and the revenue-at-risk snapshot.** Exact group allocation, an
   intent-to-treat report, per-currency sums, rounding, a canonical ranking.
4. **Counterfactual evaluation.** Potential outcomes that share one draw, policy comparison, the binned
   calibration error.

## How it is laid out

The database is a value (`Records.Db`): mirror rows by provider id, cases, audits and experiment rows as
lists whose index is the generated id. `Database.Session` holds a committed and a working copy; a commit
checks foreign keys, unique keys, window order, positive amounts and the percentage's range.

Each imperative component is a class over a session whose methods are proved equal to functions of the
rows. What the repository promises is then proved about those functions. The decisions a method and
its function share (calls, replies, correlation, stop conditions, due cases, prescriptions, acceptance,
reported figures) are stated independently, in terms of the rows alone.

| component | functions | classes | theorems |
|---|---|---|---|
| recovery engine | EngineSpec, SweepSpec | RecoveryEngine | EngineInvariants, HandlingTable, Convergence, EngineClaims, SweepSpec |
| reconciler | ReconcileSpec | Reconciler | ReadingClaims, MirrorClaims |
| ingestion | DeliverySpec, Dedup | Ingestion | DeliverySpec, ReplyClaims, Dedup |
| cases | Lifecycle, CaseSpec | CaseRepository | Lifecycle, CaseSpec |
| baseline | BaselineSpec, ReportSpec | BaselineService | BaselineClaims, RuleClaims, ReportSpec |
| whole system | RecoverySystem | | RecoverySystem, RunClaims, RunOutcomes, CaseHistory, Counterexamples |
| revenue at risk | RevenueSpec | RevenueAggregator | RevenueClaims |
| evaluation | Simulator, Evaluation, Calibration | | Evaluation, Calibration |

`RecoverySystem.Run` is the combined system: any sequence of deliveries, scans, sweeps, PATCHes, manual
cases, batches and outcomes, each an atomic step. The theorems over runs hold for every such sequence.

## What turned out false, and exactly when it holds

- Handling the same event twice, under the same id or any other, is handling it once, **except** when the first time creates a case for an
  expired, unpaid link: the second time closes that case as EXPIRED (`Convergence.HandleTwice`, an
  equivalence). A third time never adds anything. Input: `Counterexamples.ReplayClosesLinkCase`.
- The mirror shows everything the provider answered, **except** that a row the event itself inserted lacks the
  fields a snapshot leaves out (error description, bank, VPA, invoice; short URL, expiry of a link), and so
  loses them exactly when the answer had any (`MirrorClaims.ExtraFieldsKept`, `MirrorClaims.LinkFieldsKept`).
  Input: `Counterexamples.InsertedPaymentLosesBank`.
- An accepted event commits, **except** when a failed payment of amount zero meets a live case: the positive-amount
  constraint then rejects the commit and the event ends FAILED (`EngineClaims.CommitCanFail`). Input:
  `Counterexamples.ZeroAmountBreaksCommit`.
- An unpaid-order scan completes, **except** when some selected order has no case yet and would make an invalid one;
  then nothing of the scan is kept (`SweepSpec.ScanFails`). Input: `Counterexamples.LowerCaseCurrencyStopsScan`.
- RECOVERED needs evidence, **except** through PATCH (`RunOutcomes.PatchNeedsNoEvidence`).
- The oracle is an upper bound for every policy **except** when it misses a row: probabilities are read back with six
  digits, and it takes the first column that reads like the best chance, so it misses a row exactly when the draw
  lies between that column's chance and the best one, at most a millionth apart (`Evaluation.SixDigitOracle`). Some
  policy's rate beats the oracle's if and only if some row is missed (`Evaluation.OracleIsBest`), and then by at
  most the share of missed rows (`Evaluation.OracleGap`). Input: `Evaluation.SixDigitsCanTie`.
- A supported event that was not processed is tried again at its next delivery, **except** when the worker died while
  processing it: its row is then PROCESSING (`DeliverySpec.StrandedExactly`, an equivalence) and stays so for good
  (`RunClaims.SettledForever`), even if another attempt would have succeeded. Input:
  `Counterexamples.CrashStrandsEvent`. Processing is at most once, with retries after FAILED, not guaranteed.

## Model

| member | source | states |
|---|---|---|
| Lifecycle.TransitionTo | apps/api/app/domain/recovery_case.py:17-128 | a terminal case accepts nothing, every live one accepts RECOVERED, STOPPED and EXPIRED, so the engine's transitions never raise; ESCALATED is entered only from POLICY_CHECK, EXECUTING only from ACTION_PENDING |
| Lifecycle.PolicyGate | apps/api/app/domain/recovery_case.py:17-103 | in every prefix of every run executions trail policy checks by at most one, each execution follows its own check, a terminal status ends the run |
| Lifecycle.RunShape | apps/api/app/domain/recovery_case.py:17-103 | a run with k executions has at most 6k+6 transitions, and exactly 6k plus its stage while live |
| Lifecycle.LongestRun | apps/api/app/domain/recovery_case.py:17-103 | the bound 6k+6 is attained for every k |
| Lifecycle.LeadsIffWalk | apps/api/app/domain/recovery_case.py:17-128 | closed form of which status can be reached from which along accepted transitions |
| Records.FindCase | apps/api/app/webhooks/reconciliation.py:134-141 | finds a case with the source exactly if there is one, whoever owns it |
| EngineSpec.ResolveMerchant | apps/api/app/recovery/engine.py:303-353 | the one owner of everything the event names, none if nothing is owned, an ownership error otherwise |
| EngineClaims.OwnershipRefused | apps/api/app/recovery/engine.py:303-353 | the ownership error is raised exactly when two merchants own what is named, or an unmapped account names a row of a mapped merchant |
| EngineInvariants.TransitionKeeps | apps/api/app/recovery/engine.py:541-564 | one transition keeps terminal rows frozen, the audit trail true and all references intact |
| EngineInvariants.GetOrCreateKeeps | apps/api/app/recovery/engine.py:458-511 | finding or creating a case keeps all of them, and keeps case sources unique per merchant |
| EngineInvariants.HandleKeeps | apps/api/app/recovery/engine.py:43-83 | so does every accepted webhook |
| EngineInvariants.ReconcileKeeps | apps/api/app/webhooks/reconciliation.py:59-132 | and every reconciliation, which changes no case |
| HandlingTable.FailedPaymentTable | apps/api/app/recovery/engine.py:177-218 | a failed payment whose order still owes money: which case it is, its amount, whether it is stopped, expired or left going, its one audit with reason and actor, and that no other case changes |
| HandlingTable.AtRiskBounds | apps/api/app/recovery/engine.py:193-218 | the amount at risk is the payment's amount or the order's smaller positive due |
| HandlingTable.UnpaidLinkTable | apps/api/app/recovery/engine.py:266-301 | the same for a link partly paid or expired without a case, which is attached to its own case with what is still to be collected |
| HandlingTable.ClosingTable | apps/api/app/recovery/engine.py:166-265 | every other event decides at most the correlated case, by the mirror's verdict and then its window |
| HandlingTable.StopConditions | apps/api/app/recovery/engine.py:513-539 | after an event that opens or refreshes a case, a live case is STOPPED exactly if its merchant is inactive or its customer opted out, with one audit naming which; otherwise EXPIRED exactly if its window is over; a terminal case stays |
| HandlingTable.PreparedTable | apps/api/app/recovery/engine.py:355-427 | which rows the event inserts: those its snapshot names and the database lacks, for the resolved owner, with exactly these fields |
| HandlingTable.CorrelationTable | apps/api/app/recovery/engine.py:429-456 | the case an event is about is the reconciler's, else the oldest by link, else by payment, else by order; none only if there is none |
| HandlingTable.OnlyHandledWritten | apps/api/app/recovery/engine.py:43-83 | an event changes or creates at most one case, the one it handles |
| Convergence.HandleTwice | apps/api/app/recovery/engine.py:43-83 | replaying an event, under its own id or another, changes nothing if and only if it does not create a case for an expired link |
| Convergence.ExpiredLinkReplay | apps/api/app/recovery/engine.py:220-301 | the excepted replay closes the case it had created, as EXPIRED |
| Convergence.HandleThrice | apps/api/app/recovery/engine.py:43-83 | a third application always equals the second, whatever event ids the three come under |
| EngineClaims.OwnershipAgrees | apps/api/app/recovery/engine.py:303-427 | after handling, all local rows the snapshot names and all new cases have one merchant, the mapped account's if there is one |
| EngineClaims.SettleFails | apps/api/app/recovery/engine.py:189-279 | which events are refused once the owner is known: a paid link without a captured payment and a paid order, or a new case that is not valid; the two errors about missing ownership cannot occur |
| EngineClaims.RecoveredNeedsEvidence | apps/api/app/recovery/engine.py:166-249 | a case turned RECOVERED is justified by a captured payment or a paid or zero-due order in the mirror, by both for a link |
| EngineClaims.CommitCanFail | apps/api/app/db/models.py:206-227 | an accepted event breaks a constraint exactly when a zero-amount failure meets a live case |
| RecoveryEngine.RecoveryCaseEngine.Transition | apps/api/app/recovery/engine.py:541-564 | sets the status and appends the audit, or does nothing on a terminal case |
| RecoveryEngine.RecoveryCaseEngine.ApplyStops | apps/api/app/recovery/engine.py:513-539 | stops the case of an inactive merchant, else of an opted-out customer |
| RecoveryEngine.RecoveryCaseEngine.GetOrCreate | apps/api/app/recovery/engine.py:458-511 | the merchant's case for the source, or a validated new one with its audit |
| RecoveryEngine.RecoveryCaseEngine.ResolveMerchant | apps/api/app/recovery/engine.py:303-353 | collects the owners step by step and agrees with the set of all of them |
| RecoveryEngine.RecoveryCaseEngine.EnsureResources | apps/api/app/recovery/engine.py:355-427 | inserts the missing rows from the snapshot and locates the local ones |
| RecoveryEngine.RecoveryCaseEngine.FindCorrelated | apps/api/app/recovery/engine.py:429-456 | the reconciler's case, else the first of link, payment and order |
| RecoveryEngine.RecoveryCaseEngine.HandlePayment | apps/api/app/recovery/engine.py:152-218 | the new working state, or the error, of a payment event |
| RecoveryEngine.RecoveryCaseEngine.HandleLink | apps/api/app/recovery/engine.py:220-301 | the same for a payment-link event |
| RecoveryEngine.RecoveryCaseEngine.HandleWebhook | apps/api/app/recovery/engine.py:43-83 | the whole handler equals the function the theorems above are about |
| RecoveryEngine.RecoveryCaseEngine.ScanUnpaidOrders | apps/api/app/recovery/engine.py:85-126 | the scan loop equals the function scanned order by order |
| RecoveryEngine.RecoveryCaseEngine.ExpireDueCases | apps/api/app/recovery/engine.py:128-150 | the sweep loop expires the due cases it lists and returns them |
| SweepSpec.SweepCases | apps/api/app/recovery/engine.py:128-150 | a case that is terminal, whose window is open or that belongs to another merchant stays as it is; every other becomes EXPIRED |
| SweepSpec.SweepAudits | apps/api/app/recovery/engine.py:135-150 | the sweep returns exactly the cases it expires, once each, and logs each expiry once, in that order |
| SweepSpec.SweepThenActive | apps/api/app/repositories/recovery_cases.py:62-79 | after a sweep the active list is exactly the non-terminal cases |
| SweepSpec.SweepsAgree | apps/api/app/recovery/engine.py:128-150 | sweeping early and again later leaves the cases as one later sweep does |
| SweepSpec.ScanCompletes | apps/api/app/recovery/engine.py:85-126 | after a scan every order not paid, with money due, old enough and of the merchant asked for has exactly one ORDER case of its merchant, which the scan returned and which is terminal if the merchant is inactive or the customer opted out |
| SweepSpec.ScanReturnsOnly | apps/api/app/recovery/engine.py:93-126 | the scan returns no other case |
| SweepSpec.ScanOrderTable | apps/api/app/recovery/engine.py:107-125 | one turn finds or creates the order's case with exactly these fields, stops it if its merchant or the order's customer rules it out, and leaves it alone otherwise |
| SweepSpec.ScanFails | apps/api/app/recovery/engine.py:106-126 | the scan is refused exactly when some selected order cannot become a case |
| SweepSpec.Rescan | apps/api/app/recovery/engine.py:85-126 | scanning again at the same time finds the same cases and adds nothing |
| Database.Session.Commit | apps/api/app/db/models.py:43-522 | the working copy becomes durable exactly when the keys, references and ranges of all tables hold, webhook_events' reference to a case included |
| Reconciler.RazorpayWebhookReconciler.ReconcilePayment | apps/api/app/webhooks/reconciliation.py:66-85 | reads payment and order, syncs the local rows, finds the case |
| Reconciler.RazorpayWebhookReconciler.ReconcileLink | apps/api/app/webhooks/reconciliation.py:87-132 | the same from a link, its payment and its order |
| Reconciler.RazorpayWebhookReconciler.Reconcile | apps/api/app/webhooks/reconciliation.py:59-64 | dispatches, and equals the function the theorems are about |
| ReadingClaims.PaymentEventReads | apps/api/app/webhooks/reconciliation.py:66-85 | which calls a payment event makes, exactly when it fails and how, which rows take which answers, what the engine is handed and which case is found |
| ReadingClaims.LinkEventReads | apps/api/app/webhooks/reconciliation.py:87-132 | the same for a link event, with both id fallbacks |
| ReadingClaims.OtherEventsRefused | apps/api/app/webhooks/reconciliation.py:59-64 | every other event is a routing error |
| MirrorClaims.AttemptMirrors | apps/api/app/webhooks/reconciliation.py:143-198 | a successful event leaves every row it read with the provider's answer and every other row as it was |
| MirrorClaims.DeliveredCase | apps/api/app/recovery/engine.py:43-83 | a delivery changes or creates at most one case, the one its event row will name |
| MirrorClaims.DeliveredEvidence | apps/api/app/recovery/engine.py:166-249 | a case a delivery turns RECOVERED is the one its event row will name, and is justified by what the provider answered in that delivery |
| MirrorClaims.ExtraFieldsKept | apps/api/app/recovery/engine.py:381-404 | when the fields a snapshot leaves out reach the mirror |
| MirrorClaims.LinkFieldsKept | apps/api/app/recovery/engine.py:406-426 | the same for a link's short address and expiry |
| Counterexamples.InsertedPaymentLosesBank | apps/api/app/recovery/engine.py:381-404 | a payment whose bank is lost |
| Counterexamples.ReplayClosesLinkCase | apps/api/app/recovery/engine.py:220-301 | an event whose replay changes the database |
| Counterexamples.CrashStrandsEvent | apps/api/app/webhooks/service.py:40-75 | an event another attempt would have processed, PROCESSING after every later run |
| Counterexamples.ZeroAmountBreaksCommit | apps/api/app/db/models.py:213-215 | an accepted event whose commit is rejected |
| Counterexamples.LowerCaseCurrencyStopsScan | apps/api/app/domain/recovery_case.py:145-146 | an order that makes the whole scan fail |
| ReplyClaims.AttemptFails | apps/api/app/webhooks/service.py:75-125 | working on an event fails exactly if the gateway cannot be opened, reconciliation fails, the engine refuses or the commit does, with that error; else the row names the case the engine handled or the one the reconciler found |
| DeliverySpec.AllOrNothing | apps/api/app/webhooks/service.py:75-134 | a delivery applies its whole attempt and becomes PROCESSED, or leaves every domain row as it was; it touches no other event |
| DeliverySpec.SettledRowsStay | apps/api/app/webhooks/service.py:41-58 | PROCESSING, PROCESSED and IGNORED rows are never taken up again |
| DeliverySpec.StrandedExactly | apps/api/app/webhooks/service.py:40-75 | a delivery leaves its event PROCESSING exactly when it was so or the worker dies processing a supported, unsettled one |
| Ingestion.WebhookEventRepository.Record | apps/api/app/webhooks/repository.py:26-57 | inserts and commits the row exactly if the id is new |
| Ingestion.WebhookEventRepository.MarkProcessing | apps/api/app/webhooks/repository.py:59-63 | durable PROCESSING, one more attempt, no error |
| Ingestion.WebhookEventRepository.MarkIgnored | apps/api/app/webhooks/repository.py:65-68 | durable IGNORED |
| Ingestion.WebhookEventRepository.MarkProcessed | apps/api/app/webhooks/repository.py:70-84 | the event and everything pending become durable together, or nothing does |
| Ingestion.WebhookEventRepository.MarkFailed | apps/api/app/webhooks/repository.py:86-90 | durable FAILED with the error |
| Ingestion.WebhookIngestionService.Begin | apps/api/app/webhooks/service.py:41-75 | duplicates and unsupported events are answered at once, others marked PROCESSING |
| Ingestion.WebhookIngestionService.Process | apps/api/app/webhooks/service.py:77-97 | reconcile, handle and mark processed; an error commits nothing |
| Ingestion.WebhookIngestionService.ProcessOrFail | apps/api/app/webhooks/service.py:77-125 | a failure is rolled back, then recorded |
| Ingestion.WebhookIngestionService.Ingest | apps/api/app/webhooks/service.py:36-134 | the committed database, the event's row and the reply of a whole delivery, with a crash anywhere between commits |
| ReplyClaims.DeliveryTold | apps/api/app/webhooks/service.py:36-134 | the sender gets an error exactly if an event that may be tried and is supported was worked on and failed, no reply only if the worker died, and otherwise the final status the row has and whether it was known; the row counts the attempts and tells the outcome, the case, the resource and the snapshot |
| Dedup.RecordsOnce | apps/api/app/webhooks/repository.py:26-57 | under every interleaving of any number of callers: one row an id, at most one creator, everybody returns the same row, nobody raises |
| Dedup.RowHasOneCreator | apps/api/app/webhooks/repository.py:36-57 | a new row has a creator among the callers and holds the creator's payload; an old row is untouched |
| Dedup.ReturnsInThree | apps/api/app/webhooks/repository.py:26-57 | a caller returns within three of its own steps |
| CaseSpec.Stripped | apps/api/app/repositories/recovery_cases.py:36 | stripping a source id |
| CaseSpec.CreateAccepted | apps/api/app/repositories/recovery_cases.py:18-51 | a submitted case is stored exactly when its fields are well formed, its references exist and the merchant has none for that source; it is stored stripped and AT_RISK |
| CaseSpec.CreateKeeps | apps/api/app/repositories/recovery_cases.py:18-51 | creation keeps every invariant |
| CaseSpec.PatchAccepted | apps/api/app/repositories/recovery_cases.py:81-92 | a PATCH is accepted exactly on a case that is there and may move so, and changes its status only |
| CaseSpec.PatchKeeps | apps/api/app/repositories/recovery_cases.py:81-92 | a PATCH is accepted only on a live case, changes that one status and keeps every invariant |
| CaseRepository.RecoveryCaseRepository.Create | apps/api/app/repositories/recovery_cases.py:18-51 | durable new row, or nothing changes |
| CaseRepository.RecoveryCaseRepository.Transition | apps/api/app/repositories/recovery_cases.py:81-92 | durable new status, or nothing changes |
| BaselineClaims.ControlShare | apps/api/app/baseline/service.py:375-380 | the control count is the nearest to the exact share, halves up, exact at 0 and 100 percent, moved only to leave both groups a case |
| BaselineClaims.ControlShareMonotone | apps/api/app/baseline/service.py:375-380 | a larger percentage never takes fewer cases |
| BaselineClaims.BatchPartitions | apps/api/app/baseline/service.py:107-165 | a batch assigns exactly its eligible cases, leaves control statuses alone, moves treatment cases to DECISION_READY and changes no other case |
| BaselineClaims.BatchKeeps | apps/api/app/baseline/service.py:107-165 | a batch keeps the invariants of cases and experiment tables |
| BaselineClaims.OneActionPerTreatedCase | apps/api/app/baseline/service.py:310-341 | a case has a baseline action and a decision if and only if it was assigned to treatment, one of each |
| BaselineClaims.GroupsIgnoreListOrder | apps/api/app/baseline/service.py:128-133 | with distinct digests the groups do not depend on list order |
| RuleClaims.BatchAccepted | apps/api/app/baseline/service.py:99-118 | a batch runs exactly if its merchant is there and active, it has a name, the share is a percentage and there is a case to take |
| RuleClaims.BatchRanks | apps/api/app/baseline/service.py:107-133 | a batch takes exactly the merchant's unassigned live cases before a decision whose window is open, once each, in the order of their digests |
| RuleClaims.BatchPrescribes | apps/api/app/baseline/rules.py:25-59 | every treated case gets exactly one action and one decision of the same kind: a link for an order, a delay for a link, and for a payment a link if the merchant's own row tells of a passing failure, else a stop |
| RuleClaims.BatchLogs | apps/api/app/baseline/service.py:343-373 | the log of a batch: each case's group in rank order, and for a treated case its prescription |
| RuleClaims.OutcomeAccepted | apps/api/app/baseline/service.py:176-230 | an outcome is accepted exactly if it repeats the recorded one, or there is none, the action is one of the baseline, and the outcome is credible |
| RuleClaims.OutcomeRecordedAs | apps/api/app/baseline/service.py:199-256 | the row, the audit and the case status an accepted outcome leaves |
| BaselineClaims.OutcomeClaims | apps/api/app/baseline/service.py:176-256 | a recovery records the amount of the merchant's captured payment; anything else recovers nothing; a repetition changes nothing |
| BaselineClaims.OutcomeKeepsTrials | apps/api/app/baseline/service.py:176-256 | at most one outcome an action, and a recovered outcome's case is RECOVERED |
| BaselineService.RuleBaselineService.RunBatch | apps/api/app/baseline/service.py:89-165 | the batch equals the function the theorems are about; a refusal changes nothing |
| BaselineService.RuleBaselineService.AssignAll | apps/api/app/baseline/service.py:137-156 | the assignment loop, and one action created per treatment case |
| BaselineService.RuleBaselineService.CreateRuleDecision | apps/api/app/baseline/service.py:310-354 | steps the case to DECISION_READY and adds one decision, one action and one audit |
| BaselineService.RuleBaselineService.RecordOutcome | apps/api/app/baseline/service.py:167-256 | a recorded outcome, or a refusal that mutates nothing |
| BaselineService.RuleBaselineService.CountKinds | apps/api/app/baseline/service.py:281-289 | the distribution holds exactly the kinds that occur, with their counts |
| BaselineService.RuleBaselineService.Report | apps/api/app/baseline/service.py:258-308 | the report equals the function the theorems are about |
| ReportSpec.ReportRates | apps/api/app/baseline/service.py:382-403 | rates lie in [0, 1] within half a millionth of the exact ratio, the lift in [-1, 1] |
| ReportSpec.DistributionAddsUp | apps/api/app/baseline/service.py:276-289 | the reported actions add up to the treatment group |
| ReportSpec.ReportTable | apps/api/app/baseline/service.py:258-308 | the whole report: both groups' assigned and recovered rows, rates nearest in millionths with ties to even, lift as treatment less control, outcomes and actions of each kind counted over the treated cases |
| RecoverySystem.RunKeeps | apps/api/app/db/models.py:204-284 | every reachable database satisfies all constraints, the audit trail and the experiment invariants, and rows only evolve |
| RecoverySystem.ScanServed | apps/api/app/api/cases.py:114-128 | a scan step sweeps and then goes through exactly the unpaid orders that are old enough |
| RecoverySystem.InvDurable | apps/api/app/db/models.py:43-522 | so no constraint of any table, webhook_events' reference to a case included, can be broken in a reachable database |
| RecoverySystem.FreshDatabase | apps/api/app/db/models.py:43-67 | the runs start somewhere: merchants and customers without anything else satisfy the invariant |
| CaseHistory.GateOverRuns | apps/api/app/domain/recovery_case.py:17-128 | whatever requests drive a case, all its statuses over a run form one path of the state machine, so the policy gate holds at each point of it and k executions allow at most 6k+6 changes |
| CaseHistory.HistoryOverRuns | apps/api/app/db/models.py:282-284 | the statuses observed after each step lie on that path in order |
| RunClaims.CasesOverTime | apps/api/app/recovery/engine.py:541-564 | between any two moments of any run a case's status moved along accepted transitions; a terminal case and a set experiment never change |
| RunClaims.StatusAuditsOverTime | apps/api/app/recovery/engine.py:541-581 | at most one status audit a case, telling its present status |
| RunClaims.ExactlyOnce | apps/api/app/webhooks/service.py:41-134 | the tables of any run are those reached by applying each event that became PROCESSED once, in order, with the other requests |
| RunClaims.AppliedOnce | apps/api/app/webhooks/service.py:41-134 | the applied events are distinct and exactly the newly PROCESSED ones |
| RunClaims.SettledForever | apps/api/app/webhooks/service.py:42-58 | settled event rows never change again over any run |
| RunClaims.RetrySucceeds | apps/api/app/webhooks/service.py:75-125 | at any moment a delivery can still make its event PROCESSED exactly when the row is unsettled and the attempt succeeds; a failed attempt leaves it unsettled |
| RunClaims.MirrorLatest | apps/api/app/webhooks/reconciliation.py:66-198 | every stored row shows the answer of the last successful event that read it, or its first value |
| RunClaims.MirrorNeverRegresses | apps/api/app/webhooks/reconciliation.py:143-198 | if the provider never takes back a capture or payment, neither does the mirror, in whatever order events arrive |
| RunOutcomes.ServedEvidence | apps/api/app/recovery/engine.py:166-249 | a step that turns a case RECOVERED is entitled to: a successful delivery that handles this case on the provider's answers, an outcome of this case naming a captured payment, or its PATCH |
| RunOutcomes.RecoveredBecause | apps/api/app/recovery/engine.py:166-249 | for every case that became RECOVERED in a run there is a step before which it was not and after which it was, that succeeded if it was a delivery, and that was entitled to recover this very case |
| RunOutcomes.PatchNeedsNoEvidence | apps/api/app/repositories/recovery_cases.py:81-92 | PATCH recovers any live case, without evidence and without an audit |
| RunOutcomes.ReportOverTime | apps/api/app/baseline/service.py:258-308 | after its batch a group's denominator is fixed and its recovered count never falls |
| RunOutcomes.OutcomesForever | apps/api/app/db/models.py:415-430 | recorded outcomes stay, one an action, and a recovered outcome's case stays RECOVERED |
| RevenueSpec.HalfUp | apps/api/app/analytics/revenue_at_risk.py:155-163 | the nearest integer, ties away from zero |
| RevenueSpec.Probability | apps/api/app/analytics/revenue_at_risk.py:138-153 | only a number from 0 to 1 counts as a probability |
| RevenueClaims.ScoreBounds | apps/api/app/analytics/revenue_at_risk.py:165-195 | the priority score lies between the value at stake and twice it and grows with time |
| RevenueClaims.LatestIsNewest | apps/api/app/analytics/revenue_at_risk.py:119-136 | the latest decision is the maximum by creation time, then id |
| RevenueClaims.OpportunityTold | apps/api/app/analytics/revenue_at_risk.py:139-195 | one case's figures: the probability exactly if the score is usable, the nearest expected amount, the score nearest to the basis raised by the share of the window that has passed |
| RevenueClaims.TotalsOfOne | apps/api/app/analytics/revenue_at_risk.py:62-86 | what one case adds to its currency and to no other |
| RevenueClaims.TotalsAdd | apps/api/app/analytics/revenue_at_risk.py:62-86 | the totals of two lists are added figure by figure |
| RevenueClaims.PrecedesMeans | apps/api/app/analytics/revenue_at_risk.py:88-104 | alphabetical order: the first difference decides, a prefix comes first |
| RevenueClaims.TopDescends | apps/api/app/analytics/revenue_at_risk.py:105-117 | a later row, or one left out, has a lower score, or the same and a lower amount, or both the same and a lower id |
| RevenueClaims.TotalBounds | apps/api/app/analytics/revenue_at_risk.py:62-86 | 0 <= expected <= at risk, estimates <= cases, and rounding within half a unit an estimate of the exact sum |
| RevenueClaims.ActiveCountsAddUp | apps/api/app/analytics/revenue_at_risk.py:62-104 | the currencies' active counts add up to the number of active cases |
| RevenueClaims.SnapshotFigures | apps/api/app/analytics/revenue_at_risk.py:48-117 | one summary a currency, alphabetical, each in proportion and together complete |
| RevenueClaims.TopIsCanonical | apps/api/app/analytics/revenue_at_risk.py:105-117 | the top list is the prefix of the unique descending arrangement and outranks all it omits |
| RevenueClaims.DistinctCases | apps/api/app/analytics/revenue_at_risk.py:55-59 | distinct active cases make distinct opportunities, which is what the canonical ranking asks for |
| RevenueClaims.SnapshotIgnoresListOrder | apps/api/app/analytics/revenue_at_risk.py:48-117 | the whole snapshot does not depend on the order the active cases are listed in |
| RevenueAggregator.RevenueAtRiskAggregator.LatestDecisions | apps/api/app/analytics/revenue_at_risk.py:119-136 | keeping the first row per case keeps its latest decision |
| RevenueAggregator.RevenueAtRiskAggregator.AddTotals | apps/api/app/analytics/revenue_at_risk.py:68-86 | one loop turn keeps the dictionary equal to the per-currency sums |
| RevenueAggregator.RevenueAtRiskAggregator.Tally | apps/api/app/analytics/revenue_at_risk.py:62-99 | the loop's totals and opportunities are the sums and rows of all active cases |
| RevenueAggregator.RevenueAtRiskAggregator.BuildSnapshot | apps/api/app/analytics/revenue_at_risk.py:48-117 | the snapshot equals the function the theorems are about |
| Simulator.ColumnsAligned | ml/dataset.py:31-43 | outcome and probability columns line up: an outcome is a recovery exactly when the draw is below that column's latent probability |
| Simulator.Clamp | simulator/generator.py:234-236 | probabilities are kept between 0.01 and 0.95 |
| Evaluation.OracleDominates | ml/training.py:182-205 | on exact probabilities, and whenever no row is missed, the oracle recovers every row any policy recovers |
| Evaluation.OracleIsBest | ml/training.py:182-205 | however probabilities are rounded, no policy's rate beats the oracle's if and only if no row is missed |
| Evaluation.OracleGap | ml/training.py:182-205 | a policy's rate exceeds the oracle's by at most the share of missed rows, which the best picks attain |
| Evaluation.PolicyLadder | ml/training.py:182-214 | doing nothing <= the rule <= always a link <= the oracle, and the model's lift is at most the oracle's; the oracle's rungs give way by at most the share of missed rows |
| Evaluation.PolicyPicks | ml/training.py:182-201 | the rule picks a link for a passing failure and nothing otherwise; the model the first column it predicts best |
| Evaluation.CompareTable | ml/training.py:202-214 | each rate is the share of rows whose draw is below the picked chance, the lift is model less rule, and the model is ahead exactly if its rate is higher |
| Evaluation.OraclePicksFirstTied | ml/training.py:182-188 | the oracle picks the first column that reads like the best chance |
| Evaluation.OnlyTiesAreOverlooked | ml/training.py:182-188 | a better column it overlooks reads exactly like the picked one |
| Evaluation.OracleMisses | ml/training.py:182-205 | some intervention recovers a row the oracle does not exactly when the draw lies between the chance of the first tied column and the best chance |
| Evaluation.SixDigitsOrdered | simulator/generator.py:219-222 | six digits keep order and stay within half a millionth |
| Evaluation.SixDigitOracle | simulator/generator.py:206-222 | the missed rows on the six-digit files, in a gap of at most a millionth |
| Evaluation.SixDigitsCanTie | simulator/generator.py:218-222 | the generator can draw such a row |
| Calibration.OneBin | ml/training.py:163-169 | every probability falls in exactly one bin |
| Calibration.ErrorSandwich | ml/training.py:158-173 | gap of the means <= calibration error <= mean absolute error <= 1 |
| Calibration.FinerNeverLower | ml/training.py:158-173 | cutting each bin into equal parts never lowers the error |
| Calibration.ExpectedCalibrationError | ml/training.py:158-173 | the loop over bins, with its masks and means, computes that error |

## Left out

- Rows are values inside a database value, not shared objects: SQLAlchemy's identity map, lazy loading and aliasing of rows are not modelled; nor are timestamps such as created_at and updated_at of rows, except an order's creation time and a decision's.
- Generated ids are list indices in creation order. Where the code orders by an id's text (decisions, opportunities), the order is an arbitrary injective key.
- SHA-256 digests and UUIDs are abstract; signatures are taken as verified before a delivery starts.
- Time is an integer and each handled event has one clock reading; time zones and naive datetimes are not modelled.
- Concurrency: each request is one atomic step, and deliveries are serialised; only `record` is modelled with interleaved callers. Two overlapping deliveries of one RECEIVED row both process it; the code does not prevent that.
- Where a query without ORDER BY could return any of several matching cases of different merchants, the model takes the oldest.
- Correlation of existing cases is by source id alone, as in the code; that it stays within one merchant is not claimed.
- Text handling is ASCII: whitespace is blank, tab, line feed and carriage return, and a currency letter is A to Z.
- Fields that carry no decision are not modelled: attempt and contact counts, experiment names and statuses, decision explanations, audit snapshots beyond the values above, short error texts.
- Decimal context limits and binary floating point: rates, probabilities, scores and calibration errors are exact rationals or reals.
- `list` and `get` of the repositories, the API routes, seeding, migrations, logging and the user interface would only add easy members.
- Model fitting, data splitting, CSV and JSON files, and the generator's distributions: draws and predictions are arbitrary inputs in range; action_selection_accuracy is not modelled.
- Ingestion.WebhookIngestionService.Ingest: closing the gateway and log lines are not modelled.
- The scan's query result is taken as a list of distinct ids in creation order (IsCursor); ties come in any order.
- Evaluation.OracleDominates: does not hold on six-digit probabilities when a row is missed, because the code's oracle then picks a worse column; OracleIsBest and OracleGap say what holds instead.
- Ingestion.WebhookEventRepository.Record: assumes the row inserted is the first for its id, because deliveries are serialised here; the fallback after a unique-constraint error is in Dedup.
- Column widths, integer ranges and JSON columns: strings and integers are unbounded, so a provider text longer than its column (an error code beyond 255 characters, say), which would fail the delivery at its commit, is not modelled.
- The commits of the batch and outcome routes: their requests are steps of RecoverySystem, and InvDurable says their commits cannot fail.
- Calibration.ErrorSandwich: for probabilities from 0 to 1, as the estimators produce; a value outside falls in no bin.
