# Omni-Context: a verified model of its stateful core

Omni-Context captures pages in a browser extension, extracts decisions and evidence from them on a local server,
and lets an owner approve the plans that follow. This project models the parts of it that keep state or do
non-trivial computation, and proves what they promise, for all inputs, all runs and all adversaries:

- **The capture protocol** of the extension's service worker: a capture is split into chunks, each chunk becomes a
  remote job, polls settle the jobs in any order, and three stores that are never written together must agree again
  after a crash. `CaptureAudits` holds the records and the operations on them, `CaptureProtocol` the step system with
  one step for each storage write, `CaptureInvariant` and `CaptureTheorems` what every run keeps. `CaptureSettlement`
  says what the history of a group comes to and `CaptureHistory` reads that history off every run. `CaptureSubmission`
  follows the submission of one group apart from its settlements and `CaptureTracking` ties every run to it;
  `CaptureOrder` shows when two runs agree, `CaptureRisk` exactly when the order of polls can show, by the polls and
  restarts of `CaptureRestart`; `CaptureRejected` holds two such pairs of runs. `CaptureNotices` shows that no end of a
  group goes unshown, `CaptureUndisturbed` and `CaptureComplete` what a poll, a submission, a recovery and a whole
  capture come to when nothing comes between, in every store. `CaptureSignatures` says which committed signatures
  are kept, and in which order.
- **The approval lifecycle**: `ApprovalPolicy`, `ApprovalBinding` (the fourteen bound fields and their digest),
  `AuthorizationRecords`, `ApprovalStore`, `ApprovalLifecycle` (the service), `ApprovalTheorems` (what every run of
  it keeps), `ApprovalMeaning` (what each call does, in the terms of the policy), and `ControlApproval` (the control facade and its audit log, with interleaved calls).
- **The evidence path**: `CoverageBuilder` and `CoverageTheorems` (the coverage builder; `CoverageMeaning` says what an entry is
  in terms of its batches, and `CoverageLimit` has an input over its limits), `EvidenceGuard` (the bounded retrieval loop
  around an arbitrary collector) and `GuardControl` (what each of its rounds decides, by the outcomes reported),
  `EvidenceId` (the evidence id and its tuple encoding) and `Utf8Reader` (a reader for its bytes, RFC 3629 section 3).
- **Canonical JSON**: `CanonicalJson` (the printer and its injectivity), `JsonReader` (a reader of the grammar of RFC 8259
  sections 3 to 7, which reads what is printed) and `ObjectGraph` (the two cycle-detecting walks over a graph with sharing).
- **Decision lineage** (`DecisionLineage`) and the **control-session burst limiter** (`ControlSession`).

`JsText`, `StringOrder`, `Sorting`, `Options` and `EvidenceContracts` are shared vocabulary. Strings are sequences of
UTF-16 code units with JavaScript's order. Times are integers of milliseconds; the clock is a parameter of every
operation that reads it. Random ids, network replies, the native verifier, the evidence collector and the outcome
of every storage or audit write are parameters too, so each theorem holds whatever they answer.

Code that steps mutable state is modelled by classes and loops, each proved equal to a specification function;
the theorems are about those functions, over runs of arbitrary length.

## Findings

Where a promise does not hold in full, the code is kept as it is, an input shows it, and the exact condition is proved.

- `applyApproval` does not read the record again after it awaited the native verifier. A denial in between is undone
  (`ApprovalTheorems.LateCommitRevivesDenied`, with an instance in `LateCommitHappens`); the late commit does what an
  atomic call would do exactly when the record has not changed meanwhile (`LateCommitExactly`). The other
  theorems about the service are over serialised calls; those of `ControlApproval` include late commits.
- The order in which the jobs of a group are polled can show in its end when a receipt is stored and its registration
  is not. If the registration is rejected, the group is marked without the job, and after a restart both jobs are
  polled but only the first to settle counts (`CaptureRejected.RejectedWriteShows`). If the worker dies instead, and
  the receipt completes the group, recovery leaves the queued group without the job; a further restart between the
  two settlements then finds a receipt missing or not, as the order has it, and marks the group or not
  (`CaptureRejected.LostWriteShows`: a success with 12 entities, or an uncertain end with 7). The exact condition, on
  a state that can be inspected, is `CaptureRisk.AtRisk` (`CaptureRisk.OrderShowsExactly`); runs in which no job
  settles before it is registered or named by the mark agree on the mark and on the end
  (`CaptureOrder.PromptRunsAgree`).
- The constructor of the authorization service accepts a policy version with outer blanks, while the schema of the
  stored request trims it: under such a version no approval is ever applied, and under every other one apply succeeds
  on the remaining conditions alone (`ApprovalTheorems.ApplyExactly`).
- A committed capture signature is lost at once when the map is full, the key is new, and the key is an array index
  that is listed before every other key (`CaptureSignatures.NumericKeyLost`); otherwise it is kept
  (`CaptureSignatures.CommitKeeps`). The extension itself builds no such key: both of its senders join an origin and a
  path name (browser-extension/content.js:204, browser-extension/popup.js:240), and every key with a character that is
  no digit is kept (`CaptureSignatures.PageKeysAreKept`).
- A class over its collection limits is promised an entry that fails closed, but the entry lists the ids of all its
  candidates, and the snapshot schema takes at most a thousand: the builder throws instead
  (`CoverageTheorems.OverLimitThrows`, with an instance in `CoverageLimit.OverLimitHappens`), and under default
  limits it does so exactly when such a class has more than a thousand different ids (`RejectedExactly`,
  `EntryFitsExactly`, `WithinLimitsFits`), or more than a thousand classes are required.
- Distinct identity components can share an evidence id when they hold different lone surrogates, because UTF-8
  encoding replaces each of them alike (`EvidenceId.LoneSurrogatesShareAnId`); on well-formed strings ids coincide
  exactly when the components do (`EvidenceId.EvidenceIdIdentifies`).
- The window between a capture group's success and the write of its signature is real (`CaptureTheorems.GapIsReal`);
  one poll of the receipt that records a settlement closes it (`CaptureTheorems.ReplayFinishes`).

## Model

Main results first; the rows from `CaptureAudits.CaptureStorage.AppendAudit` on are the operations, each proved equal to
the function that the results are about.

| member | source | states |
|---|---|---|
| CaptureAudits.ChunksRoundTrip | browser-extension/background.js:582-591 | the chunks put together are the text again; none is empty or longer than the chunk size |
| CaptureSettlement.SettlementMeaning | browser-extension/background.js:389-488 | what one settlement makes of any audit: lists, counts, sums and the partial flag, and the status, which changes when as many jobs have settled as are awaited |
| CaptureSettlement.UnionIsDedupe | browser-extension/background.js:308-311 | the accepted jobs of a mark are both lists put together, each job at its first place |
| CaptureSettlement.RunHolds | browser-extension/background.js:302-524 | from the start of a submission, whatever the order of settlements, registrations and the mark, the audit holds what each job's first outcome, the accepted jobs and the mark determine, as long as no more jobs settle than there are chunks, fewer before a mark, and after a mark only accepted ones |
| CaptureSettlement.OrderIndependence | browser-extension/background.js:302-524 | two such histories with the same first outcomes and the same mark bring status, counts, job lists and sums to the same end |
| CaptureSettlement.GroupEnds | browser-extension/background.js:389-393 | once all accepted jobs have settled: uncertain if marked, otherwise success exactly when all chunks succeeded, failed exactly when all failed, partial when neither |
| CaptureHistory.HistoryTells | browser-extension/background.js:302-524 | in every reachable state the stored audit of a started group is its recorded history run from the start; its settled jobs, job ids and uncertainty are those of the history |
| CaptureSubmission.ViewRevisits | browser-extension/background.js:352-381 | recovery marks an unmarked open group that has fewer receipts than chunks, with all its receipts accepted, registers the receipts of one that was not queued, and leaves every other as it is |
| CaptureTracking.TrackedKept | browser-extension/background.js:88-101 | every step that settles no job early keeps the audit, the receipts, the pollers, the submission under way and what recovery has read of a group in agreement with the milestones of its submission |
| CaptureOrder.PromptRunsAgree | browser-extension/background.js:352-524 | any two runs of the protocol in which the submission of a group passes the same milestones and its jobs get the same first answers, polls and crashes falling anywhere: if in neither a job settles before it is registered or named by the mark, both have the same mark, and the group comes to the same end |
| CaptureRisk.OrderShowsExactly | browser-extension/background.js:348-388 | once the submission of a group is over, and no job has settled early, there are two continuations with the same milestones and the same answers but different ends if and only if the group is at risk: it is open, a receipt waits whose job is not accepted, an accepted job is still due, and the group is marked or has a job for every chunk |
| CaptureRisk.EarlyOnlyAtRisk | browser-extension/background.js:395-449 | a job settles early only out of a state in which its group is at risk |
| CaptureRejected.RejectedWriteShows | browser-extension/background.js:677-693 | a run of the protocol: two chunks, the second registration rejected, a restart; the two orders of the polls end uncertain with 5 entities of the first job or 7 of the second |
| CaptureRejected.LostWriteShows | browser-extension/background.js:352-372 | a run of the protocol: two chunks, the worker dies before the second registration and once more between the polls; one order ends as a success with 12 entities, the other uncertain with 7 |
| CaptureSignatures.CommitKeeps | browser-extension/background.js:242-258 | the committed key is in the map afterwards if and only if it was not the new first index key of a full map |
| CaptureSignatures.CommitExactly | browser-extension/background.js:242-258 | a commit changes or adds one signature; all others keep their values and their order, except that the first makes room when there are two hundred |
| CaptureSignatures.OrderKept | browser-extension/background.js:242-258 | the map always lists array indices first, ascending, and no other key before one |
| CaptureSignatures.PageKeysAreKept | browser-extension/background.js:242-258 | a key that is no array index is always kept; a key with a character that is no digit is such a key |
| CaptureSignatures.NumericKeyLost | browser-extension/background.js:233-258 | a full map of two hundred normalized page signatures drops the normalized key "7" as it is committed |
| CaptureInvariant.EditOk | browser-extension/background.js:274-347 | every write of a poll, a submission or a recovery keeps an audit's books and ties it to the jobs issued for it |
| CaptureInvariant.SoundKept | browser-extension/background.js:637-746 | every step keeps stores and submissions consistent, among them one submission per group and none before recovery has ended |
| CaptureInvariant.SettleIsRecord | browser-extension/background.js:395-524 | a settlement step of the protocol writes and reports what recording the outcome does |
| CaptureInvariant.MarkIsMark | browser-extension/background.js:684-691 | a mark step writes and reports what marking with the unconfirmed chunks does |
| CaptureInvariant.SubmissionIsUpdate | browser-extension/background.js:641-701 | the other submission steps are updates of an audit that may still change |
| CaptureInvariant.RecoverIsCall | browser-extension/background.js:352-381 | recovery leaves, requeues or marks each audit it read by the same operations |
| CaptureInvariant.TerminalForever | browser-extension/background.js:229-231 | from any state, a terminal audit is never changed by any later step; it can only leave the list |
| CaptureTheorems.CrashSafeDeduplication | browser-extension/background.js:395-524 | in every reachable state a stored success with a signature has it written, or the receipt of its finalising job is still pending with that signature |
| CaptureTheorems.OnlySuccessIsWritten | browser-extension/background.js:490-523 | a signature is written only for a group that succeeded, and it is that group's |
| CaptureTheorems.OneOutcome | browser-extension/background.js:840-880 | a group has at most one terminal outcome and at most one notification, and none without an outcome, however often jobs are replayed; that an outcome is shown is `CaptureNotices.EveryEndIsShown` |
| CaptureNotices.EveryEndIsShown | browser-extension/background.js:770-818 | in a run that neither crashes nor drops a task, every group with a reported outcome, and every stored group with text that has ended, is shown or has a task on its way to show it; with no task left, every one is shown |
| CaptureNotices.ReportGoesOn | browser-extension/background.js:682-691 | a settlement, a mark or a recovery that reports an outcome leaves its own task with that outcome to show |
| CaptureNotices.EndIsReported | browser-extension/background.js:430-488 | whatever step ends a group with text reports its outcome |
| CaptureUndisturbed.UndisturbedPoll | browser-extension/background.js:765-829 | a poll that nothing disturbs, by all stores: the settlement recorded, a terminal outcome reported and shown exactly once when it comes, the signature of a success written, also on a replay, and the receipt released |
| CaptureUndisturbed.UnwrittenEnd | browser-extension/background.js:490-523 | when the write of the signature fails the outcome is shown and the receipt kept |
| CaptureUndisturbed.PollOfForgotten | browser-extension/background.js:395-402 | the poll of a job whose group has left the list only releases the receipt |
| CaptureComplete.SubmissionComesTo | browser-extension/background.js:637-746 | a submission whose chunks are all accepted leaves its audit queued with every job in order, and each job with its receipt, its chunk number and its poller |
| CaptureComplete.EmptyCapture | browser-extension/background.js:641-645 | a capture without text fails at once, and nothing is reported or shown |
| CaptureComplete.RefusedOrLost | browser-extension/background.js:525-545 | a refused capture is only recorded, as blocked; a lost task or a crash changes no store |
| CaptureComplete.BrokenOff | browser-extension/background.js:682-700 | a submission that breaks off, at the reply, the receipt or the registration of a chunk, marks its group with the chunks after those accepted unconfirmed; if every accepted job has settled that end is reported and shown |
| CaptureComplete.RecoveryDoubts | browser-extension/background.js:352-388 | a recovery that does not find every chunk accepted marks the group with the numbers above those found unconfirmed, and shows the end if there is one |
| CaptureComplete.RecoveryTrusts | browser-extension/background.js:352-372 | a recovery that finds every chunk accepted queues a group whose submission was not finished, with all jobs found, and leaves any other audit alone |
| CaptureComplete.CaptureComesTo | browser-extension/background.js:637-829 | a whole capture that nothing disturbs: success exactly when every chunk succeeds, failure exactly when every chunk fails, partial otherwise; reported once, shown once, the signature written exactly on success, no receipt left |
| CaptureTheorems.TerminalNeverChanges | browser-extension/background.js:274-300 | in every reachable state and after any further steps a terminal audit is the same or evicted |
| CaptureTheorems.SettlementConserved | browser-extension/background.js:424-488 | settled jobs are the disjoint union of completed, partial and failed jobs, all issued for the group |
| CaptureTheorems.SuccessIsComplete | browser-extension/background.js:430-449 | success means that every expected chunk has a completed job and that none is uncertain |
| CaptureTheorems.ReplayFinishes | browser-extension/background.js:403-420 | after a crash in the gap one poll of the receipt that records a settlement, whichever it is, writes the signature and changes no audit |
| CaptureTheorems.GapIsReal | browser-extension/background.js:399-523 | a run that crashes after the last settlement leaves a success whose signature is not written |
| ApprovalPolicy.ComputePlanExpiry | brain-server/src/approval/policy.ts:83-110 | the expiry lies after creation and within the cap, a request can only shorten it, and it is refused exactly when the request is not in the future |
| ApprovalBinding.PayloadSame | brain-server/src/approval/binding.ts:137-161 | two payloads are the same JSON value exactly when the fourteen bound fields agree |
| ApprovalBinding.PayloadFields | brain-server/src/approval/binding.ts:137-161 | the payload is the object of the fourteen named fields, digests for the structured ones and null for absent ones |
| ApprovalBinding.DomainExactly | brain-server/src/approval/binding.ts:66-96 | a number printed without exponent may be bound exactly when it is at most 2^53 - 1 in size, has six fractional digits or fewer and 24 characters or fewer |
| ApprovalBinding.DomainOfAll | brain-server/src/approval/binding.ts:98-114 | the walk refuses exactly the values in which some number, at any depth, is outside the domain |
| ApprovalBinding.InDomainSame | brain-server/src/approval/binding.ts:77-113 | the number domain does not depend on key order |
| ApprovalBinding.BindingIdentifies | brain-server/src/approval/binding.ts:137-204 | agreement up to key order gives the same digest or the same refusal, and equal digests mean agreement on all fourteen fields |
| ApprovalMeaning.FiledReadyExactly | brain-server/src/approval/policy.ts:49-61 | a filed plan is ready at once exactly when no fresh approval is forced and its capability is a read of low risk for authority L0; any other awaits approval, with a pending request for the authority of the capability |
| ApprovalMeaning.FiledExpiry | brain-server/src/approval/policy.ts:83-110 | the plan expires at the earlier of the requested time and the end of the policy bound, and later than it is created |
| ApprovalMeaning.FilingRefused | brain-server/src/approval/authorization-service.ts:189-230 | what stops a request before its plan is made, in order |
| ApprovalMeaning.FilingAnswers | brain-server/src/approval/authorization-service.ts:232-278 | what stops it then, in order, and the bound terms of a plan that is filed |
| ApprovalMeaning.RiskSnapshotNames | brain-server/src/approval/policy.ts:63-77 | the risk snapshot names the risk, effect, authority and version of the capability |
| ApprovalMeaning.NothingReadyUnapproved | brain-server/src/approval/authorization-service.ts:189-469 | in every run from the empty store, by the filing of each plan: a plan is ready only if its capability is harmless and nothing was forced, or if an actor granted it whose authority covers that of the capability |
| ApprovalMeaning.ApplyAnswers | brain-server/src/approval/authorization-service.ts:340-489 | for a stored record and any reference, answer and clock: the one error in order, or the record with the grant and its reference |
| ApprovalMeaning.DenialExactly | brain-server/src/approval/authorization-service.ts:492-514 | what a denial answers and leaves: only a plan that awaits approval is blocked |
| ApprovalMeaning.RevocationExactly | brain-server/src/approval/authorization-service.ts:517-539 | what a revocation answers and leaves: only a plan that is ready by a grant is blocked |
| ApprovalMeaning.DiscardExactly | brain-server/src/approval/authorization-store.ts:76-89 | exactly a plan of the decision that awaits its first approval is discarded |
| ApprovalMeaning.SweptExactly | brain-server/src/approval/authorization-service.ts:545-602 | what a sweep makes of every stored record: blocked from the expiry of the plan, or of the grant, on, with its reason, and unchanged before |
| ApprovalMeaning.AffectedExactly | brain-server/src/approval/authorization-service.ts:545-602 | the records reported are exactly those that the sweep blocks |
| ApprovalMeaning.FifteenMinutes | brain-server/src/approval/policy.ts:30-31 | no plan is left open by a sweep fifteen minutes after its creation |
| ApprovalTheorems.StoreInvariant | brain-server/src/approval/authorization-service.ts:189-602 | in every run awaiting, ready and blocked records have the requests, grants, authority and expiry they must have, and the store stays within its bound |
| ApprovalTheorems.PlanArmStrandsNothing | brain-server/src/approval/authorization-service.ts:576-586 | the plan-expired arm only ever meets an approval-free plan |
| ApprovalTheorems.SweepReachesAll | brain-server/src/approval/authorization-service.ts:588-590 | the fail-closed skip of the sweep never leaves an expired record behind |
| ApprovalTheorems.StepMovesUp | brain-server/src/approval/authorization-service.ts:340-618 | a step only moves a plan up, keeps its bound fields and digest, leaves blocked records alone, and removes only by discard |
| ApprovalTheorems.SingleUse | brain-server/src/approval/authorization-service.ts:340-489 | over any run applyApproval succeeds at most once per plan id |
| ApprovalTheorems.SettledForGood | brain-server/src/approval/authorization-service.ts:340-618 | a plan that is ready or blocked stays stored with its terms, is never applied again, and once blocked never changes |
| ApprovalTheorems.ApplyExactly | brain-server/src/approval/authorization-service.ts:340-469 | for a stored record the binding never mismatches, and apply succeeds if and only if the policy version of the service has no outer blanks and the remaining conditions hold |
| ApprovalTheorems.SweepComposes | brain-server/src/approval/authorization-service.ts:545-602 | sweeping at t1 and then at t2 is sweeping at t2; ids and count stay |
| ApprovalTheorems.SweepLeavesLive | brain-server/src/approval/authorization-service.ts:545-602 | what a sweep leaves awaiting or ready, and its grant, expire strictly later |
| ApprovalTheorems.LateCommitExactly | brain-server/src/approval/authorization-service.ts:407-481 | the commit after the verifier does what the atomic call does if and only if the record is unchanged |
| ApprovalTheorems.LateCommitRevivesDenied | brain-server/src/approval/authorization-service.ts:407-481 | a denial between check and commit is undone |
| ApprovalTheorems.LateCommitHappens | brain-server/src/approval/authorization-service.ts:407-481 | for any hash, a store, a grant and a clock, with a real policy version, timeout, computed binding digest and ids, for which that happens |
| ControlApproval.AuditPrecedesAuthority | brain-server/src/control/approval-facade.ts:62-112 | in every run of interleaved calls, failing audit writes and late commits each granted plan has an approval in the log, which grows only at its end and within its bound |
| ControlApproval.ApprovedBefore | brain-server/src/control/approval-facade.ts:89-98 | the step that grants a plan finds its approval already logged |
| ControlApproval.AuditFailureChangesNothing | brain-server/src/control/approval-facade.ts:62-92 | an audit failure ends the call and changes neither plan nor log |
| ControlApproval.FullLogGrantsNothing | brain-server/src/control/audit.ts:42-65 | once the log is full and no recorded approval is left to apply, no plan is granted any more |
| ControlApproval.ApprovedOnlyIssued | brain-server/src/control/approval-facade.ts:67-92 | in every run of interleaved calls an approval is logged only for a plan whose grant the native side has issued |
| ControlApproval.RefusedCalls | brain-server/src/control/approval-facade.ts:33-61 | a call that is refused before the native side is asked is told why and logged as rejected for that reason, and nothing else changes |
| ControlApproval.AnsweredCalls | brain-server/src/control/approval-facade.ts:62-112 | a declined grant is logged as rejected or failed and leaves the plan; an issued one is logged as approved and then applied, and a failure to apply it is logged after that |
| ControlApproval.ApplyFinishes | brain-server/src/approval/authorization-service.ts:407-481 | reading the record, asking the verifier and committing late are, uninterrupted, the apply of the service |
| CoverageTheorems.SideMeaning | brain-server/src/evidence/coverage-builder.ts:511-522 | an item is on the agreeing side exactly when its digest is that of its claim key's primary |
| CoverageTheorems.PrimaryOfMeaning | brain-server/src/evidence/coverage-builder.ts:587-597 | the primary has the key, and no other item of it is preferred; whose item is preferred is said by `CoverageMeaning.TrustedListed` |
| CoverageTheorems.ConflictPartition | brain-server/src/evidence/coverage-builder.ts:498-540 | evidence ids and conflict ids are disjoint and together are the fresh ids |
| CoverageTheorems.PrimaryListed | brain-server/src/evidence/coverage-builder.ts:511-530 | the preferred item of a claim key, by the priorities given, is always evidence and never conflict; by the batches themselves this is `CoverageMeaning.TrustedListed` |
| CoverageTheorems.ConflictedExactly | brain-server/src/evidence/coverage-builder.ts:502-540 | the conflict list is nonempty, and the status conflicted, exactly when some claim key has two digests |
| CoverageTheorems.ClassIsItsFreshEvidence | brain-server/src/evidence/coverage-builder.ts:482-540 | a class with fresh evidence gets the entry of that evidence, which repeats no id |
| CoverageMeaning.CanonicalOrder | brain-server/src/evidence/coverage-builder.ts:200-208 | the batches of a class come in descending priority, and in ascending provider id within one priority |
| CoverageMeaning.PriorityOfBatch | brain-server/src/evidence/coverage-builder.ts:499-501 | with one batch per provider, the priority used for a provider is that of its batch |
| CoverageMeaning.SubjectOfFirst | brain-server/src/evidence/coverage-builder.ts:242-250 | the subject of a class is that of the batch that comes first |
| CoverageMeaning.QualifiedExactly | brain-server/src/evidence/coverage-builder.ts:282-323 | the evidence that counts is that of the candidates that qualify, of each id the first in canonical order |
| CoverageMeaning.TrustedListed | brain-server/src/evidence/coverage-builder.ts:498-540 | in the entry that is built, given one batch per provider and class, the fresh item of a claim key whose batch has the highest priority, with the least id among those of one priority, is evidence and never conflict, and every other item of the key is evidence or conflict as its digest agrees or not |
| CoverageMeaning.StatusExactly | brain-server/src/evidence/coverage-builder.ts:458-540 | which of the five statuses a class within limits gets, by its candidates |
| CoverageMeaning.FreshLevel | brain-server/src/evidence/coverage-builder.ts:502-540 | the level of a class with fresh evidence is the highest among the items listed as evidence |
| CoverageMeaning.ConflictCounts | brain-server/src/evidence/coverage-builder.ts:502-530 | the note of a conflict counts the claim keys in dispute, and all of them |
| CoverageMeaning.StaleExactly | brain-server/src/evidence/coverage-builder.ts:485-497 | a stale class lists all its evidence with the highest level, since the time at which the first item became stale |
| CoverageMeaning.UnverifiedExactly | brain-server/src/evidence/coverage-builder.ts:470-480 | a class whose candidates are all rejected lists the references of the rejections, and counts them |
| CoverageMeaning.WithinLimitsExactly | brain-server/src/evidence/coverage-builder.ts:368-400 | no violation is found exactly when batches, candidates and claims are all within their bounds |
| CoverageMeaning.OverLimitEntry | brain-server/src/evidence/coverage-builder.ts:402-443 | a class over a limit is unverified, with one id for each candidate, or one when there is none |
| CoverageMeaning.DiagnosticsExactly | brain-server/src/evidence/coverage-builder.ts:247-342 | exactly what a class reports: batches about another subject, and the limit exceeded or else outcomes, provider reports and issues of rejected or stale candidates |
| CoverageTheorems.OrderIndependence | brain-server/src/evidence/coverage-builder.ts:200-366 | permuting the batches changes neither snapshot nor diagnostics, given one batch per provider and class |
| CoverageTheorems.InertCandidates | brain-server/src/evidence/coverage-builder.ts:282-323 | rejected candidates, and stale ones with ids of their own, leave the entry of a class with fresh evidence unchanged |
| CoverageTheorems.EntryMeetsContract | brain-server/src/execution/contracts.ts:136-174 | every entry that is built obeys the status rules of the coverage schema |
| CoverageTheorems.EntryFitsExactly | brain-server/src/execution/contracts.ts:124-135 | the schema takes the id lists of an entry if and only if there are at most a thousand: different ids of candidates when the class is over its limits, references when all are rejected, items when all are stale, and otherwise fresh items that agree with their claim key's primary, and fresh items that do not |
| CoverageTheorems.WithinLimitsFits | brain-server/src/evidence/coverage-builder.ts:73-79 | within limits of at most a thousand candidates in all, as by default, every class fits, so only an over-limit class can make it throw |
| CoverageTheorems.RejectedExactly | brain-server/src/evidence/coverage-builder.ts:267-359 | the builder throws on its own snapshot if and only if some required class does not fit in that way, or more than a thousand classes are required |
| CoverageTheorems.OverLimitThrows | brain-server/src/evidence/coverage-builder.ts:73-79 | under the default limits more than a thousand different candidates from one provider make it throw |
| CoverageLimit.OverLimitHappens | brain-server/src/evidence/coverage-builder.ts:73-79 | with a collision-free hash, 1001 candidates of any provider that pass their schema and have source items of their own |
| EvidenceGuard.AssessMeaning | brain-server/src/execution/contracts.ts:355-443 | nothing mandatory is missing exactly when every mandatory requirement is satisfied |
| EvidenceGuard.RecordedMeaning | brain-server/src/evidence/guard.ts:337-351 | the latest outcomes of a class are those of the last round that had any |
| EvidenceGuard.RegressedMeaning | brain-server/src/evidence/guard-policy.ts:200-233 | a class regressed exactly when it was satisfied and is now gone, missing, or present at a lower level |
| EvidenceGuard.RequestedRetriable | brain-server/src/evidence/guard-policy.ts:55-104 | a class that was asked for before is asked for again only with a retry flag and no permanent or limit outcome among its latest |
| EvidenceGuard.RunShape | brain-server/src/evidence/guard.ts:111-335 | whatever the collector returns or throws, the run ends in the promised shape: proceed exactly when satisfied, rounds and trace bounded and numbered, every repeated request justified |
| EvidenceGuard.RunEvidenceGuard | brain-server/src/evidence/guard.ts:111-335 | the loop rejects a round bound outside 0 to 10 and otherwise returns a run of that shape, the one whose rounds `GuardControl.RunTells` describes |
| GuardControl.ChooseDecides | brain-server/src/evidence/guard-policy.ts:55-191 | with rounds left a round asks, in sorted order, for exactly the due classes that may be asked for: without outcomes and never asked, or flagged without a permanent, limit or user-context outcome (a provider error beside the last lifts it); otherwise it blocks when a due class is a hard gap or none is due, else clarifies when one needs the user, else defers |
| GuardControl.RunTells | brain-server/src/evidence/guard.ts:111-335 | whatever the collector does, every round of a finished run decides so by the coverage, outcomes and requests before it, and the run ends with its last decision or because of the reply |
| GuardControl.TimeoutMeaning | brain-server/src/evidence/guard.ts:240-251 | a class whose round timed out may be asked for again, and by itself defers |
| GuardControl.MissingExactly | brain-server/src/execution/contracts.ts:355-443 | the missing classes are those of the unsatisfied mandatory requirements, in their order |
| GuardControl.SatisfiesExactly | brain-server/src/execution/contracts.ts:379-428 | satisfied is present evidence, or conflicted evidence that the policy tolerates, of at least the level required |
| GuardControl.RegressesExactly | brain-server/src/evidence/guard-policy.ts:200-233 | a satisfied class regresses when its entry goes, says missing, or is present at a lower level |
| CanonicalJson.PrintUnique | brain-server/src/evidence/model.ts:84-123 | a printed value followed by a delimiter can be read in one way only |
| CanonicalJson.SamePrints | brain-server/src/evidence/model.ts:84-123 | key order never shows in the text |
| CanonicalJson.PrintInjective | brain-server/src/evidence/model.ts:84-123 | two values print alike exactly when they are equal with unordered keys |
| JsonReader.ReadPrint | brain-server/src/evidence/model.ts:84-123 | a reader of the JSON grammar reads every canonical text back as the same value, with the keys of every object in ascending order |
| JsonReader.StringRead | brain-server/src/evidence/model.ts:88-92 | a quoted string is read back unit by unit, by the table of two-letter escapes and by hexadecimal digits |
| JsonReader.SpelledShortest | brain-server/src/evidence/model.ts:88-92 | which units are escaped, and how, as `JSON.stringify` does: seven by two letters, other control characters and lone surrogates by six with lower-case digits, all others not |
| JsonReader.GraphTextRead | brain-server/src/evidence/model.ts:88-123 | the text of a safe object graph is read back as its tree unfolding |
| ObjectGraph.IsJsonSafeValue | brain-server/src/contracts/json-safe.ts:29-47 | the walk with its mutable path set decides `Walk` and restores the set |
| ObjectGraph.CanonicalJsonValue | brain-server/src/evidence/model.ts:88-123 | printing succeeds exactly on the graphs the walk accepts, with the text of the tree unfolding, which is JSON for it by `JsonReader.GraphTextRead` |
| ObjectGraph.SafeExactly | brain-server/src/contracts/json-safe.ts:29-47 | accepted are exactly the graphs without a reachable cycle and with safe leaves only |
| ObjectGraph.GraphTextInjective | brain-server/src/evidence/model.ts:84-123 | two safe graphs print alike exactly when they unfold to the same value |
| EvidenceId.DecodeEncode | brain-server/src/evidence/model.ts:177-186 | decoding inverts encoding for lists of any length with components shorter than 2^32 bytes |
| EvidenceId.EncodeDecode | brain-server/src/evidence/model.ts:177-186 | what decodes at all is the encoding of what it decodes to |
| EvidenceId.EvidenceIdIdentifies | brain-server/src/evidence/model.ts:197-215 | ids coincide exactly when the components have the same scalar values, and on well-formed strings exactly when they are equal |
| EvidenceId.RefusedExactly | brain-server/src/evidence/model.ts:156-170 | an id is refused exactly for a component that is empty, longer than ten thousand units, or has a control character |
| Utf8Reader.Utf8Read | brain-server/src/evidence/model.ts:177-182 | a UTF-8 reader gives the code units of a component back from its bytes, with U+FFFD for every lone surrogate |
| Utf8Reader.TupleRead | brain-server/src/evidence/model.ts:177-186 | all components are read back from the bytes that are hashed |
| EvidenceId.LoneSurrogatesShareAnId | brain-server/src/evidence/model.ts:177-215 | two identities that differ in the lone surrogate of their subject share an id, whatever the other components and the hash |
| DecisionLineage.GetRecursiveDecisionLineage | brain-server/src/decision/decision-store.ts:64-111 | each decision once, at its shortest distance, depths not decreasing; complete when the queue empties, and complete below the last depth after the cut; after a hundred decisions only the exploration under way is finished |
| DecisionLineage.WalkListed | brain-server/src/decision/decision-store.ts:64-111 | a lineage of fewer than a hundred decisions has every decision that a walk along the five relationship types leads to, and a longer one every one that a walk shorter than its last depth leads to |
| DecisionLineage.WalkNotShorter | brain-server/src/decision/decision-store.ts:90-104 | no walk to a listed decision is shorter than its recorded depth |
| DecisionLineage.EntryHasWalk | brain-server/src/decision/decision-store.ts:90-104 | and some walk has exactly that many steps |
| DecisionLineage.NothingNearerMissing | brain-server/src/decision/decision-store.ts:74-107 | when a decision is taken from the queue everything nearer has been found |
| DecisionLineage.DepthIsDistance | brain-server/src/decision/decision-store.ts:90-104 | the recorded depth is the shortest distance |
| ControlSession.StepOnSession | brain-server/src/control/session.ts:37-105 | an operation drops a session, leaves it alone, or counts one live request of it |
| ControlSession.LifetimeBurst | brain-server/src/control/session.ts:8-91 | whatever the clock reports, at most 5 windows open and at most 50 requests are admitted in a session's life |
| ControlSession.SpanBurst | brain-server/src/control/session.ts:8-91 | with a clock that does not run backwards any 60 seconds admit at most 20 |
| ControlSession.FirstTen | brain-server/src/control/session.ts:79-91 | in the first minute of a session exactly its first ten requests are admitted, whatever runs beside them |
| ControlSession.NextTen | brain-server/src/control/session.ts:79-91 | a request at or after the end of the window is the first of a new minute, of which exactly the next nine are admitted |
| ControlSession.FiveMinutes | brain-server/src/control/session.ts:8-91 | from five minutes after its mint a request is refused and drops the session |
| StringOrder.LessExactly | brain-server/src/evidence/model.ts:112-116 | a string comes before another exactly when it ends first or has the lesser code unit where they first differ |
| CaptureAudits.CaptureStorage.AppendAudit | browser-extension/background.js:194-205 | a new audit goes to the front and the list is cut at two hundred |
| CaptureAudits.CaptureStorage.RecordCaptureChunkOutcome | browser-extension/background.js:395-514 | the audit list and the reported outcome are those of `RecordOutcome`: unknown, terminal or settled is ignored or replayed, otherwise the group takes the settlement |
| CaptureAudits.CaptureStorage.MarkCaptureSubmissionUncertain | browser-extension/background.js:302-347 | an open group becomes uncertain, at once or when its accepted jobs have settled |
| CaptureAudits.CaptureStorage.CommitCaptureSignature | browser-extension/background.js:242-258 | the key is written in property order, then the first keys are deleted until two hundred remain |
| CaptureAudits.CaptureStorage.TrackPendingJob | browser-extension/background.js:889-900 | the receipt is stored under the job id |
| CaptureAudits.CaptureStorage.UntrackPendingJob | browser-extension/background.js:902-904 | the receipt is gone and the others stay |
| CaptureAudits.SplitCaptureText | browser-extension/background.js:582-591 | the loop yields the chunks of the text |
| CaptureAudits.CaptureStorage.StartSubmission | browser-extension/background.js:646-664 | an open audit is reset for its chunks: every count, list and sum but its uncertainty and partial flag |
| CaptureAudits.CaptureStorage.RecordSubmittedCaptureJob | browser-extension/background.js:730-746 | an open audit is queued with the job added once and the submitted count following |
| CaptureAudits.CaptureStorage.QueueSubmission | browser-extension/background.js:274-282 | an open audit is queued with the given jobs and count, by the end of a submission (line 701) or by recovery (line 365) |
| CaptureAudits.CaptureStorage.FailCaptureGroup | browser-extension/background.js:284-300 | an open audit fails with the given jobs and expected count, and whether there was one |
| ApprovalStore.AuthorizationStore.Put | brain-server/src/approval/authorization-store.ts:31-47 | a duplicate or a full store is refused without effect; otherwise one record is added |
| ApprovalStore.AuthorizationStore.Replace | brain-server/src/approval/authorization-store.ts:50-60 | only a stored record is replaced |
| ApprovalStore.AuthorizationStore.DiscardUncommitted | brain-server/src/approval/authorization-store.ts:76-89 | only an awaiting record without grant is removed |
| ApprovalStore.AuthorizationStore.List | brain-server/src/approval/authorization-store.ts:92-94 | every record once, in ascending order of plan ids |
| ApprovalLifecycle.AuthorizationService.AuthorizeInternal | brain-server/src/approval/authorization-service.ts:189-333 | the checks in order, then the prepared record is stored, which `ApprovalMeaning.FiledReadyExactly` describes by the capability; an error leaves the store alone |
| ApprovalLifecycle.AuthorizationService.ApplyApproval | brain-server/src/approval/authorization-service.ts:340-489 | the checks in order, then the granted record replaces the awaiting one; an error leaves the store alone |
| ApprovalLifecycle.AuthorizationService.Deny | brain-server/src/approval/authorization-service.ts:492-514 | an awaiting plan is blocked and its request denied |
| ApprovalLifecycle.AuthorizationService.Revoke | brain-server/src/approval/authorization-service.ts:517-539 | a ready plan with a grant is blocked and its request revoked |
| ApprovalLifecycle.AuthorizationService.SweepOne | brain-server/src/approval/authorization-service.ts:548-599 | the three arms on one record amount to `Swept` |
| ApprovalLifecycle.AuthorizationService.SweepExpired | brain-server/src/approval/authorization-service.ts:545-602 | every record is swept, and the affected ids are returned in order, exactly those with an arm that fires |
| ControlApproval.InMemoryControlApprovalAuditStore.EnsureWritable | brain-server/src/control/audit.ts:55-59 | writable exactly below the bound |
| ControlApproval.InMemoryControlApprovalAuditStore.Append | brain-server/src/control/audit.ts:61-65 | the event goes to the end, or a full log refuses it unchanged |
| ControlApproval.ControlApprovalFacade.Approve | brain-server/src/control/approval-facade.ts:33-112 | with or without a runtime, and whichever audit writes fail, an uninterrupted call ends as its phases do, run one after the other |
| CoverageBuilder.FindLimitViolation | brain-server/src/evidence/coverage-builder.ts:368-400 | the first bound exceeded, in the order of the two passes |
| CoverageBuilder.GroupByClaimKey | brain-server/src/evidence/coverage-builder.ts:574-585 | groups in insertion order |
| CoverageBuilder.PartitionConflicts | brain-server/src/evidence/coverage-builder.ts:511-522 | the two id lists are those of the two sides of every group |
| CoverageBuilder.StaleSince | brain-server/src/evidence/coverage-builder.ts:549-562 | the earliest time at which an item became stale |
| CoverageBuilder.HighestVerification | brain-server/src/evidence/coverage-builder.ts:564-572 | the highest level, first come first |
| CoverageBuilder.Qualify | brain-server/src/evidence/coverage-builder.ts:282-342 | the qualified, the rejected and the diagnostics of all batches of a class |
| CoverageBuilder.ClassEntry | brain-server/src/evidence/coverage-builder.ts:458-540 | the entry by status precedence |
| CoverageBuilder.BuildEvidenceCoverage | brain-server/src/evidence/coverage-builder.ts:214-366 | entries, diagnostics and truncation, class by class; duplicate classes are refused, and a snapshot over the schema's sizes is rejected |
| EvidenceGuard.RecordRoundOutcomes | brain-server/src/evidence/guard.ts:337-351 | the classes a round speaks of have their outcomes replaced |
| EvidenceGuard.DetectCoverageRegression | brain-server/src/evidence/guard-policy.ts:200-233 | the regressed classes, in assessment order |
| EvidenceId.EncodeEvidenceIdTuple | brain-server/src/evidence/model.ts:177-186 | the buffer loop yields the length-prefixed encoding |
| DecisionLineage.Visit | brain-server/src/decision/decision-store.ts:74-107 | the inner loop follows the relationships of one decision |
| ControlSession.ControlSessionManager.Mint | brain-server/src/control/session.ts:40-62 | the new session with its lifetime and its first window |
| ControlSession.ControlSessionManager.Authenticate | brain-server/src/control/session.ts:64-77 | the first live match; expired sessions met before it are dropped |
| ControlSession.ControlSessionManager.ConsumeBurst | brain-server/src/control/session.ts:79-91 | the count of the window, reopened when it is over; expired sessions are dropped |
| ControlSession.ControlSessionManager.Revoke | brain-server/src/control/session.ts:93-95 | the session is gone, and whether it was there |

## Left out

- HTTP routes, MCP adapters, user interfaces, packaging and process startup are plumbing around this core.
- Chrome storage and notifications appear as atomic writes and an event log, alarms and polling loops as the set of jobs that may be polled; base64, file names, statistics, redaction and the privacy policy are not modelled.
- `submitChunksAndPoll`, `pollOnce` and `recoverInterruptedCaptureSubmissions` run across awaits; they are modelled on values, as the steps of `CaptureProtocol`, so that anything may happen between two of their writes. A polled receipt is looked up in the history of issued jobs, which it always equals.
- Suppression of an automatic re-upload while a signature is uncertain (`hasUncertainCaptureSignature`) is not modelled; the step system allows the re-upload.
- Error texts of a capture group, and the `partial` flag in the order theorem, depend on arrival order and are not claimed. Recovery liveness of a capture that died before its chunk count was written is not claimed either: the code parks it as queued.
- The server is assumed never to issue a job id twice, and random ids never to repeat. Hash functions are arbitrary injective functions; number texts are opaque tokens of the JavaScript engine.
- Zod schemas are datatypes, an arbitrary predicate on the copied plan fields, and the plan rules on state, approval and times; capability validation may accept or refuse in any call. Execution states that other components set on a plan are not modelled.
- `qualifyCandidate`, claim sizes and the ids of over-limit candidates are parameters of the coverage builder; note texts are kept as their data. The length limits of id and note texts, and the input limits on candidates and diagnostics, are not modelled.
- The guard's reason codes, warnings, next-step texts, correlation id and wall-clock limits are not modelled; a timeout is one of the collector's replies.
- EvidenceGuard.RunShape: a collector that alters the requirements or the coverage it is handed is not covered; the source passes it the live objects (brain-server/src/evidence/guard.ts:35, 128), and one that satisfies them and then throws makes the guard block with a satisfied coverage.
- EvidenceGuard.RunEvidenceGuard: the same collectors are not covered.
- The `sources` list of the lineage, and the descriptive fields of its entries, are not modelled.
- The SQLite audit log is a log whose writes may fail; its table is not modelled.
- `buildDecisionMetadata` and `recordDecisionOutcome` of the decision store are straight-line database writes.
- ApprovalBinding.BindingIdentifies: assumes a collision-free hash and time texts that identify their times.
