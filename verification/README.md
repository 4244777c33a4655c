# CloudShield: governed AWS changes, inventory, alerts and paging

A Dafny model of the parts of CloudShield where several functions, or several
processes, have to agree with one another, with proofs that they do.

**The governed-mutation protocol.** A plan is one `RemediationPlan` row. Any number of
queue deliveries and reconcilers work on it at once; each holds a stale snapshot, can
crash between any two statements, and synchronises with the others only through
`updateMany(... where ...)` and its row count. `PlanRow` has every write as a function on
the row; `Protocol` is the transition system, one step for each statement, transaction or
provider call, in which the clock, the provider's answers and lost or unacknowledged
writes are choices of the step. A run is a list of events. `ProtocolCore` and
`ProtocolHistory` hold the two main inductive invariants and `ProtocolTheorems` what they
give: one request at most, write-ahead, outcomes that only move forward, fenced
reconcilers, a kept budget, and the exact times at which the query selects a plan.
`ProtocolResponses` ties the outcome and the request ids to what the provider answered,
`ProtocolRows` the columns of the row to one another, and `ProtocolGuards` says what holds
at the moment of a claim, a barrier or a confirmation. The governance routes (approve,
queue, block, edit, simulate again) take part in the runs, and the theorems say exactly
what simulating a plan again undoes. `ProtocolBarrier` shows that the write-ahead barrier
is enough even when the lifecycle column is rewritten at will. `PlanStore` has the same
procedures as imperative code over mutable columns, proved to be uninterrupted runs of the
system. `Delivery` says exactly when a delivery left alone sends and what it leaves in the
row, and `Reconciliation` proves that rounds left alone settle a plan exactly when it has
budget left. `ReconciliationBatch` runs them over a table of plans, in queue order.

**What is approved is what is sent.** `Json` models JSON values, the canonicalisation and
the printer down to characters, with the code's enumeration order (array-index keys
first); the canonical text determines the value up to key order and is determined by it.
`ApprovalPayload` adds the order-insensitive tags, and `IsoTime` the text that an expiry
is hashed as, which determines it. `SafetyState` is the EC2 safety state, its evidence and
parser; `GovernedTagging` the two readings of the requested tags, the rollback and the
fingerprint's stability; `Preflight` the worker's checks; and `Installation` plugs the
real checks into the protocol: every request of every run carries the approved tags to the
instance the approval names, under an approval that somebody else granted to this plan,
with its idempotency key and in time, and every confirmation shows the tags of that
request. `ApprovedExample` is one plan, with the columns that simulating it in staging
mode, approving it and queueing it leave, that passes all of it for any key and at any
time before its approval expires, so the theorems are about something. SHA-256 is an
arbitrary function, and theorems about hashes name the collision that would break them.

One assumption about the provider is named where it is used (`Preflight.Answers`):
`DescribeInstances`, asked about an instance id, answers about that instance. The worker
does not compare the two (`apps/worker/src/index.ts:787-812`): it compares the answer with
the approved fingerprint, and sends to the id it asked for. The reconciler does compare
them.

**Inventory.** `Inventory` and `RegionScan` describe one finished region scan on the
tables, `RegionContents` what it records in terms of what was collected alone,
`InventoryHistory` any sequence of scans, `InventoryStore` the scanner's own loops over
mutable tables, and `AwsPages` the page loops of the collectors.

**Alerts and paging.** `Alerts` and `AlertStore` are the monitoring run and the alert
routes, `AlertHistory` an alert's status and times told from the events alone;
`EvidencePaging` the two evidence endpoints.

Six promises one might expect do not hold of the code. Each is stated as the exact
condition under which it does, with a concrete failure: a rollback does not restore a key
that plain objects inherit (`GovernedTagging.RollbackCanFail`); an unresolved plan can be
stranded by a reconciler that crashes on its last attempt
(`ApprovedExample.CanBeStranded`); an execution of a simulated plan that is lost before
its barrier is never found by the query meant for it, which passes over NOT_REQUIRED
(`ApprovedExample.CanBeLost`); simulating a plan again clears one of its two request ids
(`ApprovedExample.CanSplitIds`); a rescan of unchanged data reports an update when a name
has disappeared (`RegionScan.LostNameIsUpdatedAgain`); and `resolvedAt` stops agreeing
with RESOLVED when a resolved alert is acknowledged (`Alerts.AcknowledgingMisleads`).

`dafny verify dfyconfig.toml` checks the whole project.

## Model

| member | source | states |
|---|---|---|
| JsonText.QuoteSplits | packages/utils/src/index.ts:84-86 | two printed strings, each followed by anything, are the same text only if the strings and the rests are the same; lone surrogates and escapes included |
| Json.CanonicalKeepsMeaning | packages/utils/src/index.ts:301-324 | canonicalising changes no value: the result is JSON with the same members, up to order |
| Json.MeaningDeterminesCanonical | packages/utils/src/index.ts:301-324 | values equal up to key order have one canonical form |
| Json.CanonicalIdempotent | packages/utils/src/index.ts:301-324 | canonicalising twice is canonicalising once |
| Json.PrintInjective | packages/utils/src/index.ts:84-86 | different JSON values print as different texts |
| Json.CanonicalTextIffMeaning | packages/utils/src/index.ts:84-86 | two values have one canonical text exactly when they are equal up to object key order |
| IsoTime.DateOfIs | apps/worker/src/index.ts:1073 | every date of the calendar is the date of its own day, so the date an expiry is printed with is the right one |
| IsoTime.IsoTextDetermines | apps/worker/src/index.ts:1073 | two times that a `Date` can hold are hashed as the same text only if they are the same time |
| ApprovalPayload.SortedTagsIffPermuted | packages/utils/src/index.ts:326-336 | two tag lists normalise to the same list exactly when they are permutations of each other, up to key order |
| ApprovalPayload.NormalizedIffSamePayload | packages/utils/src/index.ts:338-348 | two normalised payloads mean the same exactly when the payloads do, up to the order of the tags of a tagging payload |
| ApprovalPayload.ApprovalTextIffSame | packages/utils/src/index.ts:64-86 | two approval payloads share a canonical text exactly when all fifteen fields agree, JSON up to key order, governance tags up to order and expiries as times |
| ApprovalPayload.MatchingHashesBindApproval | packages/utils/src/index.ts:88-99 | recorded and recomputed hashes compare equal exactly for the same approval, or for a collision of the hash |
| SafetyState.BuildRecords | packages/utils/src/index.ts:113-145 | a built state is well formed and records the given identifiers and exactly the given control tags |
| SafetyState.BuildsIff | packages/utils/src/index.ts:113-145 | a state is built exactly for the supported versions, well-formed identifiers and control tags within the limit |
| SafetyState.RebuildIsIdentity | apps/worker/src/index.ts:1123-1127 | building again from a state's own control tags gives that state |
| SafetyState.CollectTags | packages/utils/src/index.ts:169-179 | the loop over the control keys collects present texts, skips absent nulls, and stops at the first malformed entry |
| SafetyState.ParseEvidence | packages/utils/src/index.ts:151-188 | the imperative parser computes the specified one, error by error |
| SafetyState.ParseIff | packages/utils/src/index.ts:151-210 | evidence parses to a state exactly when the state is well formed and the evidence is its JSON, up to key order |
| SafetyState.EvidenceRoundTrip | packages/utils/src/index.ts:151-188 | parsing the evidence of a well-formed state, before or after canonicalisation, gives that state |
| SafetyState.ChangedEc2TagSafetyFields | packages/utils/src/index.ts:216-230 | the drift loop lists the changed identifiers and control tags in order |
| SafetyState.NoDriftIffEqual | packages/utils/src/index.ts:216-230 | the drift list of two well-formed states is empty exactly when they are equal |
| SafetyState.NoDriftIffSameText | packages/utils/src/index.ts:147-149 | and exactly when their fingerprinted texts are the same |
| GovernedTagging.SamePayloadRequestsSameTags | apps/worker/src/index.ts:710-713 | payloads that an approval does not tell apart request the same tags, up to order |
| GovernedTagging.CheckRequestedTags | apps/worker/src/index.ts:738-755 | the tag loop accepts exactly the lists without blank, repeated, oversized, reserved, control or unlisted keys, and otherwise reports the first problem |
| GovernedTagging.ApplyMakesPresent | apps/worker/src/index.ts:947 | sending distinct tags makes all of them read back |
| GovernedTagging.RollbackRestoresIff | apps/worker/src/index.ts:1164-1170 | sending a request and rolling it back restores the tags exactly when no requested key is absent yet inherited by plain objects |
| GovernedTagging.RollbackCanFail | apps/worker/src/index.ts:1167-1168 | an accepted request with the key `__proto__` records a previous value and a create operation where only a deletion would undo it |
| GovernedTagging.AcceptedKeepsSafetyState | apps/worker/src/index.ts:750-751 | sending an accepted request leaves the safety state, hence its fingerprint, as it was |
| GovernedTagging.ParseEntries | apps/worker/src/mutation-reconciliation.ts:199-213 | the reconciler's loop accepts exactly the strict lists, reports the first problem otherwise, and returns the tags with distinct keys |
| GovernedTagging.StrictIff | apps/worker/src/mutation-reconciliation.ts:199-213 | a list is accepted exactly when every entry is an object of a key and a value and nothing else, texts within the limits with a key that is not reserved, and no two have one key |
| GovernedTagging.TargetPassesIff | apps/worker/src/mutation-reconciliation.ts:190-198 | the payload around the tags passes exactly when it names a well-formed instance and region and lists some tags |
| GovernedTagging.ParseApprovedRequestedTags | apps/worker/src/mutation-reconciliation.ts:190-214 | what the reconciler accepts it reads as the worker does; targets and entries are refused for the first reason that applies |
| Preflight.VerifiedTextIsApproved | apps/worker/src/index.ts:1048-1113 | a plan that passes the bound-approval check has the approved canonical text, short of a collision |
| Preflight.VerifiedIff | apps/worker/src/index.ts:1048-1113 | a plan passes the bound-approval check exactly when its bound approval is of this plan and organization, was granted, by somebody other than the requester, has not expired, matches the payload's hash, and pins down a safety state under the versions in force |
| Preflight.SentTagsAreApproved | apps/worker/src/index.ts:710-755 | the tags a passing plan sends are those of the approved payload, up to order, and are accepted |
| Preflight.SentTargetIsApproved | apps/worker/src/index.ts:709 | a request goes to the instance the approved payload names, or to the plan's own when it names none |
| Preflight.LiveStateIsApproved | apps/worker/src/index.ts:789-812 | a passing instance is in the approved safety state, short of a collision |
| Preflight.SentRequestIsAuthorised | apps/worker/src/index.ts:789-841 | a passing request carries the approved tags to the instance the approval names; the instance observed is in the approved safety state, passes the gates and is left so, and is the target if the provider answered about the instance asked for |
| Preflight.ProceedsIff | apps/worker/src/index.ts:707-841 | a request goes out with these tags to this target exactly when the payload requests them, they are accepted, account, region and keys are on the configured lists, the session is the executor role in the plan's account, and the live instance is in the pinned state and passes the gates |
| Preflight.FallsBackIff | apps/worker/src/index.ts:708-709 | the plan's own region and instance stand in exactly for a payload member that is missing, null, false, zero or empty |
| PlanRow.Clamp | apps/worker/src/mutation-reconciliation.ts:21 | the attempt limit is the number between one and ten nearest to the configured one |
| ProtocolCore.EventKeeps | apps/worker/src/index.ts:401-1045 | every event of the system keeps the safety invariant, for every interleaving |
| ProtocolCore.InvAlways | apps/worker/src/index.ts:272-483 | the safety invariant holds in every state of every run, re-simulation included |
| ProtocolHistory.EventAdvances | apps/worker/src/mutation-reconciliation.ts:64-172 | every event keeps the history invariant, and all but a re-simulation only add to the record |
| ProtocolHistory.StrictAlways | apps/worker/src/mutation-reconciliation.ts:64-172 | the history invariant holds in every state of every run |
| ProtocolTheorems.AtMostOneSend | apps/worker/src/index.ts:401-908 | in every run, at most one delivery claims the plan, passes the barrier or sends `CreateTags` |
| ProtocolTheorems.EverySendCleared | apps/worker/src/index.ts:389-908 | every request sent had passed the approval check at the recorded time, under its job's key and no later than the plan's expiry, the live checks and the no-op test, all on its worker's own snapshot |
| ProtocolTheorems.LaterDeliveriesNeverSend | apps/worker/src/index.ts:282-330 | once a request is out nothing is sent again, and no later delivery ever holds the claim or passes the barrier |
| ProtocolTheorems.WriteAhead | apps/worker/src/index.ts:848-908 | in every run, once the barrier is passed the stored outcome has left NOT_ATTEMPTED, and is back there exactly if a re-simulation took effect after the barrier |
| ProtocolTheorems.WrittenInClosure | packages/utils/src/index.ts:232-245 | every outcome change written raises the rank and lies in the closure of the table; only ATTEMPTED to MANUAL_REVIEW_REQUIRED is not in the table itself |
| ProtocolTheorems.OutcomeOnlyRises | apps/worker/src/index.ts:1187-1223 | every event of every run keeps the outcome or raises it along the table, and keeps confirmed and manual-review ones; only a re-simulation that takes effect starts over |
| ProtocolTheorems.AtMostThreeChanges | apps/worker/src/mutation-reconciliation.ts:222-286 | the outcomes a plan has had start at NOT_ATTEMPTED, end at the stored one and change at most three times along the table, and once more, for good, if the plan is simulated again after its barrier |
| ProtocolTheorems.SuccessWasObserved | apps/worker/src/mutation-reconciliation.ts:143-163 | CONFIRMED_SUCCEEDED rests on a provider reading with every tag of the cleared request that was sent, or with every tag of the approved target on the approved instance |
| ProtocolTheorems.MarkersAgree | apps/worker/src/index.ts:852-880 | in every state unresolved outcomes carry a pending, in-progress or retryable status, confirmed ones are RESOLVED, and manual review is in both columns or in neither |
| ProtocolTheorems.UnresolvedIsSelectedIffBudget | apps/worker/src/mutation-reconciliation.ts:22-51 | while attempts are left an unresolved plan matches the candidate query at exactly the times from one moment on, its staleness, its retry time or its claim's staleness, and never afterwards |
| ProtocolTheorems.LostIsSelectedFrom | apps/worker/src/mutation-reconciliation.ts:39-48 | a plan with nothing attempted matches the query exactly when its execution was claimed, its status is due, attempts are left and its lease is stale |
| ProtocolTheorems.RequestIdsWriteOnce | apps/worker/src/index.ts:917-934 | once set a request id stays, but for the one that a re-simulation clears, and the two are equal in every state but after such a restart of a plan that had one |
| ProtocolTheorems.ResimulationSplitsIds | apps/backend/src/modules/governance/aws-change-execution.service.ts:65-111 | a re-simulation that takes effect leaves the ids equal exactly when there was none |
| ProtocolTheorems.AttemptsAreExclusive | apps/worker/src/mutation-reconciliation.ts:64-91 | no two reconcilers hold the same attempt number, counting since the plan was last simulated |
| ProtocolTheorems.FencedWrites | apps/worker/src/mutation-reconciliation.ts:117-133 | in every run, a retry, resolution or manual-review write changes the row exactly when it arrives and no outcome, status or attempt write happened since its own claim, which then is the latest |
| ProtocolTheorems.RetryDelayBounds | apps/worker/src/mutation-reconciliation.ts:116 | retries wait two, four, eight and then fifteen minutes |
| ProtocolTheorems.BudgetKept | apps/worker/src/mutation-reconciliation.ts:109-141 | the attempt count never exceeds the clamped limit, and a retry is promised only below it |
| ProtocolResponses.OutcomeIsTheAnswers | apps/worker/src/index.ts:899-950 | in every run CONFIRMED_FAILED means that the one request was rejected, OUTCOME_UNKNOWN that it was sent and not rejected, and every request id on record is the one the provider answered with |
| ProtocolResponses.LeftAloneItSettles | apps/worker/src/index.ts:899-1031 | in every reachable state a sender left alone ends as CONFIRMED_FAILED exactly if rejected, CONFIRMED_SUCCEEDED exactly if accepted and every tag is read back, and OUTCOME_UNKNOWN otherwise, with the rest of the row to match |
| ProtocolRows.TimesAgree | apps/worker/src/index.ts:958-1005 | in every state the plan has an attempt time exactly if something was attempted and a confirmation time exactly if the outcome is confirmed, and every step that changes the outcome sets the lifecycle that goes with it |
| ProtocolRows.SimulatedIsNotSelected | apps/worker/src/mutation-reconciliation.ts:39-48 | a plan that starts as NOT_REQUIRED, as simulating leaves it, is never selected before its barrier, so a lost execution of it is never found |
| ProtocolGuards.ClaimSeesPermission | apps/worker/src/index.ts:401-428 | a claim is won only on a row that at that moment has the job's key, a granted approval before its expiry, a claimable lifecycle and nothing attempted |
| ProtocolGuards.BarrierSeesExecution | apps/worker/src/index.ts:852-881 | the barrier is passed only on a row that at that moment is executing with nothing attempted; it changes its own marks only, and no query selects the plan before it is stale |
| ProtocolGuards.GoesOnOnlyIfAcknowledged | apps/worker/src/index.ts:848-934 | a delivery sends only after its barrier is acknowledged, and reads back only when the request had no id or its id is on record |
| ProtocolGuards.OnlyApprovingPermits | apps/backend/src/modules/governance/aws-change-execution.service.ts:517-533 | of all routes only approving a pending plan without a bound approval makes it claimable, and binds the approval |
| ProtocolGuards.WithdrawnIsNotPermitted | apps/backend/src/modules/governance/aws-change-execution.service.ts:159-169 | after asking anew, rejecting, blocking or simulating again no claim is possible, and but for blocking the approval is no longer granted |
| ProtocolGuards.RestartedIsFresh | apps/backend/src/modules/governance/aws-change-execution.service.ts:65-111 | simulating again leaves a plan under its new key and expiry as if nothing had been attempted, but for the AWS request id, and keeps its bound approval |
| ProtocolGuards.QueuedIsApproved | apps/backend/src/modules/governance/aws-change-execution.service.ts:258-276 | a plan is queued only while approved with nothing attempted, and for the key it is queued under |
| ProtocolGuards.EnqueueFailedIsAnswered | apps/backend/src/modules/governance/aws-change-execution.service.ts:593-622 | a plan that could not be queued answers for its key from then on, with nothing attempted |
| ProtocolGuards.RetryWaits | apps/worker/src/mutation-reconciliation.ts:109-133 | after a failed reading the plan is selected at exactly the times when it is stale and two, four, eight or fifteen minutes are over, by the number of the attempt |
| ProtocolGuards.ClaimWaits | apps/worker/src/mutation-reconciliation.ts:64-91 | a claimed attempt is taken over only once it is stale, if the plan is unresolved and attempts are left |
| ProtocolGuards.ScheduledIsSelected | apps/worker/src/index.ts:1299-1313 | a delivery gives an unresolved plan without a marker one, from which it is selected once stale, and leaves any other plan alone |
| ProtocolGuards.ConfirmationIsTimed | apps/worker/src/mutation-reconciliation.ts:143-163 | in every run a step that confirms the outcome records when, leaves nothing due, and makes the plan ready for rollback exactly if the change succeeded |
| ProtocolBarrier.BarrierAloneSuffices | apps/worker/src/index.ts:848-897 | in staging mode at most one request is sent even if lifecycle and approval are rewritten at will |
| PlanStore.SoloIsARun | apps/worker/src/index.ts:272-483 | an actor left alone, from any state, is a run of the system |
| PlanStore.StartedAloneIsARun | apps/worker/src/index.ts:272-483 | so is a delivery or reconciler that starts and is then left alone |
| Delivery.SendSettles | apps/worker/src/index.ts:899-1031 | left alone from the provider call on, a delivery settles the row by the provider's answer and one reading, column by column |
| Delivery.DeliveryLeaves | apps/worker/src/index.ts:272-483 | left alone, a delivery sends exactly when the job's key, an unexpired permission and every check are there; the row then is what the answer and the reading say, and otherwise what the first obstacle says |
| Delivery.DeliveryIsARun | apps/worker/src/index.ts:272-483 | the same of a delivery that starts in any state of the system and is then left alone |
| PlanStore.PlanStore.ClaimExecution | apps/worker/src/index.ts:401-427 | the execution claim on the stored columns, and its row count |
| PlanStore.PlanStore.CompleteSimulation | apps/worker/src/index.ts:449-467 | the unguarded write that ends a simulated execution |
| PlanStore.PlanStore.RecordAttempt | apps/worker/src/index.ts:852-881 | the write-ahead barrier, and its row count |
| PlanStore.PlanStore.RecordRequestId | apps/worker/src/index.ts:919-927 | both request ids are set if both are missing and the outcome is ATTEMPTED |
| PlanStore.PlanStore.Confirm | apps/worker/src/index.ts:958-1005 | the confirmation, sent or no-op, guarded by the outcome alone |
| PlanStore.PlanStore.PersistMutationOutcome | apps/worker/src/index.ts:1187-1223 | the outcome write from ATTEMPTED, with the request ids filled in unless they conflict |
| PlanStore.PlanStore.EnsureReconciliationScheduled | apps/worker/src/index.ts:1299-1313 | an unresolved row without a marker becomes PENDING if it is still as seen |
| PlanStore.PlanStore.FailPlan | apps/worker/src/index.ts:1336-1351 | the lifecycle becomes FAILED, unguarded |
| PlanStore.PlanStore.BlockPlan | apps/worker/src/index.ts:1394-1408 | the lifecycle becomes BLOCKED, unguarded |
| PlanStore.PlanStore.ClaimReconciliation | apps/worker/src/mutation-reconciliation.ts:64-91 | the reconciliation claim on the snapshot's outcome, status, attempt count and, for a stale claim, its time |
| PlanStore.PlanStore.RetryLater | apps/worker/src/mutation-reconciliation.ts:113-133 | the fenced retry with its delay |
| PlanStore.PlanStore.PersistResolution | apps/worker/src/mutation-reconciliation.ts:222-234 | the fenced resolution, for both outcomes it is called with |
| PlanStore.PlanStore.PersistManualReview | apps/worker/src/mutation-reconciliation.ts:250-272 | the fenced manual-review write |
| PlanStore.PlanStore.ReconcileMutationCandidate | apps/worker/src/mutation-reconciliation.ts:64-172 | the reconciliation procedure computes the specified row, reports what it left there, and with nobody else about is never overtaken |
| PlanStore.PlanStore.RunRound | apps/worker/src/mutation-reconciliation.ts:17-62 | a batch round reconciles the row exactly when the query selects it, and what is selected is always claimed |
| ReconciliationBatch.OldestFirst | apps/worker/src/mutation-reconciliation.ts:20-55 | a batch takes only candidates, each once and at most the clamped batch size, and every candidate it leaves for later is due no earlier than one it takes, then attempted no earlier, then has the larger id |
| ReconciliationBatch.BatchIsRounds | apps/worker/src/mutation-reconciliation.ts:17-62 | a batch leaves every plan as one round would, except candidates for which a full batch had no room |
| ReconciliationBatch.PlanTable.ReconcileOne | apps/worker/src/mutation-reconciliation.ts:57-59 | reconciling one selected plan changes its row by one round and no other row, and is never beaten to the claim |
| ReconciliationBatch.PlanTable.RunMutationReconciliationBatch | apps/worker/src/mutation-reconciliation.ts:17-62 | the batch loop computes the specified table, with one report for each selected plan |
| PlanStore.PlanStore.VerifyAndConfirm | apps/worker/src/index.ts:936-1031 | the read after the write and the confirmation are the protocol's steps |
| PlanStore.PlanStore.SendAndVerify | apps/worker/src/index.ts:899-934 | so are the provider call and the recording of its request id |
| PlanStore.PlanStore.ExecuteGovernedEc2Tagging | apps/worker/src/index.ts:700-1046 | so is the whole tagging execution |
| PlanStore.PlanStore.ProcessGovernedAwsChangeJob | apps/worker/src/index.ts:272-483 | a whole delivery, left alone, leaves the row as the protocol's steps do |
| Reconciliation.RoundIsARun | apps/worker/src/mutation-reconciliation.ts:64-172 | a round of the procedure is a run of the system |
| Reconciliation.UndisturbedRoundsSettle | apps/worker/src/mutation-reconciliation.ts:109-141 | timely rounds left alone resolve an unresolved plan or hand it to manual review within its remaining attempts |
| Reconciliation.SettlesIffBudgetLeft | apps/worker/src/mutation-reconciliation.ts:22-51 | from any reachable state, enough timely rounds settle an unresolved plan exactly when attempts are left |
| Reconciliation.ReadingDecides | apps/worker/src/mutation-reconciliation.ts:143-163 | one reading settles the plan, as success exactly when it shows the approved instance with every requested tag |
| Reconciliation.EventuallySelectedIff | apps/worker/src/mutation-reconciliation.ts:24-51 | the reachable rows that some round will still select, exactly |
| Reconciliation.LostIsFailed | apps/worker/src/mutation-reconciliation.ts:94-101 | a round on a lost execution that is due fails the plan with nothing attempted, and it is never selected again |
| Reconciliation.DeliverySends | apps/worker/src/index.ts:700-934 | under any checks that let its request through before the plan's approval expires, a queued plan's delivery reaches the provider, whatever it answers and shows, and leaves the row accordingly |
| Reconciliation.StrandedByCrash | apps/worker/src/mutation-reconciliation.ts:50 | under any such checks and any budget, a run that sends a request, fails every reading, loses its reconciler on the last attempt, and is never selected again |
| Reconciliation.LostByCrash | apps/worker/src/mutation-reconciliation.ts:39-48 | under any such checks, a delivery that crashes between claim and barrier leaves the plan executing, and no query ever selects it |
| Reconciliation.ResimulationCanSplitIds | apps/backend/src/modules/governance/aws-change-execution.service.ts:65-111 | under any such checks, a run after which only one of the two request ids is set |
| Reconciliation.ConfirmedByReading | apps/worker/src/mutation-reconciliation.ts:143-163 | under any such checks, a run that sends a request and is confirmed by a later reading |
| Reconciliation.QueuedIsReached | apps/backend/src/modules/governance/aws-change-execution.service.ts:44-276 | simulating, requesting, approving and queueing lead from any untouched plan without an approval to the queued row these runs start from |
| Installation.EverySendIsApproved | apps/worker/src/index.ts:700-908 | in every run, every request carries the approved tags up to order to the instance the approval names; the approval was granted to this plan and organization by somebody other than the requester, has the job's key and had not expired; account, region and tag keys are on the configured lists and the session is the executor's in the plan's account; it was decided on an instance in the approved state that passes the gates and is left unchanged, and they are one instance if the provider answers about the instance asked for |
| Installation.EveryConfirmationIsApproved | apps/worker/src/mutation-reconciliation.ts:143-188 | in every run in which only simulating rewrites a bound plan's payload, a confirmed plan's evidence is a reading with exactly the tags of the one request let past the barrier, which carries the approval; a reconciler's reading is of that request's instance, for a plan whose approval was granted |
| Installation.TargetIff | apps/worker/src/mutation-reconciliation.ts:174-188 | the reconciler takes a plan for a target exactly when it is a tagging plan of its organization, with a granted approval of this plan, whose payload names the plan's own instance and region and a strict list of tags |
| ProtocolPayload.PayloadAlways | apps/backend/src/modules/governance/aws-change-execution.service.ts:65-111 | in such runs the row, every reconciler's snapshot of an unresolved plan and the evidence keep the payload of the request let past the barrier |
| ProtocolPayload.ConfirmationIsAboutAttempt | apps/worker/src/mutation-reconciliation.ts:143-172 | in such runs a confirmed plan's evidence is the sender's own request or a plan with the same payload |
| ApprovedExample.IsSendable | apps/worker/src/index.ts:384-841 | in staging mode with configured allow-lists, a plan as simulating, approving and queueing leave it passes every check of the worker, for any key and any time before its expiry, and under any budget |
| ApprovedExample.IsTarget | apps/worker/src/mutation-reconciliation.ts:174-214 | and the reconciler's validation |
| ApprovedExample.IsSentAsApproved | apps/worker/src/index.ts:700-908 | its request is sent in some run, meets every condition of the theorem on sends, and carries its approval |
| ApprovedExample.CanBeConfirmed | apps/worker/src/mutation-reconciliation.ts:143-163 | it can be confirmed in a run in which nothing rewrites its payload |
| ApprovedExample.CanBeStranded | apps/worker/src/mutation-reconciliation.ts:50 | it can be stranded, whatever the budget |
| ApprovedExample.CanBeLost | apps/worker/src/mutation-reconciliation.ts:39-48 | it can be lost between claim and barrier, and is then never selected |
| ApprovedExample.CanSplitIds | apps/backend/src/modules/governance/aws-change-execution.service.ts:65-111 | and simulated again, it can be left with one of its two request ids |
| ApprovedExample.IsReached | apps/backend/src/modules/governance/aws-change-execution.service.ts:44-276 | the routes lead any untouched plan without an approval to it |
| Installation.ReconcilerComparesSentTags | apps/worker/src/mutation-reconciliation.ts:174-188 | the reconciler compares readings with the very tags and instance a worker would have sent to |
| Inventory.SaveAllTouches | apps/worker/src/aws-ec2-scanner.ts:422-494 | upserting touches exactly the collected keys, and each ends with its last item's data, current, fresh and unarchived |
| Inventory.CountsAddUp | apps/worker/src/aws-ec2-scanner.ts:397-420 | created is the table's growth, and created, updated and unchanged are all the items |
| Inventory.UpdatedIff | apps/worker/src/aws-ec2-scanner.ts:490-493 | an item counts as created exactly if it has no row, and as updated exactly if its row differs in name, region, status, tags, source or AWS metadata |
| Inventory.LastNameStays | apps/worker/src/aws-ec2-scanner.ts:454-488 | a row has the last name it was collected with |
| Inventory.NameStays | apps/worker/src/aws-ec2-scanner.ts:454-488 | and one collected without a name keeps the name it had |
| RegionScan.FreshIffCollected | apps/worker/src/aws-ec2-scanner.ts:554-576 | after a finished scan a row in scope is fresh exactly when it was collected, or its id was under another type and it was fresh before |
| RegionScan.FreshIffCollectedSimply | apps/worker/src/aws-ec2-scanner.ts:554-576 | with ids unique across types, exactly when it was collected |
| RegionScan.ScanTouches | apps/worker/src/aws-ec2-scanner.ts:319-395 | rows only appear by being collected, and rows out of scope or seen are left alone by stale marking |
| RegionScan.OtherRowsStay | apps/worker/src/aws-ec2-scanner.ts:554-576 | rows of another organization, account, region, source or kind, and archived ones, stay as they are unless collected |
| RegionScan.CountsAreTrue | apps/worker/src/aws-ec2-scanner.ts:319-395 | the reported counts are the growth of both tables, the items by change, and the rows newly missed |
| RegionContents.CollectedIff | apps/worker/src/aws-ec2-scanner.ts:350-369 | a row is collected exactly when an entry of its kind has its id, which is not missing |
| RegionContents.RowShowsLastEntry | apps/worker/src/aws-ec2-scanner.ts:350-369 | a row shows the tags, metadata, status and name of the last entry of its kind with its id, seen now in this region |
| RegionContents.FoundIff | apps/worker/src/aws-ec2-scanner.ts:371-390 | a relationship is found exactly when an entry joins the two provider ids, a subnet or group to its VPC, an instance to its subnet, VPC and each group, a volume to each attached instance, and its ends are the two different rows last recorded under these ids |
| RegionScan.RecordedIsLinked | apps/worker/src/aws-ec2-scanner.ts:371-390 | every relationship found joins two rows of the account collected by the same scan, so none is recorded and then skipped |
| RegionScan.RelationshipFreshIffFound | apps/worker/src/aws-ec2-scanner.ts:578-611 | after a finished scan a relationship in scope is fresh exactly when it was found, and otherwise stale since it was first missed; all others are as they were |
| RegionScan.OtherRelationshipsStay | apps/worker/src/aws-ec2-scanner.ts:578-611 | relationships of another organization, account, kind or origin stay as they are unless found |
| RegionScan.RescanIsUnchangedIff | apps/worker/src/aws-ec2-scanner.ts:490-493 | an item collected again counts as unchanged exactly when it has a name or the stored row had none |
| RegionScan.LostNameIsUpdatedAgain | apps/worker/src/aws-ec2-scanner.ts:454-493 | an item that loses its name counts as updated although the table no longer changes |
| InventoryHistory.MissesSinceLastObserved | apps/worker/src/aws-ec2-scanner.ts:454-576 | over any scans, a row's region, miss count and staleness are those of the passes since its last observation, even when it moves |
| InventoryHistory.EveryRegionAgrees | apps/worker/src/aws-ec2-scanner.ts:213-234 | over any scans, a row in a region agrees with the last finished pass over that region, although later passes may have moved rows away |
| InventoryHistory.RelationshipFreshIffLastFound | apps/worker/src/aws-ec2-scanner.ts:496-611 | over any scans of whatever accounts and regions, a relationship is fresh exactly when the last finished pass over its source's region found it |
| InventoryHistory.TotalsAreTrue | apps/worker/src/aws-ec2-scanner.ts:716-724 | the merged totals are the growth of the tables and the number of items seen |
| InventoryHistory.RegionsPartition | apps/worker/src/aws-ec2-scanner.ts:213-253 | every requested region is reported once, as finished or as failed |
| InventoryStore.InventoryStore.SaveResource | apps/worker/src/aws-ec2-scanner.ts:422-494 | one upsert: the new table, and whether it created, changed or kept the row |
| InventoryStore.InventoryStore.RecordResource | apps/worker/src/aws-ec2-scanner.ts:397-420 | one upsert with its id, its seen mark and its counts |
| InventoryStore.InventoryStore.SaveRelationship | apps/worker/src/aws-ec2-scanner.ts:496-552 | one relationship upsert, its recorded key, and the growth it caused |
| InventoryStore.InventoryStore.MarkMissingResourcesStale | apps/worker/src/aws-ec2-scanner.ts:554-576 | exactly the missed rows in scope are marked, counted and get one more miss |
| InventoryStore.InventoryStore.MarkMissingRelationshipsStale | apps/worker/src/aws-ec2-scanner.ts:578-611 | exactly the fresh relationships in scope that were not recorded are marked |
| InventoryStore.InventoryStore.ScanRegion | apps/worker/src/aws-ec2-scanner.ts:319-395 | the scanner's loops compute the scan function and its counts |
| InventoryStore.InventoryStore.ScanRegions | apps/worker/src/aws-ec2-scanner.ts:213-279 | the region loop runs the finished regions in order, merges their counts, and ends with the right status |
| AwsPages.Collect | apps/worker/src/aws-ec2-scanner.ts:613-623 | the page loop computes the specified result |
| AwsPages.CollectedIffWithinLimit | apps/worker/src/aws-ec2-scanner.ts:613-671 | a listing is collected whole if it has at most a hundred pages and refused otherwise |
| AwsPages.EndsWithinLimit | apps/worker/src/aws-ec2-scanner.ts:613-671 | the loop succeeds exactly when some listing of at most that many pages exists |
| Alerts.UnresolvedAreEvaluated | apps/worker/src/monitoring-orchestrator.ts:252-365 | after a run an organization's unresolved alerts are exactly the evaluated ones, and other organizations are untouched |
| Alerts.CountsAreTrue | apps/worker/src/monitoring-orchestrator.ts:248-365 | created and updated are the evaluated alerts, created the table's growth, resolved the alerts newly closed |
| Alerts.RerunIsQuiet | apps/worker/src/monitoring-orchestrator.ts:252-365 | a rerun on the same alerts, repeated keys included, creates and resolves none |
| Alerts.EvidenceIsHistory | apps/worker/src/monitoring-orchestrator.ts:265-318 | through any runs, acknowledgements, resolutions and reopenings an alert counts its whole history and keeps its last ten entries |
| Alerts.LastTenAreKept | apps/worker/src/monitoring-orchestrator.ts:265-269 | that is, up to ten entries, the newest of its history |
| AlertHistory.StatusIsHistory | apps/worker/src/monitoring-orchestrator.ts:265-365 | after any events an alert is ACKNOWLEDGED exactly if it was acknowledged once known and not closed since, RESOLVED exactly if it was closed and neither observed nor acknowledged since, and otherwise OPEN |
| AlertHistory.ObservedTimes | apps/worker/src/monitoring-orchestrator.ts:305-318 | an alert shows the time of the run that last opened or reopened it and the time of the run that last observed it |
| AlertHistory.ResolvedWhen | apps/worker/src/monitoring-orchestrator.ts:346-365 | a resolution time is that of the last event that closed the alert, by hand in any case or by a run that found it unresolved |
| Alerts.ResolvedIsStamped | apps/worker/src/monitoring-orchestrator.ts:355-361 | resolved alerts carry a resolution time and open ones do not |
| Alerts.MisleadingIff | apps/backend/src/routes/monitoring.routes.ts:468-480 | over any list of events, an unresolved alert carries a resolution time exactly if it was acknowledged after being closed, before being observed again, and has not been closed since |
| Alerts.AcknowledgingMisleads | apps/backend/src/routes/monitoring.routes.ts:468-511 | an alert observed, resolved by hand and acknowledged is ACKNOWLEDGED with a resolution time |
| AlertStore.AlertStore.Upsert | apps/worker/src/monitoring-orchestrator.ts:254-343 | one transaction of the upsert loop, and whether it created a row |
| AlertStore.AlertStore.ResolveMissing | apps/worker/src/monitoring-orchestrator.ts:346-365 | the auto-resolution loop closes exactly the open alerts not evaluated, and counts them |
| AlertStore.AlertStore.EvaluateMonitoring | apps/worker/src/monitoring-orchestrator.ts:246-365 | the two loops compute the run function and its counts |
| AlertStore.AlertStore.AcknowledgeAlert | apps/backend/src/routes/monitoring.routes.ts:468-482 | the acknowledge route on the table, and its row count |
| AlertStore.AlertStore.ResolveAlert | apps/backend/src/routes/monitoring.routes.ts:497-511 | the resolve route on the table, and its row count |
| EvidencePaging.ListAlertEvidence | apps/backend/src/routes/monitoring.routes.ts:294-341 | the alert endpoint's page is the finding endpoint's |
| EvidencePaging.PageAt | apps/backend/src/routes/risk-workflow.routes.ts:100-158 | the page at a cursor is the next stretch of the listing, with an exact has-more flag and the next cursor |
| EvidencePaging.WalkListsEverything | apps/backend/src/routes/risk-workflow.routes.ts:100-158 | following the cursors while rows that are not behind the cursor come and go returns every row of the first page's table exactly once, newest first, and no other, in full pages, and ends |
| EvidencePaging.NewerRowsDoNotMatter | apps/backend/src/routes/monitoring.routes.ts:310-328 | a page behind a cursor does not depend on rows that are not behind it |

## Left out

- ParseEvidence: like the function it computes, refuses evidence whose identifiers are not strings; the source's regular expressions would convert a number or a one-element array to text first. Evidence the application itself writes has strings there.
- BarrierAloneSuffices: staging mode only, because the simulation's final write is unguarded.
- EveryConfirmationIsApproved: the worker's confirming read is not compared with the instance it was asked about, so a sender's reading is of the approved instance only under the provider assumption. That nothing but simulating writes a plan's payload is a condition on the run; it is so in the repository.
- RollbackCanFail: nothing in the repository executes a rollback, so replaying an inherited previous value is modelled as creating the tag with an empty value.
- EverySendIsApproved: SHA-256 is an arbitrary function here, so the theorem excludes a collision between the two texts compared, and between the texts of the stored and the observed safety state, and nothing more.
- ProcessGovernedAwsChangeJob: with the methods it calls, covers deliveries whose database writes are acknowledged; lost writes and lost acknowledgements are steps of the transition system.
- The database clock is a parameter of each step, so nothing is assumed about clocks of different processes. The two readings of the worker's clock for the expiry of the plan and of its approval (`apps/worker/src/index.ts:372,1056`) are one time here.
- The environment gates, the creator-approver test and the owner of a foreign idempotency key are choices of a step; the results returned to the queue, audit events, logs and the contents of `executionEvidence` are not modelled.
- AWS clients, STS, Redis, BullMQ and Prisma: provider calls return any result, and statements and transactions are atomic.
- `Date` objects, objects with unusual prototypes and getters: values are plain JSON, `undefined` and unsupported kinds being one case. Numbers are their decimal text, with minus zero printed as zero.
- ScanRegions: a region that fails does so before it writes; rows written by a scan that fails later are not modelled. Region names are taken after trimming and removing duplicates.
- Database ids of inventory rows stand for the unique key that determines them, and tags and metadata for the text the database gives back.
- The confirming write also records tags in `beforeState` and `afterState`; these contents are not modelled.
- A monitoring run that fails midway, the append-only alert evidence, notifications, and the lifecycles of monitoring and scan runs.
- The monitoring rules themselves; the evaluated alerts are an arbitrary list.
- Encoding and validating the paging cursor; a cursor is its time and id.
