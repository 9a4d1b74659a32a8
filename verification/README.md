# Verified model of the Pixiv Yuri acquisition core

A Dafny model of the part of the system that may touch the outside world exactly
once, of the safety kernel that meters it, and of the analytics and API code whose
correctness rests on an argument that no single function shows.

**The live protocol.** Five durable tables (run budgets, daily budgets, permits,
first-request slots, execution journals, with their stop events) are changed only by
short atomic transactions. `Schema`, `Ledger` and `Transactions` give each transaction
as a function from tables to a commit or an abort; `Services` has the same operations
as objects that update rows step by step, each proved equal to its function. `Protocol`
lets any number of composition roots, coordinators, reconcilers and other users of the
kernel take one step at a time, in any order. A process can stop for ever at any point;
a session can be lost before its commit or after it, so that the caller sees an
exception although the transaction is durable; clock readings are arbitrary. `Links`,
`Budget`, `Breakers` and `Evolution` hold the joint invariant and the one-way order of
rows, `ProcessInvariant` and `WorldInvariant` carry it through every step by what each
step promises the others, and `Theorems` states what follows for every run. `Fetches` is
about the moment between the sender's verification, which is one transaction, and its
fetch, which is not. `Moves` lists every write a row can undergo and by whom; `Evidence`
and `Causes` compare what `execute` returns and what the failure codes say with the log of
what was really sent and heard; `Claims` says exactly when a slot, a journal or a run budget
is granted; `Verdicts` finds the readiness check and the accepted response behind a root's
steps; `Attempt` follows one undisturbed attempt to its end.

**Recovery.** `Recovery` proves that reconciliation converges, is idempotent and may be
interrupted anywhere. `Agreement` and `Disagreement` say when a slot and its journal
agree, the latter exactly. They need not: `Counterexample` gives a run in which the
commit of a completion is ambiguous, the root fails the slot, and no reconcile can
repair it. `Coordinator` and `Reconciler` are the two programs over the services; the
coordinator runs with everyone else taking turns between its transactions.

**The permit kernel.** `Limits` and `KernelTheorems` prove that every cap holds in every
reachable state, including the sliding minute under a clock that goes backwards, that
every counter equals the rows it counts, and that the breakers follow the response log.
`Reasons` ties each decision and each stop reason to the permit rows and the response log.
`Simulation` relates the kernel to the in-memory `Controller`, stop reasons included.

**Tags.** `TagGraphBuilder` proves the counting loops against set cardinalities
(`TagAssociations`, `TagOrder`, `TagRanking`); `TagSensitivity` proves that raising the
threshold cuts the ranking at one place, so survival sets and retention are exact even when
lists are truncated.

**Smaller cores.** The two consumer rate limiters (`SlidingLimiter`, `AlignedLimiter`),
percent-encoding normal form and canonical JSON of a request (`RequestPath`, `JsonText`,
`RequestBinding`), the canonical form behind the approval fingerprint over the JSON
serializer itself (`Json`, `CanonicalForm`), how canonical texts are spelled (`Spelling`),
the bounded pipeline (`Pipeline`), and ranked paging through encoded cursors (`Cursor`,
`RankPaging`).

Conventions: a row's primary key is its position in its table; digests are numbers;
money is an integer number of micro-units; an instant is an integer number of
microseconds and comes with its calendar day, the two unrelated, so that statements
hold for any calendar.

Where code and documentation differ the code is followed: `docs/live-execution-journal.md`
and `docs/journal-bound-live-attempt.md` say that the composition does not yet go
through the journal, but `src/pixiv_yuri/governance/live_one_request_composition.py`
hands the armed request to the journal-bound executor, and that is what is modelled.

## Model

| member | source | states |
|---|---|---|
| `Theorems.AtMostOneSend` | src/pixiv_yuri/acquisition/live_attempt_coordinator.py:110-170 | Over every run of any number of roots, coordinators, reconcilers and budget clients, with crashes and ambiguous commits, the sender is called at most once and the provider fetched at most once for one approval fingerprint |
| `Theorems.IntentIsDurableFirst` | src/pixiv_yuri/acquisition/live_attempt_coordinator.py:125-166 | Write-ahead intent: at a call the journal row already holds its start time and a counted permit of the same approval and request, and is send-started or (a reconcile raced) indeterminate |
| `Fetches.FetchFollowsVerification` | src/pixiv_yuri/acquisition/durable_external_sender.py:112-204 | A fetch begins only behind an earlier transaction of the same process that verified the send as started, the permit as authorized and the slot as open; at the fetch the journal still holds that start and that permit, unsettled and send-started or indeterminate, and the permit is authorized or transport-failed, or consumed only if somebody outside the attempts answered for it |
| `Fetches.VerifiedEarlier` | src/pixiv_yuri/acquisition/durable_external_sender.py:161-204 | A sender that is past its verification has a step of the run at which the verification succeeded |
| `Fetches.ConsumedByAnswer` | src/pixiv_yuri/acquisition/persistent_safety.py:276-312 | The permit of a journal is consumed only by an answer that its own attempt heard from the network, or by a foreign one |
| `Counterexample.FetchAfterReconcile` | src/pixiv_yuri/acquisition/durable_external_sender.py:130-143 | The race is real: a concrete run has a whole reconcile between the verification and the fetch, and the fetch begins on an indeterminate journal with a released permit and a failed slot |
| `Theorems.NoSendEvidenceIsForever` | src/pixiv_yuri/acquisition/live_execution_journal.py:253-281 | A journal that failed with no permit proves that nothing was sent for its approval and nothing will be in any continuation, even if a paused coordinator resumes |
| `Theorems.CompletedMeansOneSuccess` | src/pixiv_yuri/acquisition/live_execution_journal.py:174-214 | A completed journal has exactly one call, a fetch, and a permit consumed with the 2xx status that the network answered |
| `Theorems.CompletedSlotHasCompletedJournal` | src/pixiv_yuri/governance/live_one_request_composition.py:255-447 | A slot is completed only if the journal of that slot is completed |
| `Theorems.ReturnedResultIsFinal` | src/pixiv_yuri/acquisition/live_attempt_coordinator.py:97-225 | Every normal return of execute reports a terminal journal row, and that row stands unchanged in every continuation |
| `Evidence.ResultTellsTheTruth` | src/pixiv_yuri/acquisition/live_attempt_coordinator.py:157-225 | Every normal return of execute tells the truth for ever: it says attempted exactly if the sender was called for its journal, it carries a response status exactly if that status was heard, and its permit is the row's |
| `Causes.FailureCodesTell` | src/pixiv_yuri/acquisition/live_attempt_coordinator.py:117-266 | In every reachable state a journal has a failure code exactly if it is failed or indeterminate, and the code is true: no send for permit_authorization_failed and recovery_before_send; a heard status outside 2xx, or inside, for non_success_response and response_processing_failed; a call and nothing heard for transport_result_unknown; a call and an answer for permit_settlement_unknown; send_start_failed, send_start_commit_unknown and journal_settlement_failed are never written |
| `Causes.OwnersWriteUnlessClosed` | src/pixiv_yuri/acquisition/live_execution_journal.py:174-281 | In every reachable state the coordinator's next settle, complete, fail, mark or recover on its own journal commits exactly unless somebody closed the journal first |
| `Attempt.UndisturbedAttempt` | src/pixiv_yuri/governance/live_one_request_composition.py:350-447 | From any sound tables an attempt that nobody disturbs and that loses no session ends within fourteen steps, and readiness, the kernel's decision, verification, network, processor and response identity alone decide the journal row, its failure code, the permit with its status, and the slot; a refused response fails the open slot although the journal completes |
| `Verdicts.CompletionIsEarned` | src/pixiv_yuri/governance/live_one_request_composition.py:413-418 | Whenever an event completes a slot, either its root does, after an earlier step in which execute had returned the slot's completed journal and the response was accepted, or a reconciler that holds the slot's completed journal |
| `Verdicts.ReadyEarlier` | src/pixiv_yuri/governance/live_one_request_composition.py:349-411 | A root that works on an attempt, and so calls the sender, passed its readiness check in an earlier step |
| `Theorems.RowsOnlyMoveForward` | src/pixiv_yuri/acquisition/persistence_models.py:202-235 | Rows are never removed and move one way: terminal journals and resolved slots never change, versions rise with each change, and every journal meets the six-way shape constraint in every reachable state |
| `Theorems.InconsistencyErrorsUnreachable` | src/pixiv_yuri/acquisition/live_slot_reconciler.py:104-136 | The missing-permit, bad-status and in-flight-below-one errors of the reconciler, the in-flight inconsistency of the kernel and a settlement with a foreign permit cannot occur in any reachable state |
| `Theorems.GrantMatchesClaim` | src/pixiv_yuri/acquisition/live_attempt_coordinator.py:140-146 | The coordinator never meets a granted permit of another approval: that branch is dead for every configuration of its kernel |
| `Theorems.ReconcilerPermitUsable` | src/pixiv_yuri/acquisition/live_slot_reconciler.py:104-136 | A standing record's permit exists, is not cancelled, and if authorized has a budget with a request in flight |
| `Theorems.CountedPermit` | src/pixiv_yuri/acquisition/persistent_safety.py:165-274 | A journal's permit is linked to it by approval, request and run, and its sequence is among the run's counted requests |
| `Links.OneJournalPerApproval` | src/pixiv_yuri/acquisition/persistence_models.py:169-235 | Two journals of one approval are one journal |
| `Links.AuthorizeAndStartSound` | src/pixiv_yuri/acquisition/persistent_safety.py:107-163 | The combined grant and start keeps every table constraint, the joint slot, journal, permit and budget invariant, and the forward order of rows |
| `Links.AuthorizeSound` | src/pixiv_yuri/acquisition/persistent_safety.py:85-105 | The plain authorization keeps the joint invariant and moves rows forward |
| `Links.RecordResponseSound` | src/pixiv_yuri/acquisition/persistent_safety.py:276-312 | Recording a response keeps the joint invariant and moves rows forward |
| `Links.RecordTransportFailureSound` | src/pixiv_yuri/acquisition/persistent_safety.py:314-324 | Releasing a permit after a transport failure keeps the joint invariant and moves rows forward |
| `Links.InitializeSound` | src/pixiv_yuri/acquisition/persistent_safety.py:65-83 | Creating a run budget keeps the joint invariant and moves rows forward |
| `Links.StopRunSound` | src/pixiv_yuri/acquisition/persistent_safety.py:326-352 | A manual stop or a drift signal keeps the joint invariant and moves rows forward |
| `Links.ClaimSlotSound` | src/pixiv_yuri/acquisition/first_request_slot.py:48-96 | Claiming a slot keeps the joint invariant: one permanent slot per approval, bound to its run |
| `Claims.SlotIsGrantedExactly` | src/pixiv_yuri/acquisition/first_request_slot.py:48-96 | Over every run a claim by a bound run is refused as spent exactly if an earlier event committed the slot of that same approval fingerprint; otherwise it commits a fresh open slot with the claimed identity and time |
| `Claims.JournalIsGrantedExactly` | src/pixiv_yuri/acquisition/live_execution_journal.py:76-136 | Over every run a journal claim on the open slot it names is refused as taken exactly if an earlier event committed a journal for the slot; otherwise it commits a fresh claimed row; a mismatch or a resolved slot is refused as such |
| `Claims.InitializedExactly` | src/pixiv_yuri/acquisition/persistent_safety.py:65-83 | In every reachable state a run is initialized exactly if the approval is active, the run is known and bound to no other approval; a new run starts at zero, an old one stays as it is, and the day is opened |
| `Claims.RunBoundExactly` | src/pixiv_yuri/acquisition/persistent_safety.py:65-83 | A run is bound to an approval exactly if an earlier event initialized it under that approval while it was active |
| `Moves.StepMovesJournals` | src/pixiv_yuri/acquisition/live_execution_journal.py:76-281 | Every change of a journal row is one of the source's writes, by the actor it belongs to, from the status it demands, stamped with that actor's clock and raising the version by one |
| `Moves.StepMovesSlots` | src/pixiv_yuri/acquisition/first_request_slot.py:48-138 | Every change of a slot is its claim, or its resolution by its root or a reconciler, stamped with the clock |
| `Moves.StepMovesPermits` | src/pixiv_yuri/acquisition/persistent_safety.py:240-324 | Every change of a permit is its authorization or its one spending, stamped with the clock |
| `Links.ResolveSlotSound` | src/pixiv_yuri/acquisition/first_request_slot.py:108-138 | Resolving a slot keeps the joint invariant and is one-way |
| `Links.ClaimJournalSound` | src/pixiv_yuri/acquisition/live_execution_journal.py:76-136 | Claiming a journal keeps the joint invariant: one journal per slot, with the slot's identity |
| `Links.SettleSound` | src/pixiv_yuri/acquisition/live_execution_journal.py:174-203 | Settling keeps the joint invariant: a settled journal has a consumed permit |
| `Links.CompleteSound` | src/pixiv_yuri/acquisition/live_execution_journal.py:205-214 | Completion keeps the joint invariant and is terminal |
| `Links.FailSound` | src/pixiv_yuri/acquisition/live_execution_journal.py:216-230 | Failure keeps the joint invariant and is terminal |
| `Links.MarkIndeterminateSound` | src/pixiv_yuri/acquisition/live_execution_journal.py:232-251 | Marking indeterminate keeps the joint invariant and is terminal |
| `Links.RecoverSound` | src/pixiv_yuri/acquisition/live_execution_journal.py:253-281 | Recovery keeps the joint invariant and moves rows forward |
| `Links.ConsumeUncertainPermitSound` | src/pixiv_yuri/acquisition/live_slot_reconciler.py:104-136 | Releasing an uncertain permit keeps the joint invariant and moves rows forward |
| `ProcessInvariant.StepOnward` | src/pixiv_yuri/acquisition/live_attempt_coordinator.py:97-279 | Every step of every process keeps the joint invariant and moves rows forward |
| `ProcessInvariant.StepKeepsProcess` | src/pixiv_yuri/acquisition/live_attempt_coordinator.py:97-279 | What a process knows about the tables stays true as it steps |
| `WorldInvariant.NextKeepsWorld` | src/pixiv_yuri/acquisition/live_attempt_coordinator.py:97-279 | Every event, including crashes and foreign kernel calls, keeps the joint world invariant over tables, processes and the log of external effects |
| `WorldInvariant.Reachable` | src/pixiv_yuri/acquisition/live_attempt_coordinator.py:97-279 | The joint invariant holds in every reachable world |
| `KernelTheorems.AllLimitsHold` | src/pixiv_yuri/acquisition/persistent_safety.py:199-257 | In every reachable state: permits authorized in any sixty seconds, permits in flight over all runs, per-run count, daily count, daily cost and monthly cost stay within the approval, even when clock readings go backwards |
| `KernelTheorems.GrantsExactly` | src/pixiv_yuri/acquisition/persistent_safety.py:165-274 | No needless refusal: in every reachable state a fresh request of a known run is granted exactly when the run is open, the approval active and every limit would still hold, unless the clock is behind a recorded permit |
| `Reasons.DecisionFollowsTheRows` | src/pixiv_yuri/acquisition/persistent_safety.py:165-274 | In every reachable state the decision on a fresh request is the first of the ordered limits that the permit rows themselves have reached: approval time, concurrency, requests in the last minute, permits of the run, permits of the day, cost of the day, cost of the calendar month; with that reason, its trigger and the time recorded once, or the permit granted |
| `Reasons.EveryStopIsEarned` | src/pixiv_yuri/acquisition/persistent_safety.py:264-352 | Whenever an event stops a run, the recorded reason is the truth: a limit reached by the permit rows and first in order, a 403 or 429 that the run's previous answer was too, or the reason that the caller gave |
| `Reasons.RefusedExactly` | src/pixiv_yuri/acquisition/persistent_safety.py:85-198 | An authorization is refused without a decision exactly for a negative cost, a run that is not this approval's, or a repeated request key of the run |
| `Reasons.AcceptedExactly` | src/pixiv_yuri/acquisition/persistent_safety.py:276-376 | A response or a transport failure is accepted exactly for a permit that is out to this run of this approval, a response only with a status from 100 to 599 |
| `Reasons.MonthIsItsPermits` | src/pixiv_yuri/acquisition/persistent_safety.py:433-448 | The monthly query over daily budgets is the cost of the permits authorized in that calendar month |
| `Limits.GrantExactly` | src/pixiv_yuri/acquisition/persistent_safety.py:199-257 | The ordered checks grant exactly when the tables after the grant would be within every limit |
| `KernelTheorems.RunKeepsLimits` | src/pixiv_yuri/acquisition/persistent_safety.py:199-257 | All limits are inductive over events for an approval that its fingerprint identifies |
| `KernelTheorems.Conservation` | src/pixiv_yuri/acquisition/persistent_safety.py:240-324 | In-flight, request, day and cost counters equal the counts and sums of the permit rows they stand for, and a run's sequences are exactly 1 to its request count |
| `KernelTheorems.BreakersFollowTheLog` | src/pixiv_yuri/acquisition/persistent_safety.py:276-312 | The 403 and 429 counters are the lengths of the denials at the end of the run's response log; a repeated denial has stopped the run; a run is stopped exactly when it has its one stop event |
| `KernelTheorems.StoppedForGood` | src/pixiv_yuri/acquisition/persistent_safety.py:450-469 | Once stopped, the reason and the event never change and no permit is granted to the run again |
| `Limits.GrantKeepsMinute` | src/pixiv_yuri/acquisition/persistent_safety.py:210-230 | A grant admitted by the look-back check keeps every sixty-second window within the limit, whatever the order of the clock readings |
| `Limits.GrantKeepsMonth` | src/pixiv_yuri/acquisition/persistent_safety.py:433-448 | A grant admitted by the monthly check keeps every month within its cap |
| `Budget.GrantKeepsBudget` | src/pixiv_yuri/acquisition/persistent_safety.py:240-274 | A grant keeps every counter equal to what it counts |
| `Budget.SpendKeepsBudget` | src/pixiv_yuri/acquisition/persistent_safety.py:276-324 | Consuming a permit releases exactly one request in flight and refunds neither count nor cost |
| `Budget.SequencesAreExact` | src/pixiv_yuri/acquisition/persistent_safety.py:240-257 | A sequence number belongs to a permit of the run exactly when it lies between one and the request count, and to one permit only |
| `Budget.InFlightAtLeastOne` | src/pixiv_yuri/acquisition/persistent_safety.py:354-376 | A run with an authorized permit has a request in flight |
| `Breakers.RecordResponseKeepsBreakers` | src/pixiv_yuri/acquisition/persistent_safety.py:276-312 | A response moves the breaker counters exactly as it extends the log, and the second equal denial in a row stops the run |
| `Services.PersistentAcquisitionSafety.ReserveInSession` | src/pixiv_yuri/acquisition/persistent_safety.py:165-274 | The step-by-step reservation computes exactly the reservation transaction: grant, stop, deferral or refusal |
| `Coordinator.LiveAttemptCoordinator.Execute` | src/pixiv_yuri/acquisition/live_attempt_coordinator.py:97-225 | The coordinator as a program, with everyone else running between its transactions: when it returns a result, the journal it names is terminal, the durable row is the one it reports, and attempted, response status and permit are what the log of effects and the row say |
| `Coordinator.LiveAttemptCoordinator.GiveUpUnsent` | src/pixiv_yuri/acquisition/live_attempt_coordinator.py:250-266 | The program ends where the state machine reports a result or raises, having walked its points from the release of the permit |
| `Coordinator.LiveAttemptCoordinator.Send` | src/pixiv_yuri/acquisition/live_attempt_coordinator.py:157-170 | The program ends at the recording of the status it returns, or at the release of the permit |
| `Coordinator.LiveAttemptCoordinator.VerifyDurableMarker` | src/pixiv_yuri/acquisition/durable_external_sender.py:161-204 | Verified means that the marker stood in the tables of that one transaction; the program then stands before the fetch, or at the release of the permit |
| `Coordinator.LiveAttemptCoordinator.Settle` | src/pixiv_yuri/acquisition/live_attempt_coordinator.py:172-196 | The program ends where the state machine reports a result or raises, having walked its points from the recording of the response |
| `Coordinator.LiveAttemptCoordinator.Finish` | src/pixiv_yuri/acquisition/live_attempt_coordinator.py:198-225 | The program ends where the state machine reports a result or raises, having walked its points from the processing of the response |
| `Coordinator.LiveAttemptCoordinator.MarkIndeterminate` | src/pixiv_yuri/acquisition/live_attempt_coordinator.py:268-278 | The program ends where the state machine reports a result or raises, having walked its points from the marking, and reports the permit, the response and the attempt that it was given |
| `Coordinator.Cluster.Advance` | src/pixiv_yuri/acquisition/live_attempt_coordinator.py:97-225 | One program step is one step of the state machine, followed by any turn of the others |
| `Recovery.ReconcileConverges` | src/pixiv_yuri/acquisition/live_slot_reconciler.py:49-89 | From every reachable state one uninterrupted reconcile ends with the journal terminal and its permit not authorized; it returns exactly when the slot was not resolved against the journal, and then the slot is completed iff the journal is |
| `Recovery.ReconcileIsIdempotent` | src/pixiv_yuri/acquisition/live_slot_reconciler.py:49-89 | A second reconcile at any later time changes nothing and returns the same |
| `Recovery.InterruptionIsHarmless` | src/pixiv_yuri/acquisition/live_slot_reconciler.py:49-89 | Dying after any prefix of the transactions and reconciling again gives the state of one uninterrupted reconcile up to time stamps |
| `Recovery.ReconcileReachesTarget` | src/pixiv_yuri/acquisition/live_slot_reconciler.py:49-136 | All of reconcile in one expression: recovered row, released permit, resolved slot |
| `Reconciler.UndisturbedReconciler` | src/pixiv_yuri/acquisition/live_slot_reconciler.py:49-89 | An undisturbed reconciler process of the state machine ends in the state and result of the reconcile function |
| `Disagreement.AgreementExactly` | src/pixiv_yuri/governance/live_one_request_composition.py:399-433 | After any run, every resolved slot with a journal is completed exactly when its journal is, if and only if no event of the run was a root failing its open slot while the journal was completed, or a coordinator completing a journal whose slot had failed |
| `Disagreement.StepDisagrees` | src/pixiv_yuri/governance/live_one_request_composition.py:399-433 | One step brings a slot and its journal to disagree exactly when it is one of those two |
| `Agreement.TameRunsAgree` | src/pixiv_yuri/governance/live_one_request_composition.py:255-447 | The same agreement from three causes a caller can rule out: a resolved slot is completed exactly when its journal is, in every run without an ambiguous completion commit, a response rejected after completion, or a coordinator outside a root |
| `Agreement.NextKeepsTame` | src/pixiv_yuri/governance/live_one_request_composition.py:255-447 | The agreement invariant is kept by every event that is none of the three causes |
| `Counterexample.AmbiguousCompletionDisagrees` | src/pixiv_yuri/acquisition/live_attempt_coordinator.py:198-225 | A completion whose commit is ambiguous makes execute raise although the journal is completed, so the root fails the slot |
| `Counterexample.AttemptReachesCompleting` | src/pixiv_yuri/acquisition/live_attempt_coordinator.py:97-225 | The protocol is not blocked: a concrete run claims, authorizes, sends, settles and stands before completion |
| `Counterexample.DisagreementReachable` | src/pixiv_yuri/governance/live_one_request_composition.py:255-447 | A concrete run reaches a failed slot with a completed journal |
| `Counterexample.DisagreementIsPermanent` | src/pixiv_yuri/acquisition/live_slot_reconciler.py:49-102 | From there no continuation repairs it: every reconcile raises |
| `Simulation.AuthorizeSimulates` | src/pixiv_yuri/acquisition/safety.py:87-125 | Persistent kernel and in-memory controller, once related, take the same decision on a fresh key and stay related, unless the per-minute check defers |
| `Simulation.ResponseSimulates` | src/pixiv_yuri/acquisition/safety.py:127-144 | Both accept a response alike and stay related, breakers included |
| `Simulation.FailureSimulates` | src/pixiv_yuri/acquisition/safety.py:146-149 | Both accept a transport failure alike and stay related |
| `Simulation.JudgeIsTheController` | src/pixiv_yuri/acquisition/persistent_safety.py:199-257 | The checks of the kernel, the monthly cap included, decide as the controller does, on an open run with the same stop reason; the monthly cap never binds on a single day |
| `Simulation.SameDecisions` | src/pixiv_yuri/acquisition/safety.py:70-159 | Two related controllers produce the same sequence of decisions over a day of requests with fresh keys, answers, losses and stops, as long as the per-minute check does not defer |
| `Simulation.SameDecisionsFromTheStart` | src/pixiv_yuri/acquisition/persistent_safety.py:65-83 | The same from an initialized run and a new controller, which start related |
| `Simulation.FirstStopAgrees` | src/pixiv_yuri/acquisition/safety.py:87-149 | Over such a day the kernel's run is stopped for the reason for which the controller first stopped; the controller may later replace its reason, the kernel never does |
| `Simulation.LaterReasonsPart` | src/pixiv_yuri/acquisition/safety.py:87-104 | On a stopped run with an inactive approval the two answer with different reasons: the kernel with the recorded one, the controller with the approval |
| `TagGraphBuilder.BuildTagAssociationGraph` | src/pixiv_yuri/analytics/tag_associations.py:58-149 | The counting loops return a graph exactly when arguments and sample are valid, otherwise the first bad argument or the first defect of the sample in reading order; the graph ranks exactly the eligible pairs with their set cardinalities, cut at the limit, best first by the four keys |
| `TagGraphBuilder.CountTags` | src/pixiv_yuri/analytics/tag_associations.py:75-100 | The two counters hold, per tag and per ordered pair, the number of works that carry them |
| `TagGraphBuilder.CollectEdges` | src/pixiv_yuri/analytics/tag_associations.py:102-129 | The edges are exactly the eligible ones, each pair once |
| `TagGraphBuilder.ReadTags` | src/pixiv_yuri/analytics/tag_associations.py:87-95 | The failure is the first defect of the work's tags in order: an empty name, or a name that a tag seen before translates otherwise |
| `TagGraphBuilder.SortedEdges` | src/pixiv_yuri/analytics/tag_associations.py:131-139 | The sort is a strictly ranked listing of the same edges, more co-occurrences first, then higher Jaccard, then higher PMI, then names |
| `TagGraphBuilder.TallyCounts` | src/pixiv_yuri/analytics/tag_associations.py:97-99 | Counter.update adds one to every listed key and nothing else |
| `TagGraphBuilder.CombinationsMembers` | src/pixiv_yuri/analytics/tag_associations.py:97-99 | The combinations of sorted names are exactly the ordered pairs |
| `TagGraphBuilder.GraphIgnoresOrder` | src/pixiv_yuri/analytics/tag_associations.py:58-149 | The graph does not depend on the order of the sampled works |
| `TagAssociations.EdgeBounds` | src/pixiv_yuri/analytics/tag_associations.py:102-129 | Co-occurrence is at most each count, each count at most the sample, support at most Jaccard, both within 0 to 10000, and the PMI inputs are positive |
| `TagAssociations.OneEdgePerPair` | src/pixiv_yuri/analytics/tag_associations.py:102-129 | An unordered pair of tags has at most one edge |
| `TagAssociations.Overlap` | src/pixiv_yuri/analytics/tag_associations.py:108-110 | Inclusion and exclusion of the counters is the cardinality of the union |
| `TagAssociations.RatioBasisPoints` | src/pixiv_yuri/analytics/tag_associations.py:152-155 | The share is within half a basis point of the exact ratio |
| `TagAssociations.RatioShrinks` | src/pixiv_yuri/analytics/tag_associations.py:152-155 | Rounding is monotone in the whole |
| `TagOrder.ListingIsUnique` | src/pixiv_yuri/analytics/tag_associations.py:131-139 | A set of edges has one ranked listing, so the sort is deterministic |
| `TagRanking.GraphIsBestFirst` | src/pixiv_yuri/analytics/tag_associations.py:131-149 | In a graph no edge has fewer co-occurrences than a later one, among equals no lower Jaccard, among those no lower PMI, and among those the pair of names ascends; no eligible edge that was cut off beats a listed one on these keys, and the graph says exactly when some were cut off |
| `TagRanking.NamesAreLexicographic` | src/pixiv_yuri/analytics/tag_associations.py:131-139 | Names are compared by code point at their first difference, a prefix first |
| `TagSensitivity.BuildReport` | src/pixiv_yuri/analytics/tag_sensitivity.py:60-121 | A report exists exactly for valid thresholds, limit, anchor and sample, and is computed from one graph per threshold; a bad sample is reported by its first defect |
| `TagSensitivity.ThresholdPrefix` | src/pixiv_yuri/analytics/tag_sensitivity.py:72-86 | Even truncated, the edges at a higher threshold are a prefix of the edges at a lower one and hold exactly those that reach it |
| `TagSensitivity.SurvivalIsExact` | src/pixiv_yuri/analytics/tag_sensitivity.py:135-156 | The thresholds a candidate survives are exactly those its co-occurrence reaches, whatever the lists cut off |
| `TagSensitivity.RetentionFalls` | src/pixiv_yuri/analytics/tag_sensitivity.py:163-169 | Retention is the share of baseline edges still listed, starts at 10000 and never rises with the threshold |
| `TagSensitivity.PointsTell` | src/pixiv_yuri/analytics/tag_sensitivity.py:72-121 | A point counts the eligible edges at its threshold, returns at most the edge limit of them, and is comparable exactly if neither it nor the baseline was cut |
| `TagSensitivity.CandidatesAreCanonical` | src/pixiv_yuri/analytics/tag_review.py:25-64 | Every produced candidate is canonical evidence, string lengths and the PMI range aside |
| `SlidingLimiter.DecidesByTheLog` | src/pixiv_yuri/api/operations.py:147-165 | After calls with clock readings in order, the next is admitted exactly when fewer than the limit of the consumer's admissions lie in the window behind it; the delay is the least whole number of seconds after which a slot is free, at most the window; capacity refuses exactly the untracked consumers among enough live ones |
| `SlidingLimiter.PrunedIsFaithful` | src/pixiv_yuri/api/operations.py:167-174 | Pruning loses nothing: buckets answer as the full log does, and the keys left are the live consumers |
| `SlidingLimiter.NeverABurst` | src/pixiv_yuri/api/operations.py:147-165 | With clock readings in order no window, wherever it is laid, holds more than the limit of one consumer's admissions |
| `AlignedLimiter.AdmittedByBlocks` | src/pixiv_yuri/api/postgres_operations.py:90-134 | For any clocks: a window admits, of each maximal block of a consumer's consecutive calls that read that window, the length of the block cut at the limit, and nothing else |
| `AlignedLimiter.LimitHoldsExactly` | src/pixiv_yuri/api/postgres_operations.py:122-134 | For any clocks, unless capacity can refuse somebody: a window holds at most the limit if and only if its blocks of readings, each cut at the limit, add up to at most the limit |
| `AlignedLimiter.BlocksAreMaximal` | src/pixiv_yuri/api/postgres_operations.py:122-127 | The blocks are the readings, cut exactly where the window changes |
| `AlignedLimiter.LimitHolds` | src/pixiv_yuri/api/postgres_operations.py:122-134 | A consumer whose own windows are read in order never exceeds the limit in any window |
| `AlignedLimiter.OrderedClocksOrderWindows` | src/pixiv_yuri/api/postgres_operations.py:228-230 | Clock readings in commit order put every consumer's windows in order |
| `AlignedLimiter.AdmittedIffRoom` | src/pixiv_yuri/api/postgres_operations.py:90-134 | With the consumer's windows in order its next call is admitted exactly when its aligned window has room |
| `AlignedLimiter.AtMostTwice` | src/pixiv_yuri/api/postgres_operations.py:228-230 | Any interval as long as the window holds at most twice the limit of the admissions of a consumer whose windows are read in order |
| `AlignedLimiter.RetryIsLeast` | src/pixiv_yuri/api/postgres_operations.py:128-131 | The delay is the least whole number of seconds after which the consumer is admitted, at most the window |
| `AlignedLimiter.RefusalsAreExact` | src/pixiv_yuri/api/postgres_operations.py:106-121 | Capacity refuses exactly a consumer never admitted before who finds the full number of others admitted |
| `AlignedLimiter.UnorderedClocksBreakTheLimit` | src/pixiv_yuri/api/postgres_operations.py:122-127 | An instance of the law: readings alternating between two windows make blocks of one and are all admitted, any number of them in one window |
| `RequestPath.NormalizeAsciiPath` | src/pixiv_yuri/acquisition/live_request_binding.py:148-169 | The index loop computes the normal form or the first error |
| `RequestPath.NormalizedIsStable` | src/pixiv_yuri/acquisition/live_request_binding.py:148-169 | Normalizing twice is normalizing once |
| `RequestPath.NormalizedIsShort` | src/pixiv_yuri/acquisition/live_request_binding.py:148-169 | The normal form is never longer |
| `RequestPath.NormalizedKeepsOctets` | src/pixiv_yuri/acquisition/live_request_binding.py:148-169 | The normal form decodes to the same octets |
| `RequestPath.SameNormalForm` | src/pixiv_yuri/acquisition/live_request_binding.py:148-169 | Two valid paths have one normal form exactly when they differ only in the case of hex digits and in the encoding of unreserved characters |
| `RequestPath.TokenizeWritten` | src/pixiv_yuri/acquisition/live_request_binding.py:161-169 | Written tokens read back as themselves |
| `Spelling.NormalizedIsSpelled` | src/pixiv_yuri/acquisition/live_request_binding.py:148-169 | In a normal form every percent sign begins two upper-case hex digits of an octet that is not unreserved |
| `RequestBinding.CanonicalJsonRoundTrip` | src/pixiv_yuri/acquisition/live_request_binding.py:91-107 | The canonical JSON of a binding reads back as that binding, with every string escape |
| `RequestBinding.CanonicalJsonIsInjective` | src/pixiv_yuri/acquisition/live_request_binding.py:91-119 | Two bindings with one request key are one binding |
| `Spelling.CanonicalJsonIsSerialized` | src/pixiv_yuri/acquisition/live_request_binding.py:91-107 | The canonical JSON of a binding is exactly what the general serializer writes for its six members, sorted and compact |
| `Spelling.EscapeIsShortest` | src/pixiv_yuri/governance/g0.py:172-176 | A character is written in the shortest way that reads back as it, within printable ASCII where that is asked for |
| `JsonText.ReadQuoted` | src/pixiv_yuri/governance/g0.py:172-185 | A string written by the serializer, in ASCII or not, reads back as itself, surrogate pairs included |
| `Json.RoundTrip` | src/pixiv_yuri/governance/g0.py:172-185 | A document written with sorted keys reads back as itself, whatever follows it |
| `Json.DumpIsInjective` | src/pixiv_yuri/governance/g0.py:172-185 | One text, one document: the sort key and the preimage determine what they serialize |
| `CanonicalForm.CanonicalDecidesSame` | src/pixiv_yuri/governance/g0.py:179-185 | Equal canonical forms exactly when one document is the other with lists and members reordered at any depth |
| `CanonicalForm.PreimageDecidesSame` | src/pixiv_yuri/governance/g0.py:172-176 | Two approvals have one fingerprint preimage exactly when one is a reordering of the other |
| `CanonicalForm.CanonicalIsStable` | src/pixiv_yuri/governance/g0.py:179-185 | The canonical form is its own canonical form |
| `Pipeline.BoundedAcquisitionPipeline.Run` | src/pixiv_yuri/acquisition/pipeline.py:59-96 | For every completion schedule: a run finishes exactly when keys are unique and nothing fails, with the processed responses in request order, each request fetched once, pending tasks within the limit and their reported peak exactly the schedule's; a raised run has a failure among what it fetched, and nothing is fetched after a failure known by then |
| `Pipeline.BoundedAcquisitionPipeline.HarvestCompleted` | src/pixiv_yuri/acquisition/pipeline.py:98-105 | Exactly what has finished is collected, or a failure is surfaced |
| `Pipeline.BoundedAcquisitionPipeline.ResolveOldest` | src/pixiv_yuri/acquisition/pipeline.py:107-115 | Exactly the oldest pending task is collected |
| `Pipeline.PeakWithin` | src/pixiv_yuri/acquisition/pipeline.py:85-90 | The peak lies between one and the limit as soon as there is a request |
| `Pipeline.PeakWhenPrompt` | src/pixiv_yuri/acquisition/pipeline.py:85-90 | If every task has finished by the next fetch the peak is one |
| `Pipeline.PeakWhenStuck` | src/pixiv_yuri/acquisition/pipeline.py:85-90 | If no task finishes by itself the peak is the number of requests or the limit, whichever is less |
| `Cursor.RankCursorRoundTrip` | src/pixiv_yuri/api/cursor.py:56-96 | A cursor decodes to a key exactly when it is the text encoded for that key and namespace, up to the letters + and / accepted for - and _ and to trailing padding within the length bound |
| `Cursor.OpenSealed` | src/pixiv_yuri/api/cursor.py:75-91 | A text opens to a payload exactly when it is that payload with its checksum, encoded, up to aliased letters and trailing padding |
| `Cursor.DecodeEncoded` | src/pixiv_yuri/api/cursor.py:67-68 | base64url decodes what it encoded |
| `Cursor.EncodeDecoded` | src/pixiv_yuri/api/cursor.py:77-80 | Decoding loses nothing but the choice between aliased letters |
| `Cursor.EncodedGroup` | src/pixiv_yuri/api/cursor.py:67-68 | Each three bytes are encoded on their own and in order, by four letters |
| `Cursor.QuadIsItsNumber` | src/pixiv_yuri/api/cursor.py:67-68 | The four letters are the base-64 digits of the twenty-four bits, highest first |
| `Cursor.LettersAreInOrder` | src/pixiv_yuri/api/cursor.py:67-68 | The letters are the URL-safe alphabet of section 5 of RFC 4648 in its order |
| `RankPaging.SelectedAt` | src/pixiv_yuri/api/detail_api.py:225-232 | The keyset condition leaves exactly the rows behind the cursor's row |
| `RankPaging.PageAt` | src/pixiv_yuri/api/detail_api.py:219-258 | A page holds the next rows, and its cursor is the position behind them or absent at the end |
| `RankPaging.CrawlReadsEachRowOnce` | src/pixiv_yuri/api/detail_api.py:206-258 | Following the encoded cursors over a fixed table reads every row once, in rank order, in full pages except the last, and stops |

## Left out

- Agreement.TameRunsAgree: a sufficient condition in terms of causes; the exact condition is Disagreement.AgreementExactly.
- KernelTheorems.AllLimitsHold: like KernelTheorems.GrantsExactly, supposes that the fingerprint identifies the approval (no two approvals in play share one), which is what collision freedom of SHA-256 gives.
- Fetches.FetchFollowsVerification: other users of the kernel may answer for any permit, even one they were not granted; that is the only way a permit can be consumed before its own fetch, and it is stated as such.
- Reconciler: its program runs alone and loses no session; the state machine, where its four transactions are separate steps with every fault, covers both.
- Simulation.SameDecisions: one run, one day, fresh request keys and no per-minute deferral; the in-memory controller has no per-minute check and forgets keys.
- Simulation.FirstStopAgrees: the first reason only, because later ones part: a stopped run answers with its recorded reason in the kernel, while the controller puts an expired approval or a further denial in its place.
- Attempt.UndisturbedAttempt: for a root whose kernel is configured with the approval, run and request of its claim, as the composition configures it.
- SlidingLimiter.DecidesByTheLog: for clock readings in order. The caller reads the monotonic clock before it takes the lock, so threads can arrive out of order by the time between; for such calls only the bucket function is stated. Times are real numbers, not floating point.
- Cursor.RankCursorRoundTrip: the decoder overlooks any padding after complete groups of four, as that of Python 3.12 does.
- Json.DumpIsInjective: strings of Unicode scalar values, without lone surrogates; numbers are kept as they are written, so 1 and 1.0 differ, and infinities are absent.
- RankPaging.CrawlReadsEachRowOnce: a table that does not change while it is paged, with scores and keys below 2^64, and the rows already in ranking order.
- TagSensitivity.CandidatesAreCanonical: string lengths and the PMI range are not part of the model; PMI is any integer function of the four counts.
- Pipeline.BoundedAcquisitionPipeline.Run: threads are a schedule that says what has finished before each fetch; cancellation of queued tasks after a failure has no effect that the model could observe.
- Row identifiers and budget identifiers are one number, so the join from a permit to its run is by position; permit identifiers are fresh because they are positions.
- SQL, advisory locks and isolation levels: each session block is one atomic step. `Numeric(14,6)` rounding is absent because costs are micro-units already.
- Validation of the shape of strings, identifiers and time zones in the services.
- `PinnedMetadataProvider` and its parser are not part of this model: accepting a response is a yes or no from outside. Identity checks, leases and one-use confirmations of the composition root are folded into its readiness step and the sender's verification.
- `start_send`: not on the coordinator's path. `first_sample_dry_run`, which completes slots without a journal, and `live_attempt_report`.
- In `normalize_exact_https_url`, splitting the URL, host rules and the rejection of dot segments; in the binding, Unicode normalization and UTF-8.
- `encode_cursor` and `decode_cursor` for plain keys: the rank cursor with one field less.
- The other endpoints, browser exports, review and readiness reports, network brokers, sessions and TLS.
