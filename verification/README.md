# Verified model of the recovery-conversation workers

A Dafny model of the parts of the background service whose correctness is about whole runs. Every
SQL statement, transaction and Redis script is one atomic step on explicit state, time is a number
supplied from outside, and any number of workers interleave their steps. Where a component waits for
something outside (the database, a model, a tool, a clock), the answer comes from an arbitrary
function, so a contract holds for every behaviour of the outside.

| module | what it models |
|---|---|
| Conversation | the conversation row: message intake and the claim, completion, suppression and release of a turn |
| TurnProcessor | one worker processing one turn job, with every exit and every exception |
| AbuseLimiter | the multi-scope sliding-window script and the two callers that choose its scopes |
| RecoveryLedger | the ledger of free recovery credits under optimistic versioning |
| PeriodProjection | projection and repair of the current billing period |
| RuntimeLease | the generation-fenced lease with cadence, and the runner that keeps it alive |
| LeasedScheduler, ConcurrencyController | the two event-loop state machines built on the lease |
| OutreachGraph, ProductTarget | the initial-outreach agent: budgets, provenance and the final decision |
| Evidence, Money | the registry of commerce evidence, its refresh by replay, and canonical amounts |
| KnowledgeRevisions, KnowledgeWorker | the revision state machine and the job that drives it |
| TextNormalization, Chunking | the text algorithms of the knowledge pipeline |
| CouponScan | the all-or-nothing scan of a paginated coupon catalogue |

Code that updates state in place is a class whose methods are proved against a step function; the run
theorems are about sequences of those steps. `dafny verify dfyconfig.toml` checks everything.

## Where the code says something else than one might expect

- A claim has no owner token. Mutual exclusion of workers is false after a lease expires
  (`Conversation.StaleReleaseLetsTwoIn`); what holds instead is `FinishedAtMostOnce`, `SecondClaimIff`
  and `ClaimsAreSpaced`.
- `recordProcessableInbound` under human control marks the new version as already processed and
  clears the turn; only under AI control does it open one. The model follows
  `src/services/conversation-ai-delay/pending-turn-repository.ts:26-108`.
- The reservation transition table at `src/services/recovery-reservation/reservation-lifecycle.ts:71-93`
  lets commit, release and the ambiguity mark apply to RESERVED rows only, so AMBIGUOUS is final.
- `runWithLease` does not release when the heartbeat in flight rejects while the run closes
  (`RuntimeLease.RejectedHeartbeatSkipsRelease`); `RunnerLaws` gives the exact condition.
- A promotion whose source row was written between its read and its compare-and-set silently does
  nothing and leaves the revision processing (`KnowledgeRevisions.PromotionMissesIff`;
  `KnowledgeWorker.StrandARevision` is such a run).
- After the newest generation of a source failed, the entitlement reconciliation never replaces the
  active revision again (`KnowledgeRevisions.FailureBlocksReplacement`).
- Product identities are keyed by a text that is not injective for all identifiers
  (`OutreachGraph.KeyIsUniqueIff`).
- A search that returns a product again takes its exact read back (`OutreachGraph.RunTracksReads`). If the
  model then chooses it, the host reads it once more, and that is refused exactly when a call with the same
  signature was sent before: the model's own read, if its argument text was the host's
  (`OutreachGraph.ForgottenIsRefusedIff`; `OutreachGraph.ForgetfulRun` shows a promotion lost so). A read with its
  arguments in another order does not stand in the way.
- When the result schema refuses the derived result the run rejects without a decision.
- A message is lost, neither handed over nor failed, exactly when the one call that should do it throws:
  the flag that prevents a second attempt is set before the call
  (`TurnProcessor.Worker.Process`, `TurnProcessor.LoseAMessage`).
- A second call of the controller's stop returns at once while a run may still be in progress, and the
  first one rejects when that run fails (`ConcurrencyController.LaterStopReturnsEarly`).
- In `process` a delay signal of the queue raised by anything other than its own scheduling would be
  passed on without clean-up; `TurnProcessor.Worker.Process` says for which of them the claim stays taken.

## Model

| member | source | states |
|---|---|---|
| Conversation.RunKeepsInv | src/services/conversation.service.ts:278-382 | Over every interleaving of messages, claims, completions, suppressions, releases and control changes by any workers: `lastProcessed <= inbound`, a processing marker `v` satisfies `lastProcessed < v <= inbound`, a turn is pending exactly while `lastProcessed < inbound`, and neither version ever goes back |
| Conversation.FinishedAtMostOnce | src/services/conversation.service.ts:309-366 | Versions completed or suppressed in a run are strictly increasing, so each is finished at most once |
| Conversation.VersionCountsMessages | src/services/conversation.service.ts:134-257 | The inbound version moves by exactly one per stored message and by nothing else; a redelivered message never moves it |
| Conversation.CompletionIsFenced | src/services/conversation.service.ts:309-336 | A completion needs the version to be the newest, unprocessed and claimed, and the captured AI control revision to hold; it cannot be repeated |
| Conversation.ClaimEndsIff | src/services/conversation.service.ts:278-382 | Exactly which steps end a claim: finishing or releasing that version, a message under human control, or another claim once the lease is older than 120 s |
| Conversation.ClaimsAreSpaced | src/services/conversation.service.ts:278-307 | Two claims with nothing between them that ends the first are more than 120 s apart |
| Conversation.StaleReleaseLetsTwoIn | src/services/conversation.service.ts:368-382 | The claim carries no owner: a stale worker releases its successor's claim and a third claims the same version while that lease still runs, so the lease is not mutual exclusion |
| Conversation.SecondClaimIff | src/services/conversation.service.ts:278-382 | Within 120 s of a claim, while its version is the newest and unprocessed and nobody else claimed, it can be claimed again exactly when it was released in between, by whomever |
| Conversation.CapturedRevisionIsFrozen | src/services/conversation-ai-delay/pending-turn-repository.ts:26-108 | While a version stays pending, the control revision and start captured when the turn opened do not change |
| Conversation.FencedOrSuppressible | src/services/conversation.service.ts:309-366 | For a still-pending newest version the suppression guard holds exactly when the control fence does not, so a worker can always bring the turn to an end |
| Conversation.SettlingIsBounded | src/services/conversation-turn-processor.service.ts:803-822 | However many messages arrive, a pending turn settles no later than its opening plus the maximum window |
| Conversation.NotStaleIff | src/services/conversation-turn-processor.service.ts:779-787 | A job is not stale exactly when it names the newest version and that is unprocessed; the third stale reason never arises for an existing version |
| Conversation.ConversationRow.ReceiveMessage | src/services/conversation.service.ts:134-257 | Storing a message is exactly the specified step of the row, redelivery included |
| Conversation.ConversationRow.ClaimTurn | src/services/conversation.service.ts:278-307 | The guarded claim is exactly the specified step, and reports whether it took |
| Conversation.ConversationRow.CompleteTurn | src/services/conversation.service.ts:309-336 | The guarded completion is exactly the specified step, and reports whether it took |
| Conversation.ConversationRow.SuppressStaleTurn | src/services/conversation.service.ts:338-366 | The guarded suppression is exactly the specified step, and reports whether it took |
| Conversation.ConversationRow.ReleaseTurn | src/services/conversation.service.ts:368-382 | The release matches the version alone and leaves no marker for it |
| TurnProcessor.Worker.Process | src/services/conversation-turn-processor.service.ts:196-671 | Told by the recorded calls of one job, of which the row is the outcome, under arbitrary interference and on every exit, exceptions included: the version is claimed exactly when the turn read is not stale, has settled and the claim is granted; nothing is reserved, sent or failed without a claim, at most one message is reserved and at most one later call hands it over or gives it up; a captured turn is answered only right after a check that control holds, and a text other than the terminal or clarifying one only while nothing newer has been seen; after a claim that is not left by a foreign delay signal the version was completed, suppressed or released by the worker itself, or its last release threw, and a reserved message had its disposal call; by a foreign delay signal the claim is settled exactly when the signal came from queueing what is newer or from the release after a suppression, or the catch had been entered |
| TurnProcessor.SettledIsGone | src/services/conversation-turn-processor.service.ts:728-776 | Whatever counts as settling the claim has removed the marker of the version from the row |
| TurnProcessor.Worker.Attempt | src/services/conversation-turn-processor.service.ts:345-642 | The guarded part ends normally, or by moving the job back, only with the claim settled, the message disposed of and, if it was sent, the completion tried; a foreign delay signal leaves the claim settled exactly when it came after settling |
| TurnProcessor.Worker.Deliver | src/services/conversation-turn-processor.service.ts:536-642 | After the agent every exit that is not an exception has settled the claim and disposed of the reserved message exactly once; a reply goes out only if no newer message had been seen |
| TurnProcessor.Worker.Reply | src/services/conversation-turn-processor.service.ts:491-642 | The agent path, from reservation to reply, keeps the same balance |
| TurnProcessor.Worker.Clarify | src/services/conversation-turn-processor.service.ts:439-474 | The clarification path keeps the same balance |
| TurnProcessor.Worker.SendPreparedText | src/services/conversation-turn-processor.service.ts:330-343 | A prepared text is handed over only if control still holds, and failed otherwise; never both, and in neither case if the call throws |
| TurnProcessor.Worker.FailPrepared | src/services/conversation-turn-processor.service.ts:326-329 | Giving a message up counts as tried even when the call throws, and then nothing is failed |
| TurnProcessor.LoseAMessage | src/services/conversation-turn-processor.service.ts:491-516 | A run that loses a message: control is lost after the reservation, the call that should fail the message throws, and it is the only call that does; the clean-up does not try again |
| TurnProcessor.Worker.Compose | src/services/conversation-turn-processor.service.ts:590-642 | Composing, one more look at control and newer messages, and sending keep the same balance |
| TurnProcessor.Worker.AttemptAdmitted | src/services/conversation-turn-processor.service.ts:414-489 | A turn that changed is released before the newer one is queued, and one answered without the agent is finished; every normal exit is well ended |
| TurnProcessor.Worker.SendAndFinish | src/services/conversation-turn-processor.service.ts:632-637 | Sending comes before completing, and both are done before a normal end |
| TurnProcessor.Worker.CleanUp | src/services/conversation-turn-processor.service.ts:643-670 | The catch settles the claim, or the release threw; a message whose disposal was not tried has it tried once, and one whose disposal was tried is left as it is |
| TurnProcessor.Worker.RunAgent | src/services/outbound-whatsapp-admission.service.ts:175-210 | A terminal admission disposes of the message instead of running the agent; an agent that throws has the message failed, once |
| TurnProcessor.Worker.FinishTurn | src/services/conversation-turn-processor.service.ts:728-760 | Finishing a turn completes, suppresses or releases it before anything newer is queued |
| TurnProcessor.Worker.FinishInactiveTurn | src/services/conversation-turn-processor.service.ts:762-776 | The same for a shop that is unavailable |
| TurnProcessor.Worker.Schedule | src/services/conversation-turn-processor.service.ts:673-726 | Moving the active job back is the only thing in scheduling that ends a job with the queue's delay signal |
| AbuseLimiter.RedisStore.Admit | src/services/inbound-whatsapp-abuse-admission.service.ts:83-124 | One run of the script: the verdict is the first full scope, a replay, or a recording; all scopes record the member or none does; a call that does not record changes nothing but what lies outside the windows |
| AbuseLimiter.RedisStore.PruneAll | src/services/inbound-whatsapp-abuse-admission.service.ts:91-100 | The first pass drops exactly what left each window, and reports whether the member is held in any scope |
| AbuseLimiter.RedisStore.FirstFull | src/services/inbound-whatsapp-abuse-admission.service.ts:106-113 | The second pass returns the first scope at its limit, and none before it is |
| AbuseLimiter.RedisStore.RecordAll | src/services/inbound-whatsapp-abuse-admission.service.ts:115-122 | The third pass adds the member at the current time to every scope and renews each expiry |
| AbuseLimiter.SlidingWindowBound | src/services/inbound-whatsapp-abuse-admission.service.ts:83-124 | For every run, key and moment `t`, the window `(t - w, t]` holds at most L recorded admissions, and recordings of one member are at least a window apart |
| AbuseLimiter.TraceInv | src/services/inbound-whatsapp-abuse-admission.service.ts:83-124 | In every run what was recorded inside its window is still held: neither pruning nor the key expiry drops it |
| AbuseLimiter.ReplayIsNotCounted | src/services/inbound-whatsapp-abuse-admission.service.ts:91-104 | A member still held in any scope is admitted without being recorded again in any of them |
| AbuseLimiter.RawScopesAreSound | src/services/inbound-whatsapp-abuse-admission.service.ts:136-155 | The raw scopes have distinct keys, each always with the same window |
| AbuseLimiter.TurnScopesAreSound | src/services/inbound-whatsapp-abuse-admission.service.ts:157-225 | So do the six settled-turn scopes, whatever the identifiers |
| AbuseLimiter.AdmitWith | src/services/inbound-whatsapp-abuse-admission.service.ts:227-263 | A full scope is refused with its own reason; a limiter that does not answer refuses everything, having written nothing, or having run when only its answer was lost |
| AbuseLimiter.AdmitRaw | src/services/inbound-whatsapp-abuse-admission.service.ts:136-155 | Raw admission is that over the raw scopes and reasons, answer or none |
| AbuseLimiter.AdmitSettledTurn | src/services/inbound-whatsapp-abuse-admission.service.ts:157-225 | Turn admission is that over the turn scopes, with the discovery limits for discovery-only turns, answer or none |
| AbuseLimiter.CallersAreBounded | src/services/inbound-whatsapp-abuse-admission.service.ts:136-263 | In every run of the two callers, under any configuration, every window a key stands for holds at most the largest limit that was in force for it, lost answers included |
| RecoveryLedger.RunKeepsInv | src/services/free-recovery-reservation.service.ts:147-345 | In every reachable state each counter's reserved and committed quantities are the sums of its outstanding and committed reservations, `committed + reserved <= granted`, and a reservation points to exactly one usage event, which points back, iff it is committed |
| RecoveryLedger.OnlyAppliedStepsWrite | src/services/free-recovery-reservation.service.ts:147-345 | A transaction writes exactly when it was applied: replays, refusals and version conflicts change nothing |
| RecoveryLedger.MoveSucceedsIff | src/services/free-recovery-reservation.service.ts:234-325 | In reachable states commit and release succeed exactly on a reserved row of this shop and quantity, without interference, a commit only with a provider; they conflict exactly on such a row with interference, so the quantity guard and the unique event key never decide |
| RecoveryLedger.ReserveSucceedsIff | src/services/free-recovery-reservation.service.ts:147-232 | A new source gets credit exactly when the shop is not paused, has the counter, and the remaining allowance covers it |
| RecoveryLedger.ReserveIsMovable | src/services/free-recovery-reservation.service.ts:147-232 | What a reserve returns can be committed or released, reactivation included |
| RecoveryLedger.ReleaseUndoesReserve | src/services/free-recovery-reservation.service.ts:289-325 | A release gives back exactly what the reserve took |
| RecoveryLedger.FinalStates | src/services/recovery-reservation/reservation-lifecycle.ts:71-93 | Committed and ambiguous reservations are never changed again by any run |
| RecoveryLedger.CommitAttempt | src/services/free-recovery-reservation.service.ts:234-287 | An attempt commits a source without an event once or writes nothing, and only interference makes it a conflict |
| RecoveryLedger.OneEventPerSource | src/services/free-recovery-reservation.service.ts:260-286 | A source has at most one usage event, and one exactly when it is committed |
| RecoveryLedger.LedgerStore.CommitOnce | src/services/recovery-reservation/reservation-lifecycle.ts:105-120 | One attempt, after what the others did, is one step of the run, and writes only if it commits |
| RecoveryLedger.LedgerStore.CommitWithRetry | src/services/free-recovery-reservation.service.ts:388-396 | Whatever other transactions do before each attempt, be it to this very reservation: the ledger is the run of their steps and the attempts, every attempt but the last conflicted and wrote nothing, at most one commits; the source has at most one usage event on every exit, and has one if the answer is a commit or the replay of one |
| RecoveryLedger.LedgerStore.ReserveInTransaction | src/services/free-recovery-reservation.service.ts:147-232 | The reserve and reactivate transaction is exactly the specified step |
| RecoveryLedger.LedgerStore.CommitInTransaction | src/services/free-recovery-reservation.service.ts:234-287 | The commit transaction, rolled back when the shop has no usage provider, is exactly the specified step |
| RecoveryLedger.LedgerStore.ReleaseInTransaction | src/services/free-recovery-reservation.service.ts:289-325 | The release transaction is exactly the specified step |
| RecoveryLedger.LedgerStore.MarkAmbiguousInTransaction | src/services/free-recovery-reservation.service.ts:327-345 | The ambiguity transaction is exactly the specified step |
| RuntimeLease.NewHolderFencesOld | src/runtime/background-runtime-lease.ts:18-78 | When a second process acquires a name, the first handle is dead, the generations differ, and from then on no heartbeat or release of the first has any effect |
| RuntimeLease.OneLiveHandle | src/runtime/background-runtime-lease.ts:55-66 | At most one handle of a name is current and unexpired at any moment |
| RuntimeLease.StepFacts | src/runtime/background-runtime-lease.ts:18-78 | The generation grows by exactly one per acquisition and never otherwise; the recorded finish never moves back |
| RuntimeLease.LossIsPermanent | src/runtime/background-runtime-lease.ts:55-66 | A handle whose heartbeat failed never succeeds again |
| RuntimeLease.AcquisitionSupersedes | src/runtime/background-runtime-lease.ts:18-53 | An acquisition finds every earlier handle dead and ends it for good |
| RuntimeLease.CadenceIsKept | src/runtime/background-runtime-lease.ts:18-53 | No acquisition comes earlier than an effective release plus the cadence it reads |
| RuntimeLease.HeldWhileRenewed | src/runtime/background-runtime-lease.ts:55-78 | An unexpired handle stays current until its own release |
| RuntimeLease.HeldByHeartbeats | src/runtime/background-runtime-lease.ts:55-78 | A holder keeps the lease, whatever the others try, as long as it renews within 120 s of the acquisition or its last renewal |
| RuntimeLease.RunWithLease | src/runtime/background-runtime-lease.ts:80-110 | A leased run against the table, with any steps of other processes before and after each of its own: every heartbeat is answered by the table as it then is, the table is that of all the steps, and what this process did itself is one acquisition, renewals of its handle, and one release at the very end exactly if the runner comes to release |
| RuntimeLease.LivedIsItsSteps | src/runtime/background-runtime-lease.ts:80-110 | At any point of a leased run the table is that of the steps of all processes, the closure variables are those of the events seen, and the process itself made only renewals and, once the run is over and kept its lease, one last release |
| RuntimeLease.ReportedLossIsOver | src/runtime/background-runtime-lease.ts:87-107 | Once a heartbeat of the run was answered negatively the lease is over for good, whatever anyone does, and the run neither renews nor releases it again |
| RuntimeLease.ReleaseTakesEffectIff | src/runtime/background-runtime-lease.ts:68-107 | The release that ends a run ends the lease and records the finish exactly if nobody has acquired the name since, and otherwise leaves the newer holder alone |
| RuntimeLease.CurrentIff | src/runtime/background-runtime-lease.ts:18-78 | A handle stays current exactly until somebody acquires its name |
| RuntimeLease.RunnerLaws | src/runtime/background-runtime-lease.ts:80-110 | For every order of timer, heartbeat and work events: one heartbeat in flight at most, and the lease is released exactly when the run is over, no heartbeat reported a loss, and the last heartbeat did not reject |
| RuntimeLease.RejectedHeartbeatSkipsRelease | src/runtime/background-runtime-lease.ts:103-109 | "Released iff no loss was reported" fails: a heartbeat that rejects while the run closes skips the release |
| RuntimeLease.LeaseService.TryAcquire | src/runtime/background-runtime-lease.ts:18-53 | The acquiring statement is exactly the specified step and returns the issued handle |
| RuntimeLease.LeaseService.Renew | src/runtime/background-runtime-lease.ts:55-66 | The heartbeat statement extends the lease exactly when the handle is live |
| RuntimeLease.LeaseService.Finish | src/runtime/background-runtime-lease.ts:68-78 | The release statement ends the lease exactly when the handle is current |
| LeasedScheduler.AlwaysInv | src/runtime/dynamic-leased-scheduler.ts:16-58 | In every reachable state before a stop, either a cycle runs or a timer is armed with the configured delay, never both |
| LeasedScheduler.CyclesNeverOverlap | src/runtime/dynamic-leased-scheduler.ts:30-43 | Two cycles never overlap, although the cycle itself does not check |
| LeasedScheduler.StopIsFinal | src/runtime/dynamic-leased-scheduler.ts:50-57 | After a stop no cycle begins, and once the stop has resolved none is running |
| LeasedScheduler.Live | src/runtime/dynamic-leased-scheduler.ts:16-58 | The handlers, driven by any events, stay in the states these theorems are about |
| ConcurrencyController.AlwaysInv | src/runtime/queue-concurrency-controller.ts:64-124 | In every reachable state after start and before a stop a timer is armed or a run is in progress; a pending mark is held only by a run |
| ConcurrencyController.RunsNeverOverlap | src/runtime/queue-concurrency-controller.ts:73-104 | A run begins only when none is running or as the previous one settles |
| ConcurrencyController.AnnouncementIsFollowed | src/runtime/queue-concurrency-controller.ts:73-111 | A newer version announced during a run is followed, when it settles, by exactly one run that begins after the announcement |
| ConcurrencyController.PendingWaits | src/runtime/queue-concurrency-controller.ts:73-78 | Further announcements and timers during a run neither start another nor lose the mark |
| ConcurrencyController.IdleAnnouncementRuns | src/runtime/queue-concurrency-controller.ts:106-111 | A newer version announced between runs starts one at once |
| ConcurrencyController.StopIsFinal | src/runtime/queue-concurrency-controller.ts:116-123 | After a stop no run begins; once the first stop call has settled none is running, and until then one is |
| ConcurrencyController.StopWaitsForItsRun | src/runtime/queue-concurrency-controller.ts:116-121 | The first stop call waits for the run in progress, and rejects exactly when that run fails |
| ConcurrencyController.LaterStopReturnsEarly | src/runtime/queue-concurrency-controller.ts:117-117 | A later stop call has returned while the run that the first one waits for is still in progress |
| ConcurrencyController.Live | src/runtime/queue-concurrency-controller.ts:64-124 | The handlers, driven by any events, stay in the states these theorems are about |
| OutreachGraph.RunKeepsInv | src/agents/initial-outreach-offer.graph.ts:400-678 | For every sequence of model and tool answers: at most 8 model steps, 16 tool calls, 3 searches and 5 detail reads; no signature sent twice; discount pages asked for in cursor order; no search sent while a supported offer is held; observed offers are listed, read and, in FIXED mode, authorised; products were found by a search before an exact read |
| OutreachGraph.RunEnds | src/agents/initial-outreach-offer.graph.ts:663-678 | Whatever is answered, the graph is over within 19 supersteps, below its recursion limit of 48: with a decision, or rejected without one |
| OutreachGraph.RunDecides | src/agents/initial-outreach-offer.graph.ts:281-398 | A run that is over has a decision which the schema accepts and the log alone backs: each discount was listed and read under one identity, an alternative was found by a search, then read exactly, and the discount applies; or it has none, exactly because the schema refuses the one derived |
| OutreachGraph.DecisionIsSourced | src/agents/initial-outreach-offer.graph.ts:338-398 | The same for one state, and failure or no offer come only when the supported discounts yield nothing either |
| OutreachGraph.CheckoutIsSourced | src/agents/initial-outreach-offer.graph.ts:281-336 | A checkout set holds at least one offer, each with matching source identity and a provider id |
| OutreachGraph.AlternativeIsSourced | src/agents/initial-outreach-offer.graph.ts:343-381 | An alternative satisfies the target predicate at the moment of decision, on an exactly read product |
| OutreachGraph.CallKeepsInv | src/agents/initial-outreach-offer.graph.ts:505-652 | One tool call, sent or refused, keeps all of the above |
| OutreachGraph.ExecuteToolCalls | src/agents/initial-outreach-offer.graph.ts:488-659 | The loop over pending calls, with its early exits, is the specified run of single calls |
| OutreachGraph.ValidateModelStep | src/agents/initial-outreach-offer.graph.ts:173-196 | A model step is accepted exactly when the limits hold and its calls are all tool calls, returned as proposed, or one valid final call, returned as the choice |
| OutreachGraph.SourceOfferSet | src/agents/initial-outreach-offer.graph.ts:281-302 | The loop over a group succeeds exactly when every member is observed with one consistent identity |
| OutreachGraph.Decide | src/agents/initial-outreach-offer.graph.ts:338-398 | The branches of the final result, through the loop over the offers, compute it |
| OutreachGraph.Invoke | src/agents/initial-outreach-offer.graph.ts:663-678 | The loop over the nodes is that run of 19 supersteps, with every budget and order kept |
| OutreachGraph.KeyDeterminesCleanIdentity | src/agents/initial-outreach-offer.graph.ts:277-279 | Identity keys tell products and variants apart among ids without the separator and without empty variants |
| OutreachGraph.KeyIsUniqueIff | src/agents/initial-outreach-offer.graph.ts:277-279 | In general a key belongs to one identity exactly when neither part holds the separator and the variant is present and not empty |
| OutreachGraph.CleanProductWasFound | src/agents/initial-outreach-offer.graph.ts:601-622 | So an exactly read clean product was itself returned by an earlier search |
| OutreachGraph.SearchForgetsReads | src/agents/initial-outreach-offer.graph.ts:601-611 | A search puts every product it returns back to "not read exactly" |
| OutreachGraph.ForgottenProductIsNotPromoted | src/agents/initial-outreach-offer.graph.ts:525-527 | Whatever else is checked, a chosen product that is not exactly read and whose read would repeat a signature already sent is not promoted |
| OutreachGraph.RunTracksReads | src/agents/initial-outreach-offer.graph.ts:601-622 | In every run a product counts as exactly read if and only if the latest exchange about its key was an accepted read, rather than a search that returned it |
| OutreachGraph.ForgottenIsRefusedIff | src/agents/initial-outreach-offer.graph.ts:458-479 | The host's own read of a chosen product is refused as a repetition exactly when that signature was sent before; otherwise it goes out, and the product is exactly read again exactly when the tool answers with it |
| OutreachGraph.ForgetfulRun | src/agents/initial-outreach-offer.graph.ts:488-659 | Two runs that differ in one search: without it the product is found, read exactly, chosen and promoted under a listed, read and matching discount; with it, between the reading and the choice, the run ends in a failure |
| ProductTarget.MatchIff | src/agents/initial-outreach-offer-product-target.ts:6-48 | A discount matches a product exactly when both reports are one live supported offer, the moment lies in its half-open window, some rule takes hold of the product and no exclusion does, and nothing else is asked |
| ProductTarget.MeetIff | src/agents/initial-outreach-offer-product-target.ts:27-39 | The lists decide by common handles alone; the guards against empty lists never matter |
| ProductTarget.MatchIsConvexInTime | src/agents/initial-outreach-offer-product-target.ts:19-26 | A discount that matches at two moments matches at every moment between |
| Evidence.TurnEvidenceRegistry.Observe | src/commerce/evidence.ts:192-233 | After any observations an id is usable exactly when it was observed and every observation of it is valid and identical; it is poisoned otherwise |
| Evidence.TurnEvidenceRegistry.RecordResult | src/commerce/evidence.ts:182-234 | A failed result records nothing, and unparsable items are skipped |
| Evidence.ReflectsStep | src/commerce/evidence.ts:182-234 | One observation moves the tables from one such reading to the next |
| Evidence.OrderDoesNotMatter | src/commerce/evidence.ts:182-234 | The registry depends only on which observations were made, not on order or repetition |
| Evidence.PoisonIsPermanent | src/commerce/evidence.ts:182-234 | A poisoned id is never usable again |
| Evidence.TurnEvidenceRegistry.HasEligibleEvidence | src/commerce/evidence.ts:167-180 | Eligible exactly when ids are given and each is observed, unanimous, fresh and qualifying |
| Evidence.TurnEvidenceRegistry.Refresh | src/commerce/evidence.ts:236-344 | Accepted exactly when every requested record is valid and fresh at the start, the calls fit the budget, each replay is good, and each record has exactly one replayed match with equal content, both qualifying; no call is made twice and the budget is never exceeded |
| Evidence.TurnEvidenceRegistry.ReplayCall | src/commerce/evidence.ts:277-325 | One replay succeeds exactly when the turn is still current and the reply is well formed |
| Evidence.ConfirmedMeansSameOffer | src/commerce/evidence.ts:84-98 | Acceptance means the offer was seen again once, with the same terms and amounts that are the same numbers |
| Money.NormalizedIffEqual | src/commerce/evidence.ts:105-114 | Valid amounts normalise alike exactly when they denote the same number |
| Money.NormalizedIsCanonical | src/commerce/evidence.ts:105-114 | The result is again valid, denotes the same number, and is its own canonical form |
| KnowledgeRevisions.RunKeepsInv | src/services/merchant-knowledge-processing.service.ts:269-522 | Over every interleaving: generations of a source are distinct and never ahead of it, at most one revision is active, and exactly the active ones have chunk rows, which cover their whole content with usable vectors |
| KnowledgeRevisions.RunEvolves | src/services/merchant-knowledge-processing.service.ts:379-522 | Over every run a revision keeps its identity, final ones never change, an active one is untouched until a newer one replaces it, and what is searchable stays searchable |
| KnowledgeRevisions.ActiveGenerationNeverFalls | src/services/merchant-knowledge-processing.service.ts:402-522 | Whatever is active later is at least as new, and is the very same revision, rows included, when it is not newer |
| KnowledgeRevisions.ActivationIsFenced | src/services/merchant-knowledge-processing.service.ts:402-522 | A revision becomes active only by its own job's promotion while its generation is the newest; all others of the source are older, and the active one retires with its rows |
| KnowledgeRevisions.StaleJobIsInert | src/services/merchant-knowledge-processing.service.ts:143-150 | A stale job stays stale and nothing it does changes anything |
| KnowledgeRevisions.PromotionMissesIff | src/services/merchant-knowledge-processing.service.ts:415-443 | A job that owns its processing revision promotes it exactly when the source row was not written since it was read; otherwise the revision is left processing |
| KnowledgeRevisions.ReplacementIff | src/services/merchant-knowledge-entitlement-reconciliation.service.ts:197-285 | A replacement is made exactly when the newest generation is active and over the limit; the search for newer unfinished work never decides |
| KnowledgeRevisions.ReplacementIsIdempotent | src/services/merchant-knowledge-entitlement-reconciliation.service.ts:197-285 | A replacement opens one generation with the old locator and touches nothing active; asking again at once does nothing |
| KnowledgeRevisions.PromotionSettlesReplacement | src/services/merchant-knowledge-entitlement-reconciliation.service.ts:233-239 | Once a promotion within a limit went through, that limit asks for no further replacement |
| KnowledgeRevisions.FailureBlocksReplacement | src/services/merchant-knowledge-entitlement-reconciliation.service.ts:241-249 | After the newest generation failed, nothing but a new request of the merchant gets the source a newer revision |
| KnowledgeRevisions.KnowledgeStore.PromoteRevision | src/services/merchant-knowledge-processing.service.ts:402-522 | The transaction activates the candidate with its rows and retires its predecessor, or changes nothing; a bad vector rolls all back |
| KnowledgeRevisions.KnowledgeStore.InsertChunks | src/services/merchant-knowledge-processing.service.ts:480-495 | The loop stores one row per chunk and vector in order, and stops at the first bad vector |
| KnowledgeRevisions.KnowledgeStore.CreateReplacementIfRequired | src/services/merchant-knowledge-entitlement-reconciliation.service.ts:197-285 | The transaction creates the replacement exactly when one is needed, and its job owns it |
| KnowledgeRevisions.KnowledgeStore.ResetPending | src/services/merchant-knowledge-processing.service.ts:379-400 | The reset transaction is exactly the specified step |
| KnowledgeRevisions.KnowledgeStore.MarkPermanentFailure | src/services/merchant-knowledge-processing.service.ts:325-345 | The failure update reaches only an owned unfinished revision |
| KnowledgeRevisions.KnowledgeStore.MarkTerminalFailure | src/services/merchant-knowledge-processing.service.ts:269-290 | The exhausted-retries update reaches only an owned processing revision |
| KnowledgeWorker.Worker.ProcessJob | src/services/merchant-knowledge-processing.service.ts:109-267 | Under arbitrary interference the tables are what the recorded calls made of them: the steps of the others and the writes of this worker whose call returned. Its own writes all carry its job, and all but the last are claims; a thrown error is that of the last call and has left at most a claim. Every outcome means what it says: nothing was written when the revision is missing, stale or final, or when the claim was lost; a failed job has its reason in the answers; a failed or put-back job is not left processing; success has stored exactly the acquired text, normalised and cut to the limit that was offered and confirmed, rebuildable from its rows; a stale promotion was overtaken by a change of owner or status, or by a write to the source row between its reading and the compare-and-set |
| KnowledgeWorker.StrandARevision | src/services/merchant-knowledge-processing.service.ts:402-443 | A run in which every call returns and the job keeps its revision, and which still ends as stale with the revision left processing |
| KnowledgeWorker.SourceIsFixed | src/services/merchant-knowledge-processing.service.ts:109-267 | A revision that a job has read belongs to the same source at every later call |
| KnowledgeWorker.Worker.Prepare | src/services/merchant-knowledge-processing.service.ts:206-222 | What is prepared for promotion is the whole normalised, truncated text, chunked and embedded with valid vectors |
| KnowledgeWorker.PromotionStores | src/services/merchant-knowledge-processing.service.ts:402-522 | A successful promotion stores the prepared content, within its limit, so that the rows rebuild it |
| TextNormalization.NormalizationLaws | src/services/merchant-knowledge-normalization.ts:13-56 | After NFC the result is in normal form and keeps exactly the visible code points in order |
| TextNormalization.NormalizationIsIdempotent | src/services/merchant-knowledge-normalization.ts:13-56 | Normalising twice is normalising once, for every text, given that NFC is idempotent and never combines across white space |
| TextNormalization.FixedPoints | src/services/merchant-knowledge-normalization.ts:13-56 | A text is unchanged exactly when it is in normal form |
| TextNormalization.ReferenceIsNormal | src/services/merchant-knowledge-normalization.ts:13-56 | Every result has no adjacent spaces, no space next to a line feed, at most two line feeds in a row, and trimmed ends |
| TextNormalization.ReferenceKeepsVisible | src/services/merchant-knowledge-normalization.ts:13-56 | No visible code point is lost, added or moved |
| TextNormalization.UnixLinesKeepVisible | src/services/merchant-knowledge-normalization.ts:14-17 | Line endings are converted without touching anything visible |
| TextNormalization.Normalize | src/services/merchant-knowledge-normalization.ts:13-56 | The five passes of the program compute the one-pass reference |
| TextNormalization.CleanLines | src/services/merchant-knowledge-normalization.ts:28-38 | Spaces beside line feeds go, and nothing the reference sees changes |
| TextNormalization.CollapseBlankLines | src/services/merchant-knowledge-normalization.ts:39-49 | A third line feed in a row goes, and nothing the reference sees changes |
| Chunking.ChunkText | src/services/merchant-knowledge-chunking.ts:15-31 | Chunk k holds code points 1000k to 1000k+1200, with its ordinal and units, and there are ceil(n/1000) of them |
| Chunking.ChunkingIsReversible | src/services/merchant-knowledge-chunking.ts:15-31 | The first thousand code points of the chunks, joined, rebuild the content; each chunk has 1 to 1200 |
| Chunking.EveryPositionInOneOrTwoChunks | src/services/merchant-knowledge-chunking.ts:15-31 | Every position lies in its own chunk, and in the one before exactly when it is among the 200 overlapping ones |
| Chunking.ChunkingIsInjective | src/services/merchant-knowledge-chunking.ts:15-31 | Different texts have different chunks |
| Chunking.TruncationIsTight | src/services/merchant-knowledge-processing.service.ts:206-217 | A truncated text fits its entitlement and no longer prefix would |
| CouponScan.ReadAll | src/providers/woo-coupon-pages.ts:14-68 | The scan returns a catalogue exactly when the provider served that catalogue, in max(1, ceil(n/100)) reads; the throw after the loop and the last length check are unreachable |
| CouponScan.HonestProviderIsServed | src/providers/woo-coupon-pages.ts:14-68 | A provider paging a fixed sorted list is read in full exactly when the list fits the permitted pages |
| CouponScan.ServedIsUnique | src/providers/woo-coupon-pages.ts:14-68 | No two catalogues can both have been served |
| CouponScan.AppendPage | src/providers/woo-coupon-pages.ts:51-60 | A page is accepted exactly when it extends the list in strictly increasing ids |
| PeriodProjection.BillingStore.EnsureProjection | src/services/current-billing-period-projection.service.ts:40-179 | A conflict writes nothing and arises exactly when something stored contradicts the request; otherwise period and counter become the request, `repaired` iff something was written, and every existing counter keeps its quantities |
| PeriodProjection.BillingStore.RepairProjection | src/services/current-billing-period-projection.service.ts:99-179 | The repair fills exactly what was missing |
| PeriodProjection.ProjectTwice | src/services/current-billing-period-projection.service.ts:40-179 | An immediate second call is ready with the same id, repairs nothing and writes nothing |
| PeriodProjection.SecondCallIsStable | src/services/current-billing-period-projection.service.ts:99-179 | A projected request is compatible and needs no repair |
| PeriodProjection.ProjectionIsExclusive | src/services/current-billing-period-projection.service.ts:99-160 | A projected period accepts no second plan |
| PeriodProjection.SolvencyIsKept | src/services/current-billing-period-projection.service.ts:40-179 | `committed + reserved + forfeited <= granted` is kept |

## Left out

- HTTP, DNS, TLS, the MCP and model clients, object storage and the shop transports: their answers are arbitrary inputs where a modelled component consumes them.
- Database and Redis internals: a call that throws is taken to have had no effect; isolation inside one transaction is assumed, except that a promotion is split at its read.
- Logging, metrics, incident reports, diagnostics and redaction: no modelled state depends on them.
- `src/commerce/host.ts`, billing dispatch, checkout recovery, entrypoints and probes: wiring or delegation.
- Schemas of the outreach tools and results, the eligibility evaluator, the offer combiner, the locale sort and the call signature: uninterpreted functions; the candidates reach the combiner as a map, so their order is not modelled.
- SHA-256, NFC, canonical JSON, date parsing and status canonicalisation: uninterpreted, with no injectivity assumed.
- Outreach messages to the model, its instructions, the fields never read again (`phase`, `firstMcpCallSeen`, `lastModelStep`) and the description and eligibility report of a checkout member.
- Audio transcription, message content, media and language detection on the inbound path.
- Removal of empty Redis keys, which changes nothing the script can see.
- Timestamps, content types and digests of knowledge revisions other than the source's `updatedAt`, and the deletion of sources and shops.
- The page loop of the entitlement reconciliation over shops: only the transaction that changes state is modelled.
- A configuration callback that throws inside a timer of the scheduler, and unhandled rejections.
- Retries of reserve, release and the ambiguity mark: the same wrapper as for commit, which is modelled.
- The handing over of a message inside the delivery service: the model ends where the worker calls it, and a call that throws is taken not to have handed the message over.
- Closing the queues after the controller's stop.
- TurnProcessor.Worker.Process: a release that itself throws leaves the claim to its expiry, and a disposal call that throws leaves the message reserved; both are stated as exceptions of the balance.
- OutreachGraph.NeverTwice: the program remembers a signature before the cursor, authorisation and identity checks, the model when the call goes out; a refusal by those checks ends the run, so nothing tells the two apart.
- RuntimeLease.RunWithLease: a release whose statement throws; the run then ends with that error and leaves the lease to its expiry.
- KnowledgeWorker.Worker.ProcessJob: the steps of other workers are assumed to promote only prepared payloads, which is what this contract proves of each of them.
- Numbers that are not integers where the code tests for a safe integer: they are the missing value.
