# Verification of the credit platform's reliability protocol

A Dafny model of the parts of the platform that keep state under crashes, retries and clocks, and proofs of
what those parts are for. `dafny verify dfyconfig.toml` checks all of it.

- **Outbox, relay, inbox.** `Outbox` is one outbox table and its statements, as functions and as a class;
  `OutboxRelay` is `relay_once`, `run_forever` and `flush_outbox` with the measure that drains a table, and
  `RelayCycles` what any sequence of calls comes to. `LeaseProtocol` is the step system of any number of relays,
  crashes and writers on a table, `LeaseOrder` shows its first-in-first-out order, and `RelayRefinement` shows each
  call of `OutboxRelay` to be a run of it, with others at work between its statements. `Consumers` and `Audit` are
  the consuming repositories. `Pipeline` puts
  six services together with their queues, bound one by one, dead letters, redeliveries and replays;
  `PipelineProofs` keeps the invariant, `PipelineGuarantees` draws effectively-once processing, permanence,
  lineage and who gets what was published from it, and `PipelineExamples` is a run in which a consumer misses an
  event. `DeadLetters` is the dead-letter replay loop, `Tracing` the context variables, `Envelopes` the event schema
  with its encoding.
- **Breaker and bulkhead.** `Resilience` holds the classes and the retry loop, `BreakerHistory` reads the
  breaker's fields off the history of calls, `BreakerReference` describes it without them, and `IntegrationCalls`
  interleaves many calls on one breaker and one bulkhead.
- **Gateway idempotency.** `Idempotency` is the keyed row and its statements, `Evaluations` the stored answer with
  its encoding, `ErrorEnvelopes` the error bodies, stored and sent, `GatewayRuns` the step system of callers,
  takeovers and finalizations, and `GatewayFailures` which failures are stored and how their bodies differ.
- **Model registry and serving.** `Artifacts` is the write-once store, `ModelRegistry` runs, evaluations, signing,
  registration and promotion, `Registration` when a registration succeeds and can be repeated, `ModelServing` the
  checks and the cache, `ServingProofs` what every run of them keeps, and `ServingExamples` two runs that go wrong.
- **Kernels.** `Calibration` (expected calibration error), `Redaction` (masking), `CreditPolicy` (features, score,
  decision) and `CreditRounding` (the default policy in binary64 arithmetic).

The database is modelled as atomic statements under a clock that never goes back; claim tokens and new event ids
are fresh. The broker confirms a publish that returns, may have delivered one that raises, and dead-letters a
rejected message. Time is in microseconds; floating point is `real`, except in `CreditRounding`.

## What the proofs found

- An event published before a consumer has first run, when its queue is not bound yet, is confirmed and marked
  published and never reaches that consumer (`LateBindMisses`). A consumer has an event exactly when its queue was
  bound at one of the moments the event was sent (`PublishedReachesIff`).
- `run_forever` ends at the first call that raises, so one relay process never fails a row twice: retries and
  dead-lettering come from starting it again (`LoopEndsIff`). However often it is started, only as many calls claim
  anything as the table's debt allows (`CyclesBounded`).
- `flush_outbox` has no failure handling: a publish that raises leaves the row under its lease, and the table
  drains only on the condition given by `FlushDrainsIff` (`FlushAbandons`); `FlushStalls` is a table on which it
  makes no progress, with the row past its attempt limit and not dead-lettered.
- A cancelled half-open probe leaves the trial flag set and the breaker rejects every later call
  (`CancelledProbeWedges`, `WedgeIsForever`); `AbandonWedgesIff` says exactly when.
- A dead-letter replay loses a message exactly when it reaches one that does not decode or whose publish raises
  (`ReplayLosesIff`, `GarbageIsLost`).
- An event's derived envelope names its cause exactly when the source id is not blank; the envelope schema allows
  blank ids (`DerivedLineage`, `BlankIdHasNoCause`).
- The gateway builds the error body it stores and the one it first answers with at different times, so replays of a
  failed key are identical to each other but not to the first answer. First answer and replay agree but for the
  timestamp exactly when the failure was a `ServiceError`; for any other exception the operation, cause, hint and
  trace id differ too (`FirstAndReplay`, `ServiceErrorBodiesDiffer`).
- A granted request's failure is stored exactly when its envelope passes the schema (`FailureStoredIff`). Under an
  `x-trace-id` header of one to seven characters nothing is: the key stays pending and the same request is refused
  until the window is over (`UnpersistedFailureBlocks`, `ShortTraceBlocks`, `FiveCharactersBlock`).
- Registration compares neither the model name with the run's nor the signing key with the serving key; a registered
  version can be served exactly when both agree (`ServableIff`, `PromotedDoesNotLoad`).
- The model card is written before steps that can still fail and carries the time it was made, so a failed
  registration can be repeated exactly when a guard had refused it before the card was written (`RetryIff`,
  `RetryInRun`). A missing private key burns a version for good (`MissingKeyBurns`).
- Cards of different models can share a location (`CardStemsCollide`), exactly when the stem can be parted in two
  ways (`StemSharedIff`), and never when no name has two dashes in a row (`StemInjective`).
- Under the default policy a prior default as the only mark scores exactly the review threshold, but in binary64 the
  sum 0.15 + 0.30 rounds below 0.45 and the policy functions decide approve; no other combination of marks is decided
  differently by rounding (`RoundingFlipsIff`). The services call `decide_credit`, on the promoted model's score, and
  not `score_application`.
- Redaction does not look into lists that are items of lists (`MaskedIff`, `InnerListLeaks`).
- The decision history stores no source event id. The pipeline's history rows carry one for every service, so that
  the decision's effects can be counted too.

## Model

| member | source | states |
|---|---|---|
| Envelopes.DecodeDump | packages/contracts/src/contracts/events.py:11-31 | an envelope written to JSON reads back as itself, whatever the reader's clock says |
| Envelopes.DumpInjective | packages/contracts/src/contracts/events.py:11-31 | two valid envelopes with one JSON form are one |
| Envelopes.DecodeMembers | packages/contracts/src/contracts/events.py:11-31 | what is read from each member of a stored payload: a missing correlation id becomes the trace id, a blank cause none, a missing time the reader's own |
| Envelopes.DumpMembers | packages/contracts/src/contracts/events.py:11-31 | what the JSON form of an envelope holds under each member name |
| Envelopes.Decode | packages/shared-kernel/src/shared_kernel/outbox.py:51-104 | a stored payload decodes exactly when it is an object with the schema's members, and then to a valid envelope |
| Outbox.ClaimTakesOldest | packages/shared-kernel/src/shared_kernel/outbox.py:168-192 | a claim takes the oldest claimable unlocked rows, no more than the limit, gives each the token, the claim time, the lease and one more attempt, changes no other column and no other row |
| Outbox.ClaimBatchUnique | packages/shared-kernel/src/shared_kernel/outbox.py:171-192 | the claimed set is determined when no two available rows share a creation time |
| Outbox.SelectOldest | packages/shared-kernel/src/shared_kernel/outbox.py:171-183 | the select returns a legal claim batch: all available or the limit, none younger than one left behind |
| Outbox.EnqueueStores | packages/shared-kernel/src/shared_kernel/outbox.py:568-580 | enqueueing keeps each row's key equal to the event id in its payload, adds exactly its event, and never touches a row that exists |
| Outbox.CompletionsKeepPayloads | packages/shared-kernel/src/shared_kernel/outbox.py:312-420 | claims and completions never change what a row stores |
| Outbox.DecodeBatch | packages/shared-kernel/src/shared_kernel/outbox.py:583-643 | a batch decodes record for record in order, or fails as a whole with the error of the first record that cannot be read: it fails exactly when one does not decode or has a blank claim token |
| Outbox.OutboxTable.Enqueue | packages/shared-kernel/src/shared_kernel/outbox.py:568-580 | an insert with every column as a new event has it, created now, or nothing on a key conflict |
| Outbox.OutboxTable.Claim | packages/shared-kernel/src/shared_kernel/outbox.py:168-192 | a legal batch is leased under the token with its attempts counted, and returned row by row in no set order |
| Outbox.OutboxTable.FetchPending | packages/shared-kernel/src/shared_kernel/outbox.py:583-643 | claims and decodes: an error exactly when a claimed row does not decode or the token is blank, with the rows left leased; on a table whose keys match its payloads the batch is one decoded event for each claimed row |
| Outbox.OutboxTable.MarkPublished | packages/shared-kernel/src/shared_kernel/outbox.py:646-672 | publishes and releases exactly the row whose claim is held, column by column, else reports the claim lost and changes nothing |
| Outbox.OutboxTable.MarkFailed | packages/shared-kernel/src/shared_kernel/outbox.py:675-704 | records the error and releases exactly the row whose claim is held, dead-lettering it at the attempt limit, column by column, else reports the claim lost |
| OutboxRelay.OutboxRelayWorker.RelayOnce | packages/shared-kernel/src/shared_kernel/outbox_relay.py:48-95 | claims a legal batch and publishes and marks it in order, stopping at the first failure with the rest still leased; a batch that does not decode raises with every claimed row leased and nothing else changed |
| OutboxRelay.FlushOutbox | services/feature/src/feature_service/repositories.py:125-141 | the same loop without failure handling, with batches of a hundred: what the publisher raises, a service error or not, reaches the caller as it is, and a batch that does not decode raises with its rows left leased |
| OutboxRelay.RelayedPublishes | packages/shared-kernel/src/shared_kernel/outbox_relay.py:48-95 | the call returns exactly when every publish is accepted, and then every claimed row is published at its time, released and counted |
| OutboxRelay.RelayedStops | packages/shared-kernel/src/shared_kernel/outbox_relay.py:48-95 | at the first publish not accepted the rows before it are published, its row is failed with its text and dead-lettered at the limit, the rest stay leased, and the publisher's service error or the relay's own is raised |
| OutboxRelay.RelayedEffect | packages/shared-kernel/src/shared_kernel/outbox_relay.py:48-95 | the loop touches claimed rows only, never raises a row's debt, finishes or releases the row at hand, and alone on the table never loses a claim |
| OutboxRelay.RelayDrains | packages/shared-kernel/src/shared_kernel/outbox_relay.py:48-95 | every relay_once that claims anything strictly lowers the sum over pending rows of one plus the attempts left, whatever the broker does |
| OutboxRelay.OutboxRelayWorker.RunForever | packages/shared-kernel/src/shared_kernel/outbox_relay.py:97-101 | the polling loop up to any poll: it polls again after each call that returned and ends with the error of the first that raised |
| RelayCycles.LoopEndsIff | packages/shared-kernel/src/shared_kernel/outbox_relay.py:97-101 | the loop ends exactly at the first call in which some publish is not accepted; every call before it published all it claimed and dead-lettered nothing |
| RelayCycles.CycleReturnsIff | packages/shared-kernel/src/shared_kernel/outbox_relay.py:48-95 | a call returns exactly when every publish was accepted, and then every claimed row is published |
| RelayCycles.CyclesBounded | packages/shared-kernel/src/shared_kernel/outbox_relay.py:48-95 | in any sequence of calls, late or not, returning or raising, the calls that claim anything plus the debt at the end are at most the debt at the start |
| RelayCycles.LateCycleDrains | packages/shared-kernel/src/shared_kernel/outbox_relay.py:48-95 | a call made when leases have run out lowers the debt exactly while something is pending |
| RelayCycles.TableSettles | packages/shared-kernel/src/shared_kernel/outbox_relay.py:48-95 | among any calls, by a relay started again after each raise, as many late ones as the starting debt leave every row published or dead-lettered |
| OutboxRelay.FlushAbandons | services/decision/src/decision_service/repositories.py:118-134 | flush_outbox never releases or dead-letters a row whose publish raised |
| OutboxRelay.FlushedPublishes | services/decision/src/decision_service/repositories.py:118-134 | a flush returns exactly when every publish is accepted, and then every claimed row is published and counted |
| OutboxRelay.FlushedStops | services/decision/src/decision_service/repositories.py:118-134 | at the first publish not accepted the rows before it are published, the rest stay as they were and the publisher's exception goes on |
| OutboxRelay.FlushDrainsIff | services/decision/src/decision_service/repositories.py:118-134 | a flush lowers the table's debt exactly when its first publish is accepted or a claimed row had attempts left |
| RelayCycles.FlushStalls | services/decision/src/decision_service/repositories.py:118-134 | for any event and limit a table and broker on which a flush raises and leaves the debt unchanged |
| LeaseProtocol.RunKeeps | packages/shared-kernel/src/shared_kernel/outbox.py:168-420 | in every reachable state: published and dead-lettered exclude each other, claim columns are set together, each row's leases are disjoint, current claims match their leases |
| LeaseProtocol.LeaseExclusivity | packages/shared-kernel/src/shared_kernel/outbox.py:171-192 | any two claims ever made on a row have disjoint intervals, from claim to the earlier of expiry and release |
| LeaseProtocol.LostClaimIsPowerless | packages/shared-kernel/src/shared_kernel/outbox.py:315-327 | once replaced, a claim never changes its row again, for either completion, at any later time |
| LeaseProtocol.FinishedIsForever | packages/shared-kernel/src/shared_kernel/outbox.py:402-420 | published and dead-lettered are exclusive and absorbing |
| LeaseProtocol.RowLifecycle | packages/shared-kernel/src/shared_kernel/outbox.py:168-420 | published needs an earlier publish that returned, dead-lettered one that raised and used-up attempts; a pending row has attempts left or a lease after which it is claimable |
| LeaseProtocol.RunStores | packages/shared-kernel/src/shared_kernel/outbox.py:583-672 | in every reachable state a completion keyed by the payload's event id hits the row that was claimed |
| LeaseOrder.OldestFirst | packages/shared-kernel/src/shared_kernel/outbox.py:160-192 | over every run: of two events enqueued at different times, a claim that takes the later takes the earlier too, if it is waiting |
| LeaseOrder.AgeIsEnqueueTime | packages/shared-kernel/src/shared_kernel/outbox.py:160-163 | over every run: a row carries ever after the time of the step that enqueued it |
| RelayRefinement.CycleIsRun | packages/shared-kernel/src/shared_kernel/outbox_relay.py:48-95 | a relay_once alone on its table is a run of the lease protocol with the same effect on the table |
| RelayRefinement.FlushIsRun | services/scoring/src/scoring_service/repositories.py:124-140 | a flush_outbox alone on its table is one too, ending as a crash would where a publish raises |
| RelayRefinement.InterleavedIsRun | packages/shared-kernel/src/shared_kernel/outbox_relay.py:48-95 | with any steps of others before each publish and each mark, and raising publishes that delivered or not, the rest of either loop is steps of the protocol from any state, a mark that finds its claim lost included |
| RelayRefinement.InterleavedCallIsRun | packages/shared-kernel/src/shared_kernel/outbox_relay.py:48-95 | the same for a whole call from its claim on |
| RelayRefinement.AloneIsTheLoop | packages/shared-kernel/src/shared_kernel/outbox_relay.py:48-95 | with nobody else at work the interleaved loop has the effect and the ending of relay_once on the table, or of flush_outbox, whatever its raising publishes delivered |
| Tracing.DerivedLineage | packages/shared-kernel/src/shared_kernel/tracing.py:61-85 | an envelope built while handling an event has its trace and correlation ids, and names it as cause exactly when its id is not blank, passed along or not |
| Tracing.BlankIdHasNoCause | packages/contracts/src/contracts/events.py:11-31 | a valid event whose id is eight spaces, and whatever is built while handling it has no cause |
| Tracing.ContextVars.Enter | packages/shared-kernel/src/shared_kernel/tracing.py:61-76 | sets the three variables with their defaults and remembers the old ones |
| Tracing.ContextVars.Exit | packages/shared-kernel/src/shared_kernel/tracing.py:61-76 | restores what was remembered |
| Tracing.ContextVars.GetTraceId | packages/shared-kernel/src/shared_kernel/tracing.py:28-34 | an unset trace id is generated and kept |
| Tracing.ContextVars.GetCorrelationId | packages/shared-kernel/src/shared_kernel/tracing.py:37-43 | an unset correlation id becomes the trace id and is kept |
| Tracing.ContextVars.HandleEvent | packages/shared-kernel/src/shared_kernel/tracing.py:79-85 | handling any valid event leaves the surrounding context as it was, and what is built inside carries the event's lineage, with no cause for a blank id |
| Consumers.ConsumerRepository.RecordInboxEvent | packages/shared-kernel/src/shared_kernel/outbox.py:707-721 | inserts an unseen event and says whether it did |
| Consumers.ConsumerRepository.Materialize | services/feature/src/feature_service/repositories.py:45-108 | one history row and one outbox event under the same new id |
| Consumers.ConsumerRepository.HandleEvent | services/feature/src/feature_service/repositories.py:110-123 | inbox, history and outbox row together for an unseen event, the outbox row reading as the service's event with the source's lineage and the payload computed from the source's; nothing for a seen one, everything rolled back when the computation raises; audit's without outbox |
| Consumers.OnMessage | packages/shared-kernel/src/shared_kernel/messaging.py:226-289 | a message delivered to any consuming service acts at most once with the payload of the try that acted, is acknowledged exactly when its handler returned, its event then taken in, records success, failure or nothing on the breaker, and leaves context and bulkhead as they were |
| Consumers.Deliver | packages/shared-kernel/src/shared_kernel/messaging.py:368-424 | the same for the call under breaker and bulkhead: turned away by either, nothing is tried and nothing recorded |
| Consumers.TryHandler | packages/shared-kernel/src/shared_kernel/resilience.py:166-193 | a retried handler comes to nothing or to the effect and payload of one try, returns only with the event taken in, and stops exactly when the retry rule says |
| Consumers.TryOnce | packages/shared-kernel/src/shared_kernel/resilience.py:144-155 | the same for one try that may be cut off by any error before or after its commit; what it raises is the cut or the computation's own |
| Consumers.TriesActOnce | packages/shared-kernel/src/shared_kernel/messaging.py:226-289 | however often a handler is retried, commits hidden by an error included, the event acts once: the first committed try's outcome |
| PipelineProofs.RunKeeps | packages/shared-kernel/src/shared_kernel/outbox.py:510-518 | the pipeline's invariant in every state of every run |
| PipelineProofs.NextKeeps | packages/shared-kernel/src/shared_kernel/messaging.py:226-314 | every step of every service keeps the invariant: requests, bindings, handlers, acknowledgements, rejections, redeliveries, relay steps and replays |
| PipelineProofs.HandleNode | services/decision/src/decision_service/repositories.py:108-116 | a handler's transaction keeps its node good and adds rows under new identifiers only |
| PipelineProofs.ReplayHas | packages/shared-kernel/src/shared_kernel/messaging.py:291-314 | a dead-letter replay, delivered or not, accepted or not, takes nothing away from the service and adds the copy it sends |
| PipelineProofs.StepHas | packages/shared-kernel/src/shared_kernel/messaging.py:226-314 | a consumer has after a step exactly what it had before and the copy the step sends it, which its queue gets when it is bound |
| PipelineProofs.AudienceIs | packages/shared-kernel/src/shared_kernel/messaging.py:155-173 | the binding keys match an event's name for exactly the services downstream of its emitter and for audit |
| PipelineProofs.DerivedIsRow | services/scoring/src/scoring_service/repositories.py:98-106 | what any consumer derives is a valid event of its own name with its source as cause and its source's trace and correlation ids |
| PipelineProofs.HandledEmits | services/feature/src/feature_service/repositories.py:72-106 | an event seen first leaves an outbox row that reads as the service's event, member for member, payload included |
| PipelineProofs.RequestedStores | services/application/src/application_service/repositories.py:42-97 | a request leaves its own event in the outbox, member for member |
| PipelineGuarantees.EffectivelyOnce | services/feature/src/feature_service/repositories.py:110-123 | in every reachable state each inbox row has exactly one history row and one derived outbox row, nothing else has any, and every inbox id is an upstream outbox event's |
| PipelineGuarantees.EffectIsPermanent | services/collab-assistant/src/collab_assistant/repositories.py:143-161 | an effect never changes and never happens again, whatever is redelivered, retried or replayed later |
| PipelineGuarantees.HandledIsStored | services/feature/src/feature_service/repositories.py:110-123 | over every run: from the step that handles an event first, the outbox holds for good the service's event with the source's lineage and exactly the payload computed |
| PipelineGuarantees.RunIsLater | services/application/src/application_service/repositories.py:42-97 | histories are only appended to; inbox and outbox rows stay as written |
| PipelineGuarantees.OnePerStage | services/scoring/src/scoring_service/repositories.py:109-122 | two events of a stage that go back to one request are one event |
| PipelineGuarantees.LineageIsConstant | services/decision/src/decision_service/repositories.py:96-104 | every event has the trace and correlation ids of the request at its root |
| PipelineGuarantees.OneEventPerRequest | services/collab-assistant/src/collab_assistant/repositories.py:99-105 | over every run: at most one event a stage and request, constant lineage, each non-root event naming an event of the outbox just upstream as cause, stages strictly rising |
| PipelineGuarantees.RunProtocol | packages/shared-kernel/src/shared_kernel/outbox_relay.py:48-95 | inside the pipeline every service's relay keeps the lease protocol's invariant |
| PipelineGuarantees.HasIffHeard | packages/shared-kernel/src/shared_kernel/messaging.py:155-289 | in every reachable state a consumer has an event of a name it listens to exactly when the event was sent while its queue was bound |
| PipelineGuarantees.PublishedReaches | packages/shared-kernel/src/shared_kernel/messaging.py:175-224 | an event whose row is marked published had a publish that returned, and every consumer bound at that moment has it ever after: processed, queued, dead-lettered, or dropped by a replay that raised |
| PipelineGuarantees.PublishedReachesIff | packages/shared-kernel/src/shared_kernel/messaging.py:155-224 | an outbox event is with a consumer of it exactly when the queue was bound at one of the moments it was sent |
| PipelineExamples.LateBindMisses | packages/shared-kernel/src/shared_kernel/messaging.py:155-173 | for every event of the application a run that confirms it, marks it published, binds the feature queue after that, and never gives it to the feature service |
| PipelineGuarantees.DroppedByReplay | packages/shared-kernel/src/shared_kernel/messaging.py:291-314 | every dropped event was dropped by a replay of it that raised |
| DeadLetters.ReplayConserves | packages/shared-kernel/src/shared_kernel/messaging.py:291-314 | initial length is replayed plus remaining plus one if the call raised with a message open; the replayed are the queue's front, within the limit |
| DeadLetters.ReplayLosesIff | packages/shared-kernel/src/shared_kernel/messaging.py:155-173 | a message is lost exactly when the replay reaches one that does not go through |
| DeadLetters.GarbageIsLost | packages/shared-kernel/src/shared_kernel/messaging.py:291-314 | a queue from which a replay publishes one message, loses the next and leaves the rest |
| DeadLetters.Broker.ReplayDeadLetterQueue | packages/shared-kernel/src/shared_kernel/messaging.py:291-314 | republishes the front of the queue in order, and perhaps the message whose publish raised; answers with the number of messages gone from the queue, all published and within the limit, or with the error of what stopped it |
| Resilience.CircuitBreaker.RecordSuccess | packages/shared-kernel/src/shared_kernel/resilience.py:53-64 | the breaker after a success, in each state |
| Resilience.CircuitBreaker.RecordFailure | packages/shared-kernel/src/shared_kernel/resilience.py:66-75 | the breaker after a failure, in each state, tripping included |
| Resilience.CircuitBreaker.AssertAvailable | packages/shared-kernel/src/shared_kernel/resilience.py:77-105 | who is let through, and the breaker afterwards |
| Resilience.NewBreaker | packages/shared-kernel/src/shared_kernel/resilience.py:40-48 | a breaker is made exactly from thresholds of at least one and a positive recovery time |
| Resilience.Bulkhead.Enter | packages/shared-kernel/src/shared_kernel/resilience.py:126-141 | rejects at the limit, else counts the call in |
| Resilience.Bulkhead.Leave | packages/shared-kernel/src/shared_kernel/resilience.py:126-141 | counts the call out |
| Resilience.WithRetries | packages/shared-kernel/src/shared_kernel/resilience.py:158-193 | stops at the first attempt that returns, raises a rejection or a service error below 500, else at the last allowed; every earlier one raised something else |
| BreakerHistory.ReachableWellFormed | packages/shared-kernel/src/shared_kernel/resilience.py:77-105 | counters stay below their thresholds and an open breaker has an opening time, so the branch for one without is never taken |
| BreakerHistory.ClosedTripsExactly | packages/shared-kernel/src/shared_kernel/resilience.py:66-75 | a closed breaker trips exactly on the failure that completes the threshold since the last success or close |
| BreakerHistory.NoCallBeforeRecovery | packages/shared-kernel/src/shared_kernel/resilience.py:77-110 | with a monotone clock no call passes from any trip until its recovery time is over, whatever completes meanwhile |
| BreakerHistory.ClosesAfterProbes | packages/shared-kernel/src/shared_kernel/resilience.py:53-64 | it closes only after the required successes since entering half-open with no failure between |
| BreakerHistory.OneProbeBetweenCompletions | packages/shared-kernel/src/shared_kernel/resilience.py:92-105 | half-open admits at most one call between two completions |
| BreakerReference.BreakerIsMode | packages/shared-kernel/src/shared_kernel/resilience.py:53-110 | after every history the five fields show the mode and the number of missed failures that the history leads to by a description without those fields |
| BreakerReference.AdmitsIff | packages/shared-kernel/src/shared_kernel/resilience.py:77-105 | a call passes exactly in normal operation, once the recovery time since the last blocking failure is over, or when no probe is out |
| BreakerReference.TripsIff | packages/shared-kernel/src/shared_kernel/resilience.py:66-75 | the failures that open the breaker or keep it open longer are exactly those of probes and those with as many failures since the last success as the threshold, probes aside; others change nothing |
| BreakerReference.FailureBlocks | packages/shared-kernel/src/shared_kernel/resilience.py:66-105 | no call passes from any such failure, one while open included, until its recovery time is over |
| BreakerReference.LateFailureExtends | packages/shared-kernel/src/shared_kernel/resilience.py:66-75 | a breaker opened at 0 and failing again at 10 refuses at 15 and passes at 25 |
| IntegrationCalls.NeverWedged | packages/shared-kernel/src/shared_kernel/messaging.py:368-424 | without cancellation, over every interleaving, a set trial flag has a call behind it and the bulkhead counts exactly the running calls, within its limit |
| IntegrationCalls.StartsUnwedged | packages/shared-kernel/src/shared_kernel/resilience.py:27-38 | a fresh breaker and bulkhead satisfy what NeverWedged keeps |
| IntegrationCalls.AbandonWedgesIff | packages/shared-kernel/src/shared_kernel/messaging.py:368-424 | a cancelled call wedges the breaker exactly when the trial flag is set and it was the last call |
| IntegrationCalls.WedgeIsForever | packages/shared-kernel/src/shared_kernel/resilience.py:92-105 | a wedged breaker rejects every later call at any time |
| IntegrationCalls.CancelledProbeWedges | packages/shared-kernel/src/shared_kernel/messaging.py:368-424 | a concrete run with a cancelled probe that wedges it |
| IntegrationCalls.IdleRecovers | packages/shared-kernel/src/shared_kernel/resilience.py:77-105 | with no call in progress a call passes exactly unless the breaker is open and not yet recovered |
| IntegrationCalls.CallStepsEffect | packages/shared-kernel/src/shared_kernel/messaging.py:368-424 | the steps of one undisturbed call leave the breaker as its outcome says and the bulkhead as it was |
| IntegrationCalls.RunIntegrationCall | packages/shared-kernel/src/shared_kernel/messaging.py:368-424 | one call's answer and what it records: a success, a failure, or nothing for a rejection |
| Idempotency.GatewayIdempotencyRepository.ReserveRequest | services/api-gateway/src/api_gateway/idempotency.py:76-219 | mismatches first, then what is stored, then a grant exactly when the row has run out; a granted row is pending, fresh and empty, and every other row and every refusal leaves the table alone |
| Idempotency.GatewayIdempotencyRepository.PersistResponse | services/api-gateway/src/api_gateway/idempotency.py:221-243 | completes exactly a pending row with the payload and its code, column by column, else fails and changes nothing |
| Idempotency.GatewayIdempotencyRepository.PersistFailure | services/api-gateway/src/api_gateway/idempotency.py:245-267 | fails exactly a pending row with its error payload and code, column by column, else fails and changes nothing |
| Idempotency.GrantedIff | services/api-gateway/src/api_gateway/idempotency.py:172-211 | a pending key is granted again exactly to the same request once the shorter of ttl and staleness has passed |
| Evaluations.DeserializeSerialize | services/api-gateway/src/api_gateway/routes.py:65-87 | a stored evaluation reads back as itself through the schemas' checks |
| Evaluations.SerializedMembers | services/api-gateway/src/api_gateway/routes.py:65-87 | what a stored evaluation holds under each member name |
| GatewayRuns.RunKeeps | services/api-gateway/src/api_gateway/idempotency.py:317-343 | in every reachable state a row is pending until its one finalization and then stores exactly that, and every reply tells it |
| ErrorEnvelopes.DumpSeparates | packages/contracts/src/contracts/errors.py:10-22 | two error bodies are equal exactly when their envelopes are, and equal but for the time exactly when the envelopes are |
| ErrorEnvelopes.ToldAndPersisted | packages/shared-kernel/src/shared_kernel/app_factory.py:90-116 | the body sent first and the body stored agree but for the time exactly for a ServiceError, and wholly exactly when built at one clock reading |
| ErrorEnvelopes.BodiesReport | packages/shared-kernel/src/shared_kernel/app_factory.py:90-116 | the members of the stored and of the sent body, for a ServiceError and for any other exception |
| GatewayRuns.RepliesAgree | services/api-gateway/src/api_gateway/routes.py:131-184 | all 200 replies for a key carry one evaluation for one request, no key yields both a 200 and a failure, all replayed answers of a key are identical, and at most one answer comes from the execution itself |
| GatewayRuns.FirstAndReplay | services/api-gateway/src/api_gateway/routes.py:141-177 | over every run: first answer and replay of a failure agree but for the time exactly for a ServiceError, wholly exactly when also built at one clock reading; the first has the ServiceError's own status, or 500 for anything else, and the replay the same, or 500 for a status of zero |
| GatewayFailures.ServiceErrorBodiesDiffer | services/api-gateway/src/api_gateway/routes.py:148-158 | for every ServiceError and two clock readings a run whose first answer and replay are different bodies |
| GatewayFailures.FailureStoredIff | services/api-gateway/src/api_gateway/routes.py:148-177 | the failure of a granted, undisturbed request is stored exactly when its trace id has eight characters and a ServiceError its code, message and operation; for any other exception exactly when the trace header is missing, empty or of eight characters |
| GatewayRuns.UnpersistedFailureBlocks | services/api-gateway/src/api_gateway/routes.py:148-177 | in every reachable state a failure that does not meet that leaves the key pending, and the same request is refused until the window is over |
| GatewayFailures.ShortTraceBlocks | services/api-gateway/src/api_gateway/routes.py:148-177 | for every trace header of one to seven characters a run from the start in which an unexpected error is not stored and the same request is then refused as in progress |
| GatewayFailures.FiveCharactersBlock | services/api-gateway/src/api_gateway/routes.py:159-177 | such a run with a given header, error and key, a minute later, under the default times |
| GatewayRuns.FirstFinalizerWins | services/api-gateway/src/api_gateway/idempotency.py:160-180 | at most one finalization of a key ever succeeds, its row is permanent and holds its status, and later callers are told it |
| GatewayRuns.GrantBound | services/api-gateway/src/api_gateway/idempotency.py:181-211 | executions of a key are a whole window apart, so there is at most one more than the windows since the first |
| GatewayRuns.ExecutesOnce | services/api-gateway/src/api_gateway/idempotency.py:181-211 | a key never left pending for a window is executed at most once |
| GatewayRuns.CreditEvaluate | services/api-gateway/src/api_gateway/routes.py:108-186 | one request's answer and effect, whatever others do to the table while it executes: a granted one is settled as Settle says, any other is answered from the row |
| GatewayRuns.Settle | services/api-gateway/src/api_gateway/routes.py:146-184 | the evaluation is stored and answered with 200; a ServiceError is stored and answered with its own status and members, anything else with 500 and the unexpected error's two bodies |
| GatewayRuns.RequestIsSteps | services/api-gateway/src/api_gateway/routes.py:131-184 | an undisturbed granted request that produces an evaluation or a failure that can be stored is steps of the protocol and finalizes |
| Artifacts.WriteOnce | packages/shared-kernel/src/shared_kernel/artifacts.py:63-86 | without overwrite a location keeps its first bytes; a write succeeds exactly when its location is safe and then reads back its payload |
| Artifacts.ArtifactStore.WriteBytes | packages/shared-kernel/src/shared_kernel/artifacts.py:63-80 | the store and the answer of a write, collisions and unsafe names included |
| Artifacts.WriteAnswers | packages/shared-kernel/src/shared_kernel/artifacts.py:63-80 | which names are refused, that a location holding something else is a collision, and that otherwise the location holds the payload |
| Artifacts.ArtifactStore.ReadBytes | packages/shared-kernel/src/shared_kernel/artifacts.py:82-86 | the bytes at a location, or not found |
| ModelRegistry.EvaluatePolicy | services/mlops/src/mlops_service/lifecycle.py:217-229 | passes exactly when the AUC is at least its minimum and the calibration error at most its maximum, with one failure for each that is not |
| ModelRegistry.StemDeterminesName | services/mlops/src/mlops_service/lifecycle.py:399-403 | under one version and digest an artifact stem determines the model name, dashes in names notwithstanding |
| ModelRegistry.StemDeterminesDigest | services/mlops/src/mlops_service/lifecycle.py:399-403 | under one name and version two packages share a location only if their digests agree in the first sixteen characters |
| ModelRegistry.RegistrationOutcome | services/mlops/src/mlops_service/routes.py:131-225 | a registration never changes stored blobs; it adds one row for an approved run whose stored package is the run's artifact re-versioned and signed, or leaves the tables alone |
| ModelRegistry.SigningOutcome | services/mlops/src/mlops_service/lifecycle.py:330-426 | signing writes exactly the re-versioned artifact with its signature at the location its name, version and digest make up |
| Registration.RegistrationSucceedsIff | services/mlops/src/mlops_service/routes.py:131-225 | a registration succeeds exactly when no guard refuses, the card location takes the card, key and key id are configured, the artifact is a readable package, the signed location takes the package, and the version is new |
| Registration.RegistrationAnswers | services/mlops/src/mlops_service/routes.py:131-225 | a registration that fails answers with the code and status of the first thing that is wrong |
| Registration.CardStaysIff | services/mlops/src/mlops_service/lifecycle.py:274-327 | a registration leaves a free card location free exactly when a guard refused it or the location is unsafe, and else its own card there |
| Registration.RetryIff | services/mlops/src/mlops_service/lifecycle.py:274-327 | a failed registration can be repeated with a new card exactly when a guard had refused the first and the second has everything it needs |
| Registration.StemIsSafe | services/mlops/src/mlops_service/lifecycle.py:304-308 | a request that passes its schema always has a safe card location |
| Registration.StemSharedIff | services/mlops/src/mlops_service/lifecycle.py:304-308 | some other version shares the card location exactly when the stem can be parted elsewhere into a name and a version |
| Registration.StemInjective | services/mlops/src/mlops_service/lifecycle.py:304-308 | names without two dashes in a row never share a card location |
| Registration.CardStemsCollide | services/mlops/src/mlops_service/lifecycle.py:304-308 | two valid versions of different models whose cards share a location |
| ServingProofs.VersionStaysBurnt | services/mlops/src/mlops_service/lifecycle.py:274-327 | over every run: once a version's card is stored, no registration with another card ever succeeds |
| ServingProofs.RetryInRun | services/mlops/src/mlops_service/lifecycle.py:274-327 | over every run: when a failed registration can be repeated, exactly |
| ServingExamples.MissingKeyBurns | services/mlops/src/mlops_service/routes.py:187-205 | a run in which a registration that a key would have let through is tried without one, after which the version is burnt in every continuation |
| ModelRegistry.MLOpsRepository.PersistTrainingRun | services/mlops/src/mlops_service/repositories.py:58-104 | adds a run under a new id, else refuses and changes nothing |
| ModelRegistry.MLOpsRepository.EvaluateRun | services/mlops/src/mlops_service/routes.py:96-127 | evaluates the stored run's own metrics and adds the result |
| ModelRegistry.MLOpsRepository.RegisterModel | services/mlops/src/mlops_service/routes.py:131-225 | the guards in order, then card, signed package and registry row |
| ModelRegistry.MLOpsRepository.BuildSignedArtifact | services/mlops/src/mlops_service/lifecycle.py:330-426 | the signed package of a run's artifact, or the error that stops it |
| ModelRegistry.MLOpsRepository.PromoteModel | services/mlops/src/mlops_service/repositories.py:314-375 | adds an assignment exactly for a registered version with an unused ticket |
| ModelServing.ScoringRuntime.ResolveActiveModel | services/scoring/src/scoring_service/runtime.py:148-257 | the cached model of the active row, or a verified load that fills the cache with it, or the first failing check's error and the cache as it was |
| ModelServing.LoadsIff | services/scoring/src/scoring_service/runtime.py:189-377 | a row loads exactly when its artifact is stored, has its digest, is a package of the schema, agrees with the row in every compared member and is signed as the row says |
| ServingProofs.TrainingWritesTrained | services/mlops/src/mlops_service/lifecycle.py:134-172 | what training writes passes every check of the serving schema that does not concern version and signature |
| ServingProofs.RunKeeps | services/mlops/src/mlops_service/repositories.py:239-304 | in every reachable state every registry row is approved, copies its run, and its signed package is stored where it says |
| ServingProofs.CachedIsFresh | services/scoring/src/scoring_service/runtime.py:189-257 | in every reachable state resolving through the cache gives exactly what resolving with an empty cache gives, whatever public keys the service was restarted with |
| ServingProofs.OneRowPerLocation | services/scoring/src/scoring_service/runtime.py:192-197 | two registry rows with one cache key are one row |
| ServingProofs.ServedIsProven | services/scoring/src/scoring_service/runtime.py:260-377 | every model ever served was promoted, and registered from a run whose own evaluation passed the thresholds in force, with that run's specs and name, and its unsigned package is the run's artifact with only schema and version replaced; it verified under the public key it was served with, restarts under other keys included |
| ServingProofs.PromotionActivates | services/scoring/src/scoring_service/runtime.py:148-187 | a promotion later than the earlier ones of its name and stage makes its version the active one, and the only one |
| ServingProofs.ServableIff | services/mlops/src/mlops_service/routes.py:145-180 | a registered version loads exactly when its name is its run's and serving holds the public key of its signer |
| ServingExamples.PromotedDoesNotLoad | services/mlops/src/mlops_service/routes.py:145-180 | a run that registers and promotes a version under another model name, active and not loadable under any public key |
| Calibration.ExpectedCalibrationError | services/mlops/src/mlops_service/lifecycle.py:507-523 | the accumulated error, which times the number of samples is the sum over the bins of the size of the summed label minus probability; for one bin the gap of the means; always between that gap and the mean absolute gap, at most one |
| Calibration.ErrorIsGapSizes | services/mlops/src/mlops_service/lifecycle.py:507-523 | the weighted gaps of the bin means are the sizes of the summed gaps over the number of samples |
| Calibration.InOneBin | services/mlops/src/mlops_service/lifecycle.py:513-516 | for any ordered edges from 0 to 1 every probability is in exactly one bin |
| Calibration.BinsPartition | services/mlops/src/mlops_service/lifecycle.py:513-516 | summing anything bin by bin sums each sample once |
| Calibration.WeightsSumToOne | services/mlops/src/mlops_service/lifecycle.py:521-521 | the weights of the bins sum to one |
| Calibration.ErrorBounds | services/mlops/src/mlops_service/lifecycle.py:507-523 | the bounds of the error, for all samples and edges |
| Redaction.RedactPii | packages/security/src/security/pii.py:29-49 | the loops compute the recursive redaction |
| Redaction.RedactedTwice | packages/security/src/security/pii.py:29-49 | redaction is idempotent |
| Redaction.Redacted | packages/security/src/security/pii.py:29-49 | redaction keeps the key set |
| Redaction.SensitiveIff | packages/security/src/security/pii.py:8-36 | a key is sensitive exactly when it is one of the ten field names, whatever the case of its letters and the white space around it |
| Redaction.MaskedIff | packages/security/src/security/pii.py:29-49 | after redaction every sensitive key at any depth holds the mask, exactly when lists nested directly in lists held no unmasked one |
| Redaction.InnerListLeaks | packages/security/src/security/pii.py:38-46 | a payload whose nested list keeps a sensitive value |
| Redaction.LeafIsKept | packages/security/src/security/pii.py:29-49 | every leaf not under a sensitive key is the same at the same place |
| Audit.WrittenThenRead | services/observability-audit/src/observability_audit/repositories.py:41-68 | reading a written audit event back gives the event with its payload redacted once |
| Audit.AuditRepository.HandleEvent | services/observability-audit/src/observability_audit/repositories.py:41-68 | an unseen event is stored redacted, every other column as the event has it; a seen one changes nothing |
| Audit.AuditRepository.GetEvent | services/observability-audit/src/observability_audit/repositories.py:95-159 | the record of a stored row, its payload redacted again, or the error that makes it unreadable |
| Audit.AuditRepository.NormalizePayload | services/observability-audit/src/observability_audit/repositories.py:161-199 | copying member by member and redacting is redacting |
| CreditPolicy.ScoreApplication | packages/shared-kernel/src/shared_kernel/credit_policy.py:70-102 | the clamped sum of the penalties that apply and exactly their reasons in order |
| CreditPolicy.RiskIsMonotone | packages/shared-kernel/src/shared_kernel/credit_policy.py:56-126 | under every valid policy more debt, amount or defaults, or less income or history, never lowers the score, drops a reason or moves the decision towards approval |
| CreditPolicy.EvaluateCredit | packages/shared-kernel/src/shared_kernel/credit_policy.py:56-126 | features, score and decision of a valid application satisfy their schemas and agree: the two ratios to income, yearly for the amount, the decision by the two thresholds with its policy code |
| CreditPolicy.DefaultDecisions | packages/shared-kernel/src/shared_kernel/credit_policy.py:16-53 | the default policy is valid and, in exact arithmetic, which combinations of marks it approves, reviews and declines |
| CreditRounding.RoundingFlipsIff | packages/shared-kernel/src/shared_kernel/credit_policy.py:80-125 | in binary64 arithmetic the default decision differs from the exact one exactly for a prior default alone, which is approved |
| CreditRounding.ExactIsPolicy | packages/shared-kernel/src/shared_kernel/credit_policy.py:70-125 | the scores in hundredths and their decisions are those of the policy |

## Left out

- Envelopes.Decode: the occurrence time is any text, and stored bytes and JSON text are given as their value tree.
- Consumers.ConsumerRepository.Materialize: of a history row only its event id and its origin are modelled.
- Artifacts.ArtifactStore.ReadBytes: an artifact address is a directory and a stem, so the error for an address
  outside the storage root does not arise.
- ModelRegistry.MLOpsRepository.PromoteModel: the promotion event put in the mlops outbox is not modelled.
- Audit.AuditRepository.GetEvent: the type checks of the time, trace, causation and text columns are not modelled,
  since the columns are typed.
- Error messages, hints, causes and log output, except in the gateway's error bodies; elsewhere a raised error is its
  code and status.
- Unicode beyond ASCII in event-name digits, case folding and blank stripping.
- The coercion of JSON integers to floats by the schemas, and floating-point rounding outside the default
  credit policy; how many marks an application has is decided on exact ratios.
- SHA-256, Ed25519 and JSON text: the digest is any function, the signature an ideal one, JSON text its value tree.
- Loading of PEM keys and base64 signatures: a key text is a key.
- numpy and scikit-learn: fitted numbers, AUC, quantile edges and the top-k selection are inputs or not modelled.
- The scoring sigmoid and its reason codes from contributions (`ActiveScoringModel.score`).
- Azure and filesystem specifics of the artifact stores: both are a write-once map from directory and stem to bytes.
- Connections, pools, isolation levels and lock waits; a statement waiting for a row lock can use a transaction time
  older than the holder's commit, which the model's one clock does not show.
- `dlq.get` timing out on a message the server already handed out, which stays unacknowledged until the channel closes.
- Cancellation while the bulkhead's `finally` waits for its lock.
- The override, promotion and mlops events that also reach audit.
- Routing, authentication, telemetry, configuration loading, migrations of old rows, CI and deployment files.
- HTTP callers can send any causation id, so a request's own event may name any cause; lineage is stated over the
  history's sources.
- Validation of a service's own history columns; a history row is reduced to its event id and its origin.
