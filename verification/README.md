# State machines of the guided LLM security labs

A Dafny model of the small transactional state machines behind the guided labs, of the verifiers that re-check what
those machines record, and of two of the command-line tools. `dafny verify dfyconfig.toml` verifies the whole project.

Every SQLite transaction is one atomic step, written twice: as a function from the old tables to the new tables and the
answer, and as an imperative method of a class whose fields are the tables, proved to do what the function says. The
properties are then proved of the functions, over every run: any number of requests, in any order, with any arguments.

- **Journals.** `Preparations` has the rows shared by both preparation journals; `SearchJournal` (P03) and
  `GuardrailJournal` (P04) add their snapshots. `SearchBackend` is the P03 provider call that compares the journal with
  its suite before and after the SDK calls. A P03 snapshot carries its own operation and so never returns once replaced;
  a P04 snapshot does not, and the model shows the difference.
- **Audit pipeline.** `Outbox`, `AuditSender`, `EventCollector` and `AuditPipeline`: two durable queues in series, with
  lost acknowledgements, crashes between POST and DELETE, repeated posts, refusals and retention.
- **Policy store.** `PolicyStore`: content-addressed bundles, an active pointer, drafts, promotion, rollback, and
  recovery after a crash between any two writes of a start, a promotion or a rollback.
- **One-use capabilities.** `CaseCapabilities` (H07 with two cases, H08 with four) and `SuiteGrants` (P12).
- **Execution ledgers and verifiers.** `CallLedger` (P02 and P03), `DocumentProvider` and `DocumentVerifier` (P02);
  `GuardrailLedger`, `GuardrailInvocation` and `GuardrailSuite` (P04). What holds on any clock and what needs a clock
  that does not run backwards are separate lemmas.
- **Quotas and tokens.** `TokenQuota` and `RefreshTokens`.
- **Stories.** `TokenAccounts` and the modules named `...Stories` say, over every run, what each row of a table tells of
  the requests that wrote it, exactly when each request is accepted and with which refusal otherwise, and that accepted
  requests take effect, in terms of the requests and the rows rather than of the step functions.
- **Tools.** `LabContract` and `LabRunner` (evidence checks and evidence printing) and `CommentToggle`; `Text` has the
  Python string operations they use, `Results` the answer types.

Conventions: the clock is an argument of every step, and a reading that is not positive stands for one that `stamp()`
refuses. SHA-256 is a free constructor over what is hashed, hence injective; canonical JSON is compared as the value it
encodes. Fresh identifiers and random tokens are arguments, and a collision takes the path of the table's key
violation. Arguments that the original parses or type-checks first arrive as `Option`, `None` meaning refused. A fact
about history that no table stores (the order of exchanges, the second of an admission) is an explicit extra field
that no step reads.

Where documentation and code differ, the code is modelled. Statements that do not hold in general come with the exact
condition under which they do:

- two equal readings of the P04 journal do not show that nothing happened (`GuardrailJournal.PreparationBetweenEqualReads`);
  they do exactly when the newest operation is the same (`UntouchedIffSameOperation`);
- an event can be stored twice (`AuditPipeline.StoredTwice`), exactly when retention deleted it and the backlog has
  room (`ArrivalStoresIff`);
- the calls of an execution can overlap (`CallLedger.OrderNeedsTheClock`); they do not exactly when every reserve is
  stamped not before the end of the call before it (`CallsAreSeparateIff`);
- the P04 evidence of a call can be out of order (`GuardrailLedger.OrderNeedsTheClock`); it is in order exactly when
  dispatch and completion are stamped not before the audits they follow (`GuardrailInvocation.EvidenceIsOrderedIff`);
- a completed P02 run is accepted exactly when its vector is normalised within 0.001, while the adapter records any
  positive norm (`DocumentVerifier.RunIsAccepted`);
- a P04 execution with a pending call can be closed exactly while it is younger than 180 seconds
  (`GuardrailLedger.ClosableIffYoung`);
- a span as long as a quota window can exceed the limits (`TokenQuota.TwiceIsReached`), exactly as
  `RequestsRespectedIff` and `CommittedRespectedIff` say;
- a promotion interrupted by an exception can lose a marker that no restart restores
  (`PolicyStore.LostMarkerStaysLost`), exactly as `RaisedPromotionMarksIff` says;
- the lab's printed evidence and the comment toggle round-trip exactly as `LabRunner.EnvelopeAgrees`,
  `CommentToggle.RoundTrip` and `FileRoundTrip` say.

## Model

| member | source | states |
|---|---|---|
| SearchJournal.PreparationStore.Begin | llm-security-control-plane/guided-bedrock-gateway/p03_preparation.py:44-62 | inserts one preparing row, or refuses without change when the release, account, operation or an unfinished row forbids it |
| SearchJournal.PreparationStore.Publish | llm-security-control-plane/guided-bedrock-gateway/p03_preparation.py:64-94 | completes the active row within its time limit and stores exactly that snapshot as the resource state, or changes nothing |
| SearchJournal.PreparationStore.Fail | llm-security-control-plane/guided-bedrock-gateway/p03_preparation.py:110-120 | moves only the active row to error; any other phase is refused unchanged |
| SearchJournal.PreparationStore.Remove | llm-security-control-plane/guided-bedrock-gateway/resource_cleanup.py:157-164 | the deletion step: retires every ready row and clears the resource state together |
| SearchJournal.PreparationStore.ReadResources | llm-security-control-plane/guided-bedrock-gateway/p03_preparation.py:122-131 | reads the published snapshot of the newest row and otherwise refuses |
| SearchJournal.JobOfInjective | llm-security-control-plane/guided-bedrock-gateway/p03_preparation.py:83 | the job identifier built from an operation identifier determines the operation |
| SearchJournal.ApplyKeepsCurrent | llm-security-control-plane/guided-bedrock-gateway/p03_preparation.py:64-94 | every step keeps the resource state equal to the snapshot of the newest ready row |
| SearchJournal.Exposure | llm-security-control-plane/guided-bedrock-gateway/p03_preparation.py:28-131 | over every run: one account, a preparing row only as the newest, the resource state repeats the newest ready row, and resources are readable if and only if the newest preparation is published and of this release; what is read passed every publication check |
| SearchJournal.SameReadSameJournal | llm-security-control-plane/guided-bedrock-gateway/p03_preparation.py:44-131 | two equal readings with any steps between them: none of the steps took effect |
| SearchJournal.ReadableAgainIffUntouched | llm-security-control-plane/guided-bedrock-gateway/p03_preparation.py:44-131 | a readable snapshot is readable again after any steps if and only if none of them changed the journal |
| SearchJournal.BeginAcceptedIff | llm-security-control-plane/guided-bedrock-gateway/p03_preparation.py:44-62 | a begin is accepted exactly when the journal has no other account, not this operation and nothing active, and is answered with the template its row carries |
| SearchJournal.PublishAcceptedIff | llm-security-control-plane/guided-bedrock-gateway/p03_preparation.py:64-94 | a publication is accepted exactly for the active newest preparation, within 900 seconds, with the job, bucket, prefix and document of that preparation under the current template |
| SearchJournal.FailAcceptedIff | llm-security-control-plane/guided-bedrock-gateway/p03_preparation.py:110-120 | a failure is accepted exactly for the active newest preparation |
| SearchJournal.AnswersAre | llm-security-control-plane/guided-bedrock-gateway/p03_preparation.py:44-120 | each accepted request adds or ends exactly the newest row; a refusal changes nothing and is 422 exactly for a malformed begin |
| SearchJournal.UntouchedIffNoneAccepted | llm-security-control-plane/guided-bedrock-gateway/p03_preparation.py:44-120 | the journal is untouched exactly when none of the requests was accepted |
| SearchJournal.AcceptedAreSeen | llm-security-control-plane/guided-bedrock-gateway/p03_preparation.py:44-131 | an accepted publication makes exactly its snapshot readable; an accepted begin or failure and every deletion make nothing readable |
| SearchJournal.JournalTellsTheRun | llm-security-control-plane/guided-bedrock-gateway/p03_preparation.py:44-120 | over every run each row was begun with its operation, account, template and start, and published, failed or deleted as its phase, end and snapshot say |
| Preparations.RowsTellTheRun | llm-security-control-plane/guided-bedrock-gateway/p03_preparation.py:44-120 | the same for any log of journal edits, in their order |
| Preparations.EditKeepsInv | llm-security-control-plane/guided-bedrock-gateway/p03_preparation.py:44-120 | the four journal edits keep one account, distinct operations, and at most one active row, the newest |
| Preparations.SupersededStays | llm-security-control-plane/guided-bedrock-gateway/p03_preparation.py:44-120 | once an operation is superseded it stays superseded under every edit |
| Preparations.EditSupersedes | llm-security-control-plane/guided-bedrock-gateway/p03_preparation.py:44-120 | any edit that takes effect on an exposed journal supersedes the exposed operation |
| SearchBackend.RetrieveIff | llm-security-control-plane/guided-bedrock-gateway/p03_backend.py:62-123 | a search call succeeds if and only if the provider answered properly and all five readings of the journal equal the suite's snapshot |
| SearchBackend.JobStatusIff | llm-security-control-plane/guided-bedrock-gateway/p03_backend.py:72-91 | a status call succeeds exactly when both readings are the suite's own and the provider named this job in one of the six states with counts not negative, and it reports that state and those counts |
| SearchBackend.BoundReading | llm-security-control-plane/guided-bedrock-gateway/p03_suites.py:81-113 | what a prepared suite stores is what the journal exposed, with an AWS binding |
| SearchBackend.ReadingsAgreeIffUntouched | llm-security-control-plane/guided-bedrock-gateway/p03_suites.py:146-150 | the readings before and after a call agree if and only if the journal was untouched throughout |
| SearchBackend.RegisteredRetrieveIff | llm-security-control-plane/guided-bedrock-gateway/p03_suites.py:129-141 | the whole call succeeds exactly when the suite is prepared, of this contract and younger than 240 seconds, and the retrieval succeeds |
| SearchBackend.CallSucceedsIffJournalUntouched | llm-security-control-plane/guided-bedrock-gateway/p03_backend.py:62-123 | in any interleaving of a call with journal requests, the call succeeds exactly when the suite can still be looked up, the provider answered, and no begin, publish, fail or deletion took effect since the suite was bound |
| SearchBackend.PreparedCallIff | llm-security-control-plane/guided-bedrock-gateway/p03_suites.py:81-141 | from preparation to answer: a call succeeds exactly when the suite was bound within 30 seconds of its start, is called within 240 seconds under the same contract, the provider answered and nothing reached the journal in between |
| SearchBackend.RetrieveReturns | llm-security-control-plane/guided-bedrock-gateway/p03_backend.py:71-123 | a successful call returns the provider's hits and request identifier, the status observation, and the suite's binding under the alias for the job |
| SearchBackend.AnswerIsTheProviders | llm-security-control-plane/guided-bedrock-gateway/p03_backend.py:71-123 | whatever reached the journal in between, a successful answer holds the provider's own hits, identifiers and statistics, and every hit lies under the prefix the journal still exposes |
| GuardrailJournal.PreparationStore.Begin | llm-security-control-plane/guided-bedrock-gateway/p04_preparation.py:40-54 | as for P03, in the P04 journal |
| GuardrailJournal.PreparationStore.Publish | llm-security-control-plane/guided-bedrock-gateway/p04_preparation.py:56-84 | completes the active row with the snapshot and evidence, or changes nothing |
| GuardrailJournal.PreparationStore.Fail | llm-security-control-plane/guided-bedrock-gateway/p04_preparation.py:86-95 | moves only the active row to error |
| GuardrailJournal.Exposure | llm-security-control-plane/guided-bedrock-gateway/p04_preparation.py:40-122 | over every run resources are readable if and only if the newest preparation is published and of this release |
| GuardrailJournal.UntouchedIffSameOperation | llm-security-control-plane/guided-bedrock-gateway/p04_preparation.py:110-122 | after two equal readings nothing took effect in between if and only if the newest operation is unchanged, the comparison that the snapshot does not make |
| GuardrailJournal.PreparationBetweenEqualReads | llm-security-control-plane/guided-bedrock-gateway/p04_preparation.py:56-122 | the P03 guarantee fails for P04, from every readable journal: a whole preparation fits between two equal readings, because the snapshot does not carry the operation |
| GuardrailJournal.BeginAcceptedIff | llm-security-control-plane/guided-bedrock-gateway/p04_preparation.py:40-54 | a begin is accepted exactly when the journal has no other account, not this operation and nothing active |
| GuardrailJournal.PublishAcceptedIff | llm-security-control-plane/guided-bedrock-gateway/p04_preparation.py:56-84 | a publication is accepted exactly for the active newest preparation, within 300 seconds, with a guardrail of its account and template and 3 to 200 different request identifiers |
| GuardrailJournal.FailAcceptedIff | llm-security-control-plane/guided-bedrock-gateway/p04_preparation.py:86-95 | a failure is accepted exactly for the active newest preparation |
| GuardrailJournal.AcceptedAreSeen | llm-security-control-plane/guided-bedrock-gateway/p04_preparation.py:40-122 | an accepted publication makes exactly its snapshot readable; a begin, a failure or a deletion makes nothing readable |
| GuardrailJournal.AnswersAre | llm-security-control-plane/guided-bedrock-gateway/p04_preparation.py:40-95 | each accepted request adds or ends exactly the newest row; a refusal changes nothing and is 422 exactly for a malformed request |
| GuardrailJournal.ChangesIffAccepted | llm-security-control-plane/guided-bedrock-gateway/p04_preparation.py:40-95 | a request changes the journal exactly when it is accepted |
| GuardrailJournal.JournalTellsTheRun | llm-security-control-plane/guided-bedrock-gateway/p04_preparation.py:40-95 | over every run each row was begun, and published, failed or deleted as it says |
| AuditSender.AuditDelivery.Enqueue | llm-security-control-plane/application-gateway/audit_delivery.py:64-83 | accepts a fitting event into the bounded queue and counts it, or counts the loss and leaves the queue alone |
| AuditSender.AuditDelivery.Next | llm-security-control-plane/application-gateway/audit_delivery.py:85-89 | nothing exactly when no event waits, otherwise a pending event that no other was created before |
| AuditSender.AuditDelivery.FlushOnce | llm-security-control-plane/application-gateway/audit_delivery.py:85-104 | with no producer in between, one of the longest waiting events leaves the queue and is counted as delivered exactly when its own id came back; otherwise only the failures counter moves |
| AuditSender.AuditDelivery.Settle | llm-security-control-plane/application-gateway/audit_delivery.py:85-104 | an acknowledged event leaves the queue and is counted as delivered; anything else keeps it |
| EventCollector.EventStore.Persist | examples/security-monitoring/app.py:371-405 | stores a new event with its log row, answers a known one as a duplicate, refuses when the backlog is full, and retains what is unacknowledged |
| EventCollector.EventStore.NextLog | examples/security-monitoring/log_delivery.py:44-48 | nothing exactly when no log waits, otherwise a waiting log that no other was created before |
| EventCollector.EventStore.SettleLog | examples/security-monitoring/log_delivery.py:62-76 | an acknowledged log leaves the outbox and is counted as delivered; otherwise it stays and the failure is counted |
| EventCollector.EventStore.FlushLog | examples/security-monitoring/log_delivery.py:44-76 | one of the longest waiting logs leaves the outbox exactly when it was acknowledged, and no event row is touched |
| AuditPipeline.NextKeepsInv | llm-security-control-plane/application-gateway/audit_delivery.py:64-104 | every step of sender, collector and shipper, and every lost reply or crash between POST and DELETE, keeps the pipeline's accounting |
| AuditPipeline.NothingLost | examples/security-monitoring/app.py:371-405 | every accepted event is pending or committed; accepted = delivered + pending, pending within capacity; logs queued = logs delivered + logs waiting; unacknowledged logs belong to stored events and retention deletes acknowledged events only |
| AuditPipeline.ExactlyOnce | examples/security-monitoring/app.py:376-405 | every accepted event that left the sender and that retention never deleted is stored exactly once and its log queued exactly once, whatever happened to other events |
| AuditPipeline.ArrivalStoresIff | examples/security-monitoring/app.py:371-405 | a posted event that arrives is stored exactly when it is not stored and, with an OTLP endpoint, the log backlog has room, and is answered as a duplicate when it is stored; a committed event is no longer stored only because retention deleted it |
| AuditPipeline.StoredTwice | examples/security-monitoring/app.py:400-405 | exactly-once does not survive retention: a run on a clock that never runs backwards in which a lost acknowledgement makes an event be stored twice |
| AuditStories.AcceptedIff | llm-security-control-plane/application-gateway/audit_delivery.py:64-83 | a new event is accepted exactly when the queue has room and its body has at most 16384 bytes |
| AuditStories.EnqueuedIff | llm-security-control-plane/application-gateway/audit_delivery.py:64-83 | the sender by itself: room, size and a new identifier decide; the rejected are counted, and a repeated identifier changes nothing |
| AuditStories.OnlyDeliveryRemoves | llm-security-control-plane/application-gateway/audit_delivery.py:85-104 | a waiting event leaves the queue in exactly one step, the deletion after its own acknowledgement, and that step alone counts a delivery |
| AuditStories.OnlyShippingRemoves | examples/security-monitoring/log_delivery.py:44-76 | the same for a waiting log |
| AuditStories.PendingIffUndelivered | llm-security-control-plane/application-gateway/audit_delivery.py:64-104 | over every run an accepted event is pending exactly until it is delivered, and never again after that |
| AuditStories.WorkersKeepTheirRow | llm-security-control-plane/application-gateway/audit_delivery.py:85-104 | a busy worker or shipper keeps its row until the post ends; only a crash makes it forget |
| AuditStories.UndisturbedPostDelivers | llm-security-control-plane/application-gateway/audit_delivery.py:85-104 | an undisturbed post that the collector takes, as new or as a duplicate, commits a longest waiting event, removes it alone and counts it |
| AuditStories.FailedPostKeeps | llm-security-control-plane/application-gateway/audit_delivery.py:85-104 | a post that fails keeps the queue and counts one failure |
| AuditStories.UndisturbedShippingDelivers | examples/security-monitoring/log_delivery.py:44-76 | the same for shipping a log, delivered or failed |
| AuditStories.WithoutLogsNothingIsQueued | examples/security-monitoring/app.py:371-405 | a collector that ships no logs never queues one |
| AuditStories.ReceiptIs | examples/security-monitoring/app.py:371-405 | a posted event is a duplicate, refused with 503, failed with 500 or stored exactly as the table, the backlog and a waiting log say, and a log is queued only where logs are shipped |
| AuditStories.ContentIsKept | llm-security-control-plane/application-gateway/audit_delivery.py:64-104 | over every run an accepted event keeps its body wherever it is later pending, posted, stored or logged, and its creation time while it is pending |
| AuditStories.PendingTellsTheRun | llm-security-control-plane/application-gateway/audit_delivery.py:78-83 | every pending row was accepted with exactly its body and creation time |
| AuditStories.RecordsTellTheRun | examples/security-monitoring/app.py:371-405 | every event row and log row holds the body, the timestamp and, for the log, the creation time of a request that stored it |
| AuditStories.CountersBalance | llm-security-control-plane/application-gateway/audit_delivery.py:64-104 | every new event is accepted or rejected, and every post, of an event or of a log, is delivered, failed, lost in a crash or under way: all six counters balance over every run |
| AuditStories.KeptIff | examples/security-monitoring/app.py:402-405 | storing a request keeps an event exactly when it is at most a day old or its log still waits |
| PolicyStore.Store.Start | llm-security-control-plane/guardrail-proxy/policy_store.py:19-53 | loads the digest in the active pointer, or seeds an empty directory, and repairs the activation markers; a start that cannot load leaves everything but a missing pointer as it was |
| PolicyStore.Store.CreateDraft | llm-security-control-plane/guardrail-proxy/policy_store.py:93-154 | stores a content-addressed bundle and its draft metadata, or refuses without change |
| PolicyStore.Store.CreateSeedDraft | llm-security-control-plane/guardrail-proxy/policy_store.py:156-194 | drafts the seed bundle against the active digest, or refuses without change |
| PolicyStore.Store.MarkTested | llm-security-control-plane/guardrail-proxy/policy_store.py:241-252 | stamps a draft tested against the active digest, or refuses without change |
| PolicyStore.Store.Promote | llm-security-control-plane/guardrail-proxy/policy_store.py:254-269 | activates a draft tested at most 3600 seconds before against the digest it replaces, or refuses without change |
| PolicyStore.Store.Rollback | llm-security-control-plane/guardrail-proxy/policy_store.py:271-287 | points back to an earlier active digest, or refuses without change |
| PolicyStore.NextKeepsInv | llm-security-control-plane/guardrail-proxy/policy_store.py:30-68 | every operation, restart, and crash after any write of a start, promotion or rollback keeps the store's invariants |
| PolicyStore.MarkersAreHistory | llm-security-control-plane/guardrail-proxy/policy_store.py:30-68 | over every run with crashes, while a process serves the activation markers are exactly the digests the pointer has ever held, and every pointer change is the seed, a justified promotion or a rollback to an earlier digest |
| PolicyStore.RecoveryAlwaysServes | llm-security-control-plane/guardrail-proxy/policy_store.py:30-53 | wherever a process died, the next complete start serves the digest in the active pointer and restores the missing marker |
| PromotionStories.RestartServesTheSame | llm-security-control-plane/guardrail-proxy/policy_store.py:19-53 | from every reachable state, a process that dies serves nothing, and the next complete start serves what it served, with the same drafts |
| PolicyStore.RollbackIff | llm-security-control-plane/guardrail-proxy/policy_store.py:271-287 | a rollback takes effect if and only if it names the active digest as expected and a different digest of the history |
| PolicyStore.RaisedPromotionMarksIff | llm-security-control-plane/guardrail-proxy/policy_store.py:254-269 | when a write of a promotion raises in a serving process, the markers still equal the history if and only if it was not the marker write, or the digest was active before |
| PolicyStore.LostMarkerStaysLost | llm-security-control-plane/guardrail-proxy/policy_store.py:44-53 | after such a loss and a rollback, no complete restart brings the marker back |
| PromotionStories.MetadataTellsTheRun | llm-security-control-plane/guardrail-proxy/policy_store.py:93-269 | over all runs with crashes the metadata of each draft tells who drafted it first and against what, its last test, and the one promotion that completed |
| PromotionStories.CompletedIsFinal | llm-security-control-plane/guardrail-proxy/policy_store.py:241-269 | over all runs with crashes a draft whose promotion completed is active for ever, never again testable or promotable, its base is remembered by the start-up loop, and no second promotion of it completes |
| PromotionStories.TestAcceptedIff | llm-security-control-plane/guardrail-proxy/policy_store.py:241-252 | a test is accepted exactly when it names the active policy, the draft was first requested against it, and no promotion of the draft completed |
| PromotionStories.PromotionIff | llm-security-control-plane/guardrail-proxy/policy_store.py:254-269 | in every reachable serving state a promotion takes effect exactly when it names the active policy, the draft's last test was against that policy and at most 3600 seconds before, and no promotion of the draft completed; otherwise nothing changes |
| PromotionStories.DraftAnswers | llm-security-control-plane/guardrail-proxy/policy_store.py:93-194 | drafting stores the bundle and answers with the stored metadata unless it has another base; no other draft changes |
| PromotionStories.StartRemembersBases | llm-security-control-plane/guardrail-proxy/policy_store.py:50-53 | a complete start marks the base of every draft whose promotion completed, whatever markers there are |
| PromotionStories.LaterIff | llm-security-control-plane/guardrail-proxy/policy_store.py:156-175 | a seed is newer exactly when its version number is larger at the first difference or longer |
| CaseCapabilities.Gateway.Create | llm-security-control-plane/guided-bedrock-gateway/h07_backend.py:217-288 | issues one capability per case and role and the suite row together, or refuses a repeated key unchanged |
| CaseCapabilities.Gateway.Reserve | llm-security-control-plane/guided-bedrock-gateway/h07_backend.py:304-362 | reserves an issued capability in its exact scope; a late request is refused and expires it; every other refusal changes nothing |
| CaseCapabilities.Gateway.Fail | llm-security-control-plane/guided-bedrock-gateway/h07_backend.py:365-371 | fails a reserved capability and leaves any other alone |
| CaseCapabilities.Gateway.Complete | llm-security-control-plane/guided-bedrock-gateway/h07_backend.py:474-548 | adds the call row and completes the capability together, or fails the capability when the evidence is already recorded |
| CaseCapabilities.Gateway.Chat | llm-security-control-plane/guided-bedrock-gateway/h07_backend.py:700-727 | one request from reserve to its end: it answers exactly when the reservation, the provider and the record succeed, and no capability it touched stays reserved |
| CaseCapabilities.Gateway.CloseCase | llm-security-control-plane/guided-bedrock-gateway/h07_backend.py:578-599 | closes a case after all earlier ones and with nothing in flight, closing unused capabilities; idempotent |
| CaseCapabilities.Gateway.CloseSuite | llm-security-control-plane/guided-bedrock-gateway/h07_backend.py:617-651 | closes a suite with nothing in flight; idempotent |
| CaseCapabilities.BuildRows | llm-security-control-plane/guided-bedrock-gateway/h07_backend.py:226-265 | the issuing loop produces the row of every case and role |
| CaseCapabilities.IssuedOncePerRole | llm-security-control-plane/guided-bedrock-gateway/h07_backend.py:226-265 | distinct tokens give exactly one capability per case and role |
| CaseCapabilities.IssuedRowAt | llm-security-control-plane/guided-bedrock-gateway/h07_backend.py:226-265 | each token's row has the scope of its place |
| CaseCapabilities.NextKeepsInv | llm-security-control-plane/guided-bedrock-gateway/h08_backend.py:318-654 | every step of every concurrent request keeps the call, closure and scope invariants, and only settles open capabilities or issues for a new suite |
| CaseCapabilities.CalledIffCompleted | llm-security-control-plane/guided-bedrock-gateway/h07_backend.py:304-371 | under every interleaving a call row exists for a capability if and only if it is completed; no capability and no provider request has two rows |
| CaseCapabilities.ClosedCasesArePrefix | llm-security-control-plane/guided-bedrock-gateway/h07_backend.py:578-599 | the closed cases of every suite are a prefix of the contract's order |
| CaseCapabilities.OpenIsElsewhere | llm-security-control-plane/guided-bedrock-gateway/h07_backend.py:578-599 | an open capability is outside every closed prefix |
| CaseCapabilities.ClosedEvidenceIsFinal | llm-security-control-plane/guided-bedrock-gateway/h07_backend.py:578-614 | from the moment a case closes, the calls, capabilities and closing time its ledger returns never change, whatever follows |
| CaseCapabilities.GrantedOnce | llm-security-control-plane/guided-bedrock-gateway/h08_backend.py:318-376 | one use: a token that was granted once is refused at every later attempt |
| CapabilityStories.CapabilitiesTellTheRun | llm-security-control-plane/guided-bedrock-gateway/h07_backend.py:217-371 | over every run each capability tells which case and role it was issued for; it was granted, exactly if reserved, completed or failed, to its own token signed for its scope, in an open suite before its expiry; expired means an attempt at or after it; and completion, failure and closing are as recorded |
| CapabilityStories.CallsTellTheRun | llm-security-control-plane/guided-bedrock-gateway/h07_backend.py:474-548 | each call row holds the provider request and record of the completion that wrote it and repeats its capability's whole scope and time |
| CapabilityStories.ClosuresTellTheRun | llm-security-control-plane/guided-bedrock-gateway/h07_backend.py:578-651 | creation and closing times are those of the requests that created and closed |
| CapabilityStories.GrantedIff | llm-security-control-plane/guided-bedrock-gateway/h07_backend.py:304-362 | a request is granted exactly to the capability's own token, signed for its scope, with its model, while the suite is open and the capability unused and not expired |
| CapabilityStories.AnswersAre | llm-security-control-plane/guided-bedrock-gateway/h08_backend.py:318-376 | 401, 403 and 409 exactly for unknown, out of scope or late, and spent or closed; a late request expires the capability and nothing else changes anything |
| CapabilityStories.CreatedIff | llm-security-control-plane/guided-bedrock-gateway/h07_backend.py:217-288 | a suite is created exactly with a new name, new different tokens and different executions, and then every token has its capability |
| CapabilityStories.CompletedIff | llm-security-control-plane/guided-bedrock-gateway/h07_backend.py:474-548 | a completion is accepted exactly for a reserved capability under an unused provider request |
| CapabilityStories.CaseClosedIff | llm-security-control-plane/guided-bedrock-gateway/h07_backend.py:578-599 | a case closes exactly when its suite is open, all earlier cases closed and nothing in it is under way; again, it returns the recorded time |
| CapabilityStories.SuiteClosedIff | llm-security-control-plane/guided-bedrock-gateway/h07_backend.py:617-651 | a suite closes exactly when nothing in it is under way, and once |
| CapabilityStories.CreatingTakesEffect | llm-security-control-plane/guided-bedrock-gateway/h07_backend.py:217-288 | in a run a suite comes into being exactly by a creation that may make it |
| CapabilityStories.EndingTakesEffect | llm-security-control-plane/guided-bedrock-gateway/h07_backend.py:474-651 | in a run a capability ends, a case closes and a suite closes exactly by the requests that may do so |
| CapabilityStories.LedgerHolds | llm-security-control-plane/guided-bedrock-gateway/h07_backend.py:602-614 | a closed case's ledger holds the closing time, every call of the closed prefix in order, and every capability of it as it is |
| CapabilityStories.CaseLedgerIff | llm-security-control-plane/guided-bedrock-gateway/h07_backend.py:602-614 | a case has a ledger exactly when it was closed; a name outside the contract gets 422, an open case 409 |
| SuiteGrants.CapabilityStore.Issue | llm-security-control-plane/guided-bedrock-gateway/p12_capabilities.py:49-73 | issues four grants per execution for 1 to 32 distinct executions of a new suite, or refuses unchanged |
| SuiteGrants.CapabilityStore.BuildRows | llm-security-control-plane/guided-bedrock-gateway/p12_capabilities.py:61-70 | the nested loop inserts the grant of every execution and role in order |
| SuiteGrants.CapabilityStore.Reserve | llm-security-control-plane/guided-bedrock-gateway/p12_capabilities.py:75-96 | reserves an issued grant in scope and in time; every refusal leaves the grant as it was |
| SuiteGrants.CapabilityStore.Complete | llm-security-control-plane/guided-bedrock-gateway/p12_capabilities.py:98-143 | records the provider identity and completes the grant together, or refuses unchanged |
| SuiteGrants.CapabilityStore.Fail | llm-security-control-plane/guided-bedrock-gateway/p12_capabilities.py:145-150 | moves a reserved grant to error, otherwise refuses |
| SuiteGrants.CapabilityStore.Close | llm-security-control-plane/guided-bedrock-gateway/p12_capabilities.py:152-163 | closes a suite without unresolved grants, closing unused ones; keeps the first closing time |
| SuiteGrants.NextKeepsInv | llm-security-control-plane/guided-bedrock-gateway/p12_capabilities.py:49-163 | every step keeps grants, provider identities and closures consistent and only settles open grants |
| SuiteGrants.ProvidersMatchCompletedGrants | llm-security-control-plane/guided-bedrock-gateway/p12_capabilities.py:136-143 | recorded provider identities and completed grants are in bijection in every reachable state |
| SuiteGrants.FourGrantsPerExecution | llm-security-control-plane/guided-bedrock-gateway/p12_capabilities.py:49-73 | a suite issued for n executions has exactly 4n grants for ever, exactly one for each execution and role |
| SuiteGrants.CloseIsFinal | llm-security-control-plane/guided-bedrock-gateway/p12_capabilities.py:152-163 | after a close every grant is completed, error or closed unused, and no later step changes the suite's ledger |
| SuiteGrants.ReservedOnce | llm-security-control-plane/guided-bedrock-gateway/p12_capabilities.py:75-96 | one use: a token reserved once is refused at every later attempt |
| GrantStories.GrantsTellTheRun | llm-security-control-plane/guided-bedrock-gateway/p12_capabilities.py:49-163 | over every run each grant tells its execution and role, that it was granted to its own token for its scope and model within 180 seconds of issue, and how it ended, with provider and record |
| GrantStories.IssuedIff | llm-security-control-plane/guided-bedrock-gateway/p12_capabilities.py:49-73 | a suite is issued exactly with a new name, 1 to 32 different executions and new different tokens |
| GrantStories.GrantedIff | llm-security-control-plane/guided-bedrock-gateway/p12_capabilities.py:75-96 | a request is granted exactly to the unused grant's own token for its scope and model, in time, in an open suite |
| GrantStories.RefusalsAre | llm-security-control-plane/guided-bedrock-gateway/p12_capabilities.py:75-96 | which refusal a request gets, 401, 403 or 409, and that none changes anything |
| GrantStories.CompletedIff | llm-security-control-plane/guided-bedrock-gateway/p12_capabilities.py:98-143 | a completion is accepted exactly for a reserved grant under a provider identity no grant has, with input evidence for Main, and answers what it records |
| GrantStories.IssuingTakesEffect | llm-security-control-plane/guided-bedrock-gateway/p12_capabilities.py:49-73 | in a run a suite comes into being exactly by a request that may issue it |
| GrantStories.EndingTakesEffect | llm-security-control-plane/guided-bedrock-gateway/p12_capabilities.py:98-163 | in a run a grant ends and a suite closes exactly by the requests that may do so |
| GrantStories.ClosedIff | llm-security-control-plane/guided-bedrock-gateway/p12_capabilities.py:152-163 | a suite closes exactly when none of its grants is reserved, and the first close fixes the time |
| GrantStories.LedgerIs | llm-security-control-plane/guided-bedrock-gateway/p12_capabilities.py:165-174 | the ledger of a suite is its row and exactly its grants |
| CallLedger.Ledger.Register | llm-security-control-plane/guided-bedrock-gateway/p02_ledger.py:64-79 | inserts an open execution, or refuses a bad stamp or repeated key unchanged |
| CallLedger.Ledger.Reserve | llm-security-control-plane/guided-bedrock-gateway/p02_ledger.py:108-129 | appends the next pending call within 180 seconds when nothing is pending, failed or repeated; otherwise refuses unchanged |
| CallLedger.Ledger.Finish | llm-security-control-plane/guided-bedrock-gateway/p03_ledger.py:113-145 | completes or fails the pending call with identifiers that are unique over all executions, or refuses unchanged |
| CallLedger.Ledger.Close | llm-security-control-plane/guided-bedrock-gateway/p02_ledger.py:162-173 | closes an execution without pending calls at a stamp not before any recorded one; idempotent |
| CallLedger.NextKeepsInv | llm-security-control-plane/guided-bedrock-gateway/p03_ledger.py:90-158 | every step keeps the shape of every execution and the uniqueness of both identifier columns, on any clock |
| CallLedger.LedgerShape | llm-security-control-plane/guided-bedrock-gateway/p02_ledger.py:108-173 | on any clock: sequences are exactly 1..n with n <= 2, no operation repeats, and only the last call may be incomplete |
| CallLedger.IdentifiersAreUnique | llm-security-control-plane/guided-bedrock-gateway/p03_ledger.py:113-145 | a provider or observation identifier names one call of one execution, on any clock |
| CallLedger.ClosedIsFinal | llm-security-control-plane/guided-bedrock-gateway/p02_ledger.py:162-186 | after a close the read record is the same under every later operation |
| CallLedger.AlwaysClosable | llm-security-control-plane/guided-bedrock-gateway/p02_ledger.py:131-173 | from every reachable state an error finish of the pending call, if any, and a close at a late enough stamp reach closed, at any age |
| CallLedger.NextKeepsOrder | llm-security-control-plane/guided-bedrock-gateway/p03_ledger.py:90-158 | on a clock that does not run backwards every step keeps calls one after another inside their execution |
| CallLedger.ReserveKeepsSequenceIff | llm-security-control-plane/guided-bedrock-gateway/p02_ledger.py:121-128 | on any clock an accepted reserve keeps the calls of its execution one after another if and only if its stamp is not before the end of the last one |
| CallLedger.OthersKeepSequence | llm-security-control-plane/guided-bedrock-gateway/p03_ledger.py:113-158 | no register, finish, close or reserve elsewhere, on any clock, puts the calls of an execution in or out of sequence |
| CallLedger.NextSequence | llm-security-control-plane/guided-bedrock-gateway/p02_ledger.py:64-173 | both for any step and execution: a new execution starts in sequence, and an existing one stays in it exactly unless an accepted reserve on it is stamped too early |
| CallLedger.CallsAreSeparateIff | llm-security-control-plane/guided-bedrock-gateway/p02_ledger.py:108-173 | the exact condition over every run and on any clock: the calls of a closed execution lie inside it and do not overlap if and only if every accepted reserve on it was stamped not before the end of the call before it |
| CallLedger.CallsDoNotOverlap | llm-security-control-plane/guided-bedrock-gateway/p02_ledger.py:108-173 | so on a clock that does not run backwards the calls of a closed execution do not overlap and lie inside it |
| CallLedger.OrderNeedsTheClock | llm-security-control-plane/guided-bedrock-gateway/p02_ledger.py:121-128 | a run that meets the other side of that condition: its second call starts before the first one finished, since the reserve never compares with the previous finish |
| CallStories.ExecutionsTellTheRun | llm-security-control-plane/guided-bedrock-gateway/p02_ledger.py:64-173 | over every run, on any clock, each execution tells who registered and closed it, and each call that it was reserved with the execution's own token and suite less than 180 seconds after its start, and how it ended |
| CallStories.RegisteredIff | llm-security-control-plane/guided-bedrock-gateway/p02_ledger.py:64-79 | a registration is accepted exactly with a new execution and a new token |
| CallStories.ReservedIff | llm-security-control-plane/guided-bedrock-gateway/p02_ledger.py:108-129 | a reserve is accepted exactly with the execution's token and suite, while open and younger than 180 seconds, when every earlier call is complete and the operation new |
| CallStories.FinishedIff | llm-security-control-plane/guided-bedrock-gateway/p03_ledger.py:113-145 | a call ends exactly while it is the pending newest one of an open execution, by a failure or by a response with its profile's identifiers, all unused |
| CallStories.ClosedIff | llm-security-control-plane/guided-bedrock-gateway/p02_ledger.py:162-173 | an execution closes exactly at a stamp not before anything it recorded, with nothing pending; again, it returns the recorded stamp |
| DocumentProvider.Provider.Invoke | llm-security-control-plane/guided-bedrock-gateway/p02_provider.py:31-49 | one invocation equals reserve, then finish with the adapter's evidence, or else an error finish and a 502 |
| DocumentProvider.InvokeSettles | llm-security-control-plane/guided-bedrock-gateway/p02_provider.py:31-49 | an undisturbed invocation with stamps not before its reserve never leaves its call pending |
| DocumentProvider.NextIsLedgerStep | llm-security-control-plane/guided-bedrock-gateway/p02_provider.py:31-49 | every step of any number of concurrent invocations is one ledger step or none |
| DocumentProvider.NextKeepsLinked | llm-security-control-plane/guided-bedrock-gateway/p02_provider.py:41-49 | the invocation in flight for an operation is the one that reserved its row |
| DocumentProvider.NextKeepsHonest | llm-security-control-plane/guided-bedrock-gateway/p02_provider.py:51-93 | every recorded response is the adapter's evidence for the payload whose digest was reserved |
| DocumentProvider.RunKeepsHonest | llm-security-control-plane/guided-bedrock-gateway/p02_provider.py:31-93 | both hold in every reachable state on any clock |
| DocumentProvider.RunKeepsGood | llm-security-control-plane/guided-bedrock-gateway/p02_provider.py:31-93 | the same, with the ledger's shape, uniqueness and order, hold in every reachable state on a clock that does not run backwards |
| ProviderStories.EvidenceIs | llm-security-control-plane/guided-bedrock-gateway/p02_provider.py:51-93 | the adapter answers exactly for a proper payload and a complete reply under a usable identifier, with the address, hash, length and model numbers it records |
| ProviderStories.CompletedCallsHoldEvidence | llm-security-control-plane/guided-bedrock-gateway/p02_provider.py:31-93 | over every run, on any clock, each completed call holds the evidence of the payload it reserved |
| ProviderStories.InvokeRecords | llm-security-control-plane/guided-bedrock-gateway/p02_provider.py:31-49 | an invocation leaves nothing, or one new call of its payload: completed with the very response it answers, or without a response |
| ProviderStories.InvokeIff | llm-security-control-plane/guided-bedrock-gateway/p02_provider.py:31-49 | an invocation answers exactly when its payload fits, its call is reserved, the adapter answers and the ledger accepts |
| ProviderStories.StagesRefineInvoke | llm-security-control-plane/guided-bedrock-gateway/p02_provider.py:31-49 | the concurrent stages, run with nothing in between, leave the ledger as the undisturbed invocation does |
| ProviderStories.InvokeRefusals | llm-security-control-plane/guided-bedrock-gateway/p02_provider.py:31-49 | which refusal an invocation answers, and that after its reservation 502 means exactly a call recorded as an error and 409 exactly one left pending |
| ProviderStories.LifeTakesEffect | llm-security-control-plane/guided-bedrock-gateway/p02_ledger.py:64-173 | in a run an execution comes into being and closes exactly by the requests that may do so |
| ProviderStories.FailingIsFinal | llm-security-control-plane/guided-bedrock-gateway/p02_provider.py:31-49 | a failing invocation can only be given up, and one that is not failing cannot |
| DocumentVerifier.VerifyCase | llm-security-control-plane/guided-evidence-verifier/p02_results.py:35-124 | the one-pass check accepts exactly the acceptable records and names the provider requests in order |
| DocumentVerifier.RunIsAccepted | llm-security-control-plane/guided-evidence-verifier/p02_results.py:35-124 | completeness: after any interleaving, a case that ran through the provider, closed within 180 seconds and is truthfully reported is accepted if and only if its vector is normalised; the ledger guarantees every other check |
| DocumentVerifier.AcceptedWasProvided | llm-security-control-plane/guided-evidence-verifier/p02_results.py:65-105 | soundness against any report: whatever the worker and the reading claim, an accepted valid case was stored and embedded by this provider, in the verifier's own mode and bucket, for the case's own payloads |
| DocumentVerifier.AcceptedIsSequential | llm-security-control-plane/guided-evidence-verifier/p02_results.py:62-95 | soundness: an accepted valid case holds exactly two completed calls, store before embedding, not overlapping, inside the interval, on the case's own payloads, with three different request identities |
| DocumentVerifier.AcceptedEvidenceIs | llm-security-control-plane/guided-evidence-verifier/p02_results.py:96-120 | soundness for the evidence: the stored object and the reading are fixed by the case, the bucket and the mode; of the embedding only the vector, the token count and the norm within 0.001 are free |
| DocumentVerifier.ClientsMatchIff | llm-security-control-plane/guided-evidence-verifier/p02_results.py:54-64 | under native checks the worker of a valid case used exactly one S3 and one Bedrock client, in either order, both native and in the one region |
| DocumentVerifier.AcceptedReportsAgree | llm-security-control-plane/guided-evidence-verifier/p02_results.py:35-124 | under native checks two reports accepted for the same record are the same up to the order of the clients, and two accepted readings differ in their identifier only |
| DocumentVerifier.AcceptedInvalidIsEmpty | llm-security-control-plane/guided-evidence-verifier/p02_results.py:35-61 | an accepted invalid case reserved and reported no call and made no client |
| GuardrailLedger.Ledger.Register | llm-security-control-plane/guided-bedrock-gateway/p04_ledger.py:66-92 | inserts an open execution, or refuses unchanged |
| GuardrailLedger.Ledger.Reserve | llm-security-control-plane/guided-bedrock-gateway/p04_ledger.py:125-150 | inserts the execution's only call within 180 seconds, or refuses unchanged |
| GuardrailLedger.Ledger.Dispatch | llm-security-control-plane/guided-bedrock-gateway/p04_ledger.py:152-159 | stamps the dispatch of a pending call once |
| GuardrailLedger.Ledger.PolicyAudit | llm-security-control-plane/guided-bedrock-gateway/p04_ledger.py:161-193 | records one receipt per phase in its place between start, dispatch and stamp, with fresh request identifiers and the registered resources, or refuses unchanged |
| GuardrailLedger.Ledger.Finish | llm-security-control-plane/guided-bedrock-gateway/p04_ledger.py:195-226 | completes a dispatched call or records an error, within 180 seconds and with unique identifiers, or refuses unchanged |
| GuardrailLedger.Ledger.Close | llm-security-control-plane/guided-bedrock-gateway/p04_ledger.py:228-240 | closes an execution without pending call at a late enough stamp; idempotent |
| GuardrailLedger.NextInOrder | llm-security-control-plane/guided-bedrock-gateway/p04_ledger.py:100-240 | on a clock that does not run backwards every step keeps all stamps of an execution in order |
| GuardrailLedger.NextKeepsLinked | llm-security-control-plane/guided-bedrock-gateway/p04_ledger.py:100-240 | on any clock every step keeps the comparisons that the transactions make between an execution's stamps, audits and resources |
| GuardrailLedger.NextObservedIff | llm-security-control-plane/guided-bedrock-gateway/p04_ledger.py:152-226 | on any clock a step leaves the observations before their dispatch and completion exactly when it is not an accepted dispatch or completion stamped before the audit it follows |
| GuardrailLedger.OrderNeedsTheClock | llm-security-control-plane/guided-bedrock-gateway/p04_ledger.py:152-193 | a run, with a reading that steps back, whose accepted dispatch is stamped before the audit before it was observed |
| GuardrailLedger.NextKeepsRegistered | llm-security-control-plane/guided-bedrock-gateway/p04_ledger.py:161-193 | every recorded audit request identifier is registered to its own execution and phase |
| GuardrailLedger.NextCarries | llm-security-control-plane/guided-bedrock-gateway/p04_ledger.py:66-240 | no step changes an execution's identity, a finished call or anything of a closed execution, nor withdraws an audit |
| GuardrailLedger.OnlyFinishCompletes | llm-security-control-plane/guided-bedrock-gateway/p04_ledger.py:195-226 | a call becomes complete only by a finish with a response |
| GuardrailLedger.ClosableIffYoung | llm-security-control-plane/guided-bedrock-gateway/p04_ledger.py:100-107 | at a late enough stamp an execution can be cleared and closed if and only if it is closed already, has no pending call, or is younger than 180 seconds |
| GuardrailLedger.StuckForever | llm-security-control-plane/guided-bedrock-gateway/p04_ledger.py:100-107 | a call pending at 180 seconds stays pending and unclosable under all later steps with stamps not before that |
| GuardrailStories.ExecutionsTellTheRun | llm-security-control-plane/guided-bedrock-gateway/p04_ledger.py:66-240 | over every run, on any clock, each execution tells who registered, reserved, dispatched, audited, finished and closed it, with what and when |
| GuardrailStories.RegisteredIff | llm-security-control-plane/guided-bedrock-gateway/p04_ledger.py:66-92 | a registration is accepted exactly with a new execution and a new token |
| GuardrailStories.ReservedIff | llm-security-control-plane/guided-bedrock-gateway/p04_ledger.py:125-150 | a reserve is accepted exactly with the execution's token and suite, while it is open, without a call and younger than 180 seconds |
| GuardrailStories.DispatchedIff | llm-security-control-plane/guided-bedrock-gateway/p04_ledger.py:152-159 | a dispatch is accepted exactly once, while the call is pending in an open execution younger than 180 seconds |
| GuardrailStories.AuditedIff | llm-security-control-plane/guided-bedrock-gateway/p04_ledger.py:161-193 | an audit is accepted exactly in its place: registered resources, under 12 seconds, between start, dispatch and stamp, once per phase, with three new request identifiers |
| GuardrailStories.FinishedIff | llm-security-control-plane/guided-bedrock-gateway/p04_ledger.py:195-226 | a call ends exactly while it may be written and not before its dispatch; a completion also needs the dispatch, the size and, for AWS, an unused identifier |
| GuardrailStories.ClosedIff | llm-security-control-plane/guided-bedrock-gateway/p04_ledger.py:228-240 | an execution closes exactly at a stamp not before anything it recorded, with nothing pending |
| GuardrailInvocation.Invocation.Invoke | llm-security-control-plane/guided-bedrock-gateway/p04_invocation.py:20-41 | the coordinator's success path and every failure path, as one composition of ledger steps |
| GuardrailInvocation.Invocation.Try | llm-security-control-plane/guided-bedrock-gateway/p04_invocation.py:22-36 | the guarded part stops exactly where the first stage fails |
| GuardrailInvocation.StagesRefineInvoke | llm-security-control-plane/guided-bedrock-gateway/p04_invocation.py:20-41 | the separately interleaved stages, run with nothing in between, leave the database exactly as the undisturbed invocation does |
| GuardrailInvocation.NextIsTransaction | llm-security-control-plane/guided-bedrock-gateway/p04_invocation.py:20-41 | every stage of any number of concurrent invocations is one ledger transaction or none |
| GuardrailInvocation.NextKeepsStaged | llm-security-control-plane/guided-bedrock-gateway/p04_invocation.py:20-41 | how far an invocation under an auditor has come says which audits are recorded |
| GuardrailInvocation.NextKeepsEvidenced | llm-security-control-plane/guided-bedrock-gateway/p04_invocation.py:20-41 | with an auditor every complete call has both audits |
| GuardrailInvocation.CompleteCallsAreAudited | llm-security-control-plane/guided-bedrock-gateway/p04_ledger.py:161-240 | on a clock that does not run backwards, every complete call under an auditor has execution start <= call start <= before-audit <= dispatch <= after-audit <= finish < start + 180, close >= finish, and both audits on the registered resources |
| GuardrailInvocation.EvidenceIsOrderedIff | llm-security-control-plane/guided-bedrock-gateway/p04_ledger.py:152-226 | on any clock, the same chain holds of a complete call under an auditor if and only if its accepted dispatch and completion were stamped not before the observation of the audit each follows |
| GuardrailInvocation.AuditRequestsAreDistinct | llm-security-control-plane/guided-bedrock-gateway/p04_ledger.py:187-191 | an audit request identifier occurs in one place of one receipt over all executions, on any clock |
| GuardrailInvocation.StuckStays | llm-security-control-plane/guided-bedrock-gateway/p04_ledger.py:100-107 | the same finality for the running coordinators: a call pending at 180 seconds is never completed and never closable |
| InvocationStories.CompletedWasChecked | llm-security-control-plane/guided-bedrock-gateway/p04_invocation.py:20-41 | over every interleaving and on any clock a complete call was validated against unchanged resources, then answered by the provider with the resources unchanged, and holds that answer |
| InvocationStories.StagesAdvance | llm-security-control-plane/guided-bedrock-gateway/p04_invocation.py:20-41 | no step takes an invocation back, and none touches another invocation |
| InvocationStories.InvocationAnswers | llm-security-control-plane/guided-bedrock-gateway/p04_invocation.py:15-41 | an undisturbed invocation answers exactly when it leaves a complete call, with the provider's response and both audits as they were given; a refused reservation is passed on, and everything else is one 502 |
| GuardrailSuite.Verify | llm-security-control-plane/guided-evidence-verifier/p04_suite_results.py:39-89 | the whole-suite check accepts exactly the acceptable evidence and returns one result per case in contract order |
| GuardrailSuite.CheckCases | llm-security-control-plane/guided-evidence-verifier/p04_suite_results.py:63-86 | the loop over neighbours and seen-sets decides the statement about all pairs |
| GuardrailSuite.Remember | llm-security-control-plane/guided-evidence-verifier/p04_suite_results.py:77-79 | the inner loop accepts exactly when the audit requests repeat neither each other nor anything seen |
| GuardrailSuite.ChainOrdersAll | llm-security-control-plane/guided-evidence-verifier/p04_suite_results.py:64-67 | comparing neighbours orders every pair of executions |
| GuardrailSuite.AcceptedIdentifiersAreGlobal | llm-security-control-plane/guided-evidence-verifier/p04_suite_results.py:72-79 | in accepted evidence no provider or audit request of one execution occurs in another or twice in one |
| GuardrailSuite.AcceptedExecutionsAreDisjoint | llm-security-control-plane/guided-evidence-verifier/p04_suite_results.py:63-67 | accepted executions are pairwise disjoint in contract order inside [prepared, finished], and span less than 180 seconds |
| GuardrailSuite.AcceptedIsBound | llm-security-control-plane/guided-evidence-verifier/p04_suite_results.py:39-62 | accepted evidence is bound to the owned files, runner and contract, to one suite's labels, cases and resources, and to the 30, 180 and 900 second limits |
| TokenQuota.GatewayOperations.Admit | llm-security-control-plane/bedrock-gateway/gateway_operations.py:82-101 | books a reservation within both quotas of the principal's window, or refuses unchanged |
| TokenQuota.GatewayOperations.Settle | llm-security-control-plane/bedrock-gateway/gateway_operations.py:103-114 | replaces a pending reservation by the provider's usage, never above the reservation |
| TokenQuota.GatewayOperations.MarkUncertain | llm-security-control-plane/bedrock-gateway/gateway_operations.py:116-118 | marks a pending reservation uncertain and touches nothing else |
| TokenQuota.GatewayOperations.Chat | llm-security-control-plane/bedrock-gateway/server.py:309-342 | the driver never leaves its reservation pending: complete exactly when it answers, otherwise uncertain, and no other row changes |
| TokenQuota.QuotaHolds | llm-security-control-plane/bedrock-gateway/gateway_operations.py:75-101 | in every reachable state, for every principal and window, admissions and committed output are within the policy, and committed = settled + reserved |
| TokenQuota.OnlyAdmissionRaises | llm-security-control-plane/bedrock-gateway/gateway_operations.py:103-118 | no settlement or abandonment raises a committed total or changes a request count |
| TokenQuota.AnySpanHoldsTwiceTheLimits | llm-security-control-plane/bedrock-gateway/gateway_operations.py:72-101 | any span as long as a window, aligned or not, holds at most twice the limits |
| TokenQuota.AlignedSpanIsWindow | llm-security-control-plane/bedrock-gateway/gateway_operations.py:72-80 | a span that starts with a window adds up to that window |
| TokenQuota.RequestsRespectedIff | llm-security-control-plane/bedrock-gateway/gateway_operations.py:42-101 | for every policy that validates: the requests of a span as long as a window stay within the limit in every run if and only if the span starts with a window or the principal can use no model |
| TokenQuota.CommittedRespectedIff | llm-security-control-plane/bedrock-gateway/gateway_operations.py:42-101 | for every policy that validates: the committed output of such a span stays within the limit in every run if and only if it starts with a window, or the principal can use no model, or twice what all requests of a window can reserve is within the limit |
| TokenQuota.TwiceIsReached | llm-security-control-plane/bedrock-gateway/gateway_operations.py:72-101 | the factor two is attained under every such policy: a span that does not start with a window can hold twice the request limit |
| TokenQuota.TwiceTheTokens | llm-security-control-plane/bedrock-gateway/gateway_operations.py:72-101 | and can commit twice what the requests of a window can reserve within its tokens |
| TokenAccounts.AdmittedIff | llm-security-control-plane/bedrock-gateway/gateway_operations.py:82-101 | a request is admitted exactly when model and sizes are allowed, the identifier is new, and the window still respects both quotas with the reservation in it |
| TokenAccounts.SettledIff | llm-security-control-plane/bedrock-gateway/gateway_operations.py:103-114 | a settlement is accepted exactly for a pending reservation of at least its output |
| TokenAccounts.SettlementAccounts | llm-security-control-plane/bedrock-gateway/gateway_operations.py:103-114 | an accepted settlement raises its window's output and input by exactly the reported usage, releases exactly the reservation, and moves no other window |
| TokenAccounts.GivingUpAccounts | llm-security-control-plane/bedrock-gateway/gateway_operations.py:116-118 | giving up moves no total: an uncertain reservation stays committed in full |
| TokenAccounts.RowsTellTheRun | llm-security-control-plane/bedrock-gateway/gateway_operations.py:82-118 | over every run each row was admitted by a request of its principal that the policy allows, and a complete row holds the usage of an accepted settlement |
| TokenAccounts.SettlementIsFinal | llm-security-control-plane/bedrock-gateway/gateway_operations.py:103-114 | an accepted settlement is the only one of its identifier, and its row holds exactly that usage in every later state |
| TokenAccounts.GivenUpIsNotPending | llm-security-control-plane/bedrock-gateway/gateway_operations.py:116-118 | a reservation given up is never pending again |
| TokenAccounts.ModelNameIs | llm-security-control-plane/bedrock-gateway/gateway_operations.py:84 | the model name is the text in front of the first `#` |
| RefreshTokens.AuthService.Record | llm-security-control-plane/application-gateway/auth.py:189-194 | inserts a token with a new identifier, otherwise refuses unchanged |
| RefreshTokens.AuthService.IssuePair | llm-security-control-plane/application-gateway/auth.py:196-209 | inserts the access and the refresh token in order; the first stays when the second is refused |
| RefreshTokens.AuthService.Rotate | llm-security-control-plane/application-gateway/auth.py:256-271 | decodes, spends, issues and links, each step only after the one before |
| RefreshTokens.AuthService.Revoke | llm-security-control-plane/application-gateway/auth.py:273-280 | revokes a token that decodes and otherwise changes nothing |
| RefreshTokens.SecondUseIsReplay | llm-security-control-plane/application-gateway/auth.py:256-265 | after a first use the same claim is refused as a replay and changes nothing |
| RefreshTokens.NextKeepsLineage | llm-security-control-plane/application-gateway/auth.py:189-280 | every interleaved step keeps the order of issue, the links, the exchanges and the one-successor rule |
| RefreshTokens.ExchangedOnce | llm-security-control-plane/application-gateway/auth.py:256-265 | in every interleaving of decode, compare-and-set, inserts and link, a refresh token is exchanged at most once |
| RefreshTokens.OneSuccessorEach | llm-security-control-plane/application-gateway/auth.py:256-271 | at most one refresh token is ever issued for a refresh token |
| RefreshTokens.ReplacedByIsInjective | llm-security-control-plane/application-gateway/auth.py:266-271 | no two tokens are replaced by the same token |
| RefreshTokens.ReplacedByIsAcyclic | llm-security-control-plane/application-gateway/auth.py:266-271 | no chain of replacements returns to a token it passed |
| RefreshTokens.LiveTokensAreCoveredByLogins | llm-security-control-plane/application-gateway/auth.py:196-271 | unrevoked refresh tokens never outnumber successful logins |
| RotationStories.RotationIs | llm-security-control-plane/application-gateway/auth.py:256-271 | an undisturbed rotation succeeds exactly for an unrevoked refresh token and new identifiers, and then spends it, links it to the new refresh token and adds two tokens of its subject; nothing else changes |
| RotationStories.RefusedRotationIs | llm-security-control-plane/application-gateway/auth.py:256-271 | a spent refresh token is a replay and anything else is invalid, and neither changes anything; after a collision of identifiers the presented token stays spent |
| RotationStories.StagesRefineRotate | llm-security-control-plane/application-gateway/auth.py:256-271 | the interleaved stages of a rotation, run with nothing in between, leave the table as `refresh` does |
| RotationStories.StagesRefineLogin | llm-security-control-plane/application-gateway/auth.py:196-209 | the same for a login's pair |
| RotationStories.TokensTellTheRun | llm-security-control-plane/application-gateway/auth.py:189-280 | over every interleaving each row tells who inserted it, with which expiry and for whom, who revoked it and when, and which request linked it |
| RotationStories.SubjectIsInherited | llm-security-control-plane/application-gateway/auth.py:256-271 | with signed claims, in every interleaving a token was replaced by a refresh token of the same subject |
| RotationStories.LoginsAreCounted | llm-security-control-plane/application-gateway/auth.py:196-209 | the count of logins is the number of refresh tokens issued for no other token |
| RotationStories.OthersAreKept | llm-security-control-plane/application-gateway/auth.py:189-280 | a step touches its own request only; one under way is not begun again |
| RotationStories.RevocationTakesEffect | llm-security-control-plane/application-gateway/auth.py:273-280 | a revocation makes its own token unacceptable and no other |
| RotationStories.RevokedForEver | llm-security-control-plane/application-gateway/auth.py:233-252 | once revoked, a token is never accepted again |
| RotationStories.DecodedIff | llm-security-control-plane/application-gateway/auth.py:211-252 | a token is accepted exactly when its claims and its row are of the expected kind and the row is unrevoked; it is a replay exactly when it is a refresh token whose row is revoked |
| LabContract.Index | tools/lab_contract.py:252-260 | the dictionary of events by case has as many entries as events exactly when no case repeats |
| LabContract.CaseIssues | tools/lab_contract.py:263-288 | no issue of a case exactly when its event matches it in every checked field |
| LabContract.ValidateEvidence | tools/lab_contract.py:252-289 | finds no issue if and only if there is exactly one event for each contract case, it matches the case, and there is no other event |
| LabContract.ParseLines | tools/lab_contract.py:292-304 | the parsing loop keeps exactly the nonblank lines that hold a JSON object |
| LabContract.ValidateEnvelope | tools/lab_contract.py:292-338 | the issues of the policy line, the summary line and the hash of the lines between |
| LabRunner.ParseMixed | tools/run_lab_contract.py:36-47 | collects the JSON objects among the lines of the script's output |
| LabRunner.Report | tools/run_lab_contract.py:133-174 | prints exactly when the evidence is complete, and then the policy line, one line per record, and the summary with their hash |
| LabRunner.SummaryIsLast | tools/run_lab_contract.py:165-174 | whatever the record lines hold, the summary line is read back as the last object |
| LabRunner.BrokenLinesChangeTheHash | tools/lab_contract.py:327-337 | a raw line boundary in a record line makes the recomputed hash differ |
| LabRunner.EnvelopeAgrees | tools/lab_contract.py:292-338 | the printed text passes the envelope check if and only if no record bears a reserved event name and no record line holds U+0085, U+2028 or U+2029 |
| LabStories.MaterializedIs | tools/lab_contract.py:273-281 | a case stands for its output, its literal input, or a prefix, a text repeated and a suffix, character by character |
| LabStories.MatchesAgree | tools/lab_contract.py:263-288 | two events that match a case agree in every compared field and show the same text or its hash and size |
| LabStories.UniqueIdsIff | tools/lab_contract.py:94-95 | case identifiers are unique exactly when there are as many as cases |
| LabStories.MixedSelects | tools/run_lab_contract.py:36-47 | the records are those of the lines that hold an object, in order and without omission |
| LabStories.EnvelopeAcceptedIff | tools/lab_contract.py:305-338 | an envelope passes exactly with one matching policy line, one matching summary line, a hexadecimal command digest and the hash of the lines between |
| Text.SplitWithNewlines | tools/lab_contract.py:294-297 | splitting text written line by line gives back the lines when none holds a line boundary |
| Text.SplitUnbroken | tools/lab_contract.py:294-297 | no line that splitting returns holds a line boundary |
| Text.SplitIs | tools/lab_contract.py:294-297 | splitting takes the text apart at its line boundaries and nowhere else; a carriage return and newline are one |
| Text.RestoredIffPlain | tools/toggle_secure_coding_lab.py:41-67 | splitting a text and writing its lines gives it back exactly when every line ends with a plain newline |
| CommentToggle.Toggle | tools/toggle_secure_coding_lab.py:39-67 | in place: succeeds exactly when the pair is found and in a state that can be turned, and then leaves the turned lines |
| CommentToggle.MarkerIff | tools/toggle_secure_coding_lab.py:42-43 | a marker line is anything, the tag of the lab, and then the end, white space or a dash |
| CommentToggle.UncommentComment | tools/toggle_secure_coding_lab.py:24-36 | a comment marker put in can always be taken out again |
| CommentToggle.CommentUncomment | tools/toggle_secure_coding_lab.py:24-36 | commenting again restores an uncommented line exactly when the text behind the marker did not start with a blank |
| CommentToggle.FlipKeepsPlace | tools/toggle_secure_coding_lab.py:42-49 | turning the pair does not change where the pair is found |
| CommentToggle.LocateIs | tools/toggle_secure_coding_lab.py:42-49 | the pair is the first vulnerable and the first safe call among the four lines behind the first marker line |
| CommentToggle.TurnChangesThePair | tools/toggle_secure_coding_lab.py:39-60 | exactly the two calls change, and every other line is as before |
| CommentToggle.RoundTrip | tools/toggle_secure_coding_lab.py:39-67 | turning and turning back restores every line if and only if the text behind the marker begins with neither a blank nor another marker |
| CommentToggle.Idempotent | tools/toggle_secure_coding_lab.py:58-64 | repeating a mode changes nothing if and only if no second marker stood behind the first |
| CommentToggle.FileRoundTrip | tools/toggle_secure_coding_lab.py:39-67 | two turns give the very text of the file back if and only if the text behind the marker is clean and every line, the last one too, ends with a plain newline |

## Left out

- AWS SDK calls, provisioning, audits of live resources and the rest of `resource_cleanup.py`: services that cannot be seen; only their journal step is modelled.
- HTTP routes, bearer-token parsing, Pydantic field limits, metrics, tracing, HTML and command-line parsing: framework work.
- Cryptography and encodings (SHA-256, HMAC, PBKDF2, RS256, JWT claim validation in section 4.1 of RFC 7519, JWK output): abstracted as free constructors and refused tokens; signing-key rotation with them.
- SearchJournal.PreparationStore.Publish: the optional evidence text and its 65536-byte limit are not modelled; a refused text changes nothing.
- GuardrailJournal.PreparationStore.Publish: the `created` flag and the 65536-byte limit on the encoded evidence are not modelled; a refused evidence changes nothing.
- SearchBackend.PreparedCallIff: the case rows that `prepare` inserts and the lookup of a job's row are not modelled; a suite is the row that `prepare` leaves and `lookup` reads.
- `parse_guard_completion`, `parse_classifier_completion` and the contract-mode answers of H07 and H08: what a call row records about a completion is a parameter; `future_calls`, which `case_ledger` also returns, is not frozen and not modelled.
- `authorize`, `authorize_native` and `claim_native_grant` of the ledgers: read-only repetitions of the checks in `reserve`.
- Field types: a JSON field of the wrong type or missing is a refusal in the original; the typed records have no such values.
- CaseCapabilities.Gateway.Complete: the usage, digests and completion fields of a call row are one opaque record, which no step reads.
- SuiteGrants.CapabilityStore.Complete: the field checks of provider usage and Main input are given as a refused or unbound provider answer, not spelled out.
- DocumentProvider.Provider.Invoke: the 32768-byte limit on the encoded payload and the 16384-byte limit on the encoded response are parameters, since they depend on JSON escaping.
- AuditPipeline.NothingLost: one sender worker and one log shipper; the lab reset, which empties the tables on purpose, and the size limits of the collector are left out (a collector refusal may happen at any time).
- EventCollector.EventStore.Persist: of the record built from a posted event (decision, excerpt, hash, trace) the posted text and the timestamp stand for the whole.
- PolicyStore.Store.CreateDraft: the edited bundle is given; the field formats of the request and the editing of the files are not modelled. `PolicyStore.Later` reads decimal digits only, while Python's `int` also accepts signs, blanks and underscores.
- PolicyStore.MarkersAreHistory: an exception inside an operation of a process that goes on serving is treated one promotion at a time (`RaisedPromotionMarksIff`), not inside these runs; a crash inside `create_draft`, whose metadata write is not atomic, is not modelled; nor is the `ACTIVE_BUNDLE` assignment outside the store's lock, nor the regular expressions for versions and prompts.
- GuardrailSuite.Verify: `p04_results.py` and `p04_product.py` are not part of this model; their verdict for each case is an input.
- GuardrailInvocation.Invocation.Invoke: `validate_invocation` and the resource digest comparison are one boolean answer each.
- TokenQuota.GatewayOperations.Admit: an authenticated principal is a precondition, as the route ensures; streaming and response-mode checks come before it.
- LabRunner.Report: the host-script mode over all stages; the Docker mode, which prints the container's log as it is, and stage selection are left out. JSON encoding and decoding are given functions; their round trip on the records of JSON objects (`WellFormed`) is a hypothesis.
- LabContract.ValidateEvidence: the structure checks other than unique case identifiers are one boolean.
- `run_pipeline` of the guardrail proxy, the NeMo and Presidio rails, sanitising by regular expression, cosine search and embedding arithmetic.
- The practice verifiers P17, P18, P19, P20 and P23, the runtime-security demonstrations, the alert receiver, the progress counters, the isolation check, the reset scripts, and the portal and registry servers.
