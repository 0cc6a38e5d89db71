# Workflow platform: record store, outbox pipeline, tokens

Models of the transactional outbox pipeline of the workflow platform, from the record store that
feeds it to the load tester that decides it has drained, with proofs of what the pipeline promises.
`dafny verify dfyconfig.toml` checks everything.

## How the files hang together

| files | what they model |
|---|---|
| `Domain`, `Ids`, `Tables`, `Outbox` | entities, identifiers, the committed tables with their two logs, pending events |
| `MemorySpec`, `MemoryStore` | the in-memory store: specification functions over its state, and the class proved against them |
| `KeyIndex`, `Ledger`, `Ownership`, `TenantIsolation`, `CallHistory` | whole runs of the in-memory store: the colon-joined index, generated identifiers, tenants, and every record told from the calls |
| `Commits`, `MongoProtocol`, `MongoProofs`, `MongoEffects`, `MongoResults`, `MongoHistory` | the MongoDB store: concurrent calls split into steps, its invariant, what calls do to the commit order, what callers can rely on, and every record told from the requests |
| `Broker`, `RelaySpec`, `RelayRounds`, `RelayAccounting`, `Relay`, `RelayResults`, `RelayOrder` | the topic, and the relay that drains the outbox in batches or event by event |
| `Projection`, `Consumer` | the notification projection and the event worker |
| `Pipeline`, `PipelineProofs`, `PipelineRuns`, `PipelineResults` | everything together as one state machine, and runs of it |
| `LoadTest`, `Detector`, `DetectorComplete` | lag, milestones, the polling loop, and the completion snapshot taken over a run: what it means and when it comes |
| `Base64Url`, `Token`, `ClientText` | the mobile client's decoder, the access tokens, and the text the client reads out of them |

Code that updates fields or loops is a class or a method with a loop (`MemoryStore.Store`,
`Broker.Topic`, `Relay.OutboxStore`, `Relay.DrainOutbox`, `Projection.Sink`, `Consumer.KafkaConsumer`,
`LoadTest.Milestones`, `Base64Url.DecodeBase64Url`); each is tied to a specification function, and the
lemmas are about that function. The MongoDB store and the assembled pipeline, whose behaviour is in
the interleaving, are state machines: one step is one database or broker call of the code.

## The environment

- A failing call may or may not have taken effect (`Fault`), and a failing publish may have written
  any part of its messages (`WriteFault`). The faults of a run are arbitrary inputs.
- In `Relay` a failed batch mark takes effect as a whole or not at all; in `Pipeline` it stamps any
  subset of the batch.
- The outbox is in append order; a listing returns its oldest pending rows. Object identifiers
  generated by the database are fresh.
- A MongoDB transaction commits only while the unique index on tenant and key and the version it
  wrote over still hold; otherwise it is rerun or aborted. A commit may succeed unreported.
- The topic is one sequence of messages; the partition of a message is an arbitrary hash of its key.
  A worker reads its partition from the committed offset onwards; partitions may be reassigned at any
  time, and workers that lost theirs may go on. That the group coordinator rejects commits made under
  an older assignment is a hypothesis (`IsFencedRun`) of the results that need it, those about committed
  offsets that never fall. Nothing else rests on it.
- A message body is the JSON of one event, which decodes to that event, or undecodable text. Other
  producers may add undecodable messages anywhere.
- HMAC and JSON of tokens are arbitrary functions; a lemma about issued tokens asks only that the
  issued claims survive marshalling.

## Where the code and its descriptions differ

The model follows the code in each case.

- `docs/architecture.md:51` says that a replay returns the original record. The code returns the record
  as it is at that moment: the original if and only if no update of it was committed before the
  lookup (`MongoResults.ReplayIsOriginalIff`; `MongoResults.CreateUpdateReplay` is a run in which it
  differs).
- The memory store checks the workflow before the replay, MongoDB the other way round. They answer
  alike exactly when the workflow is valid for the tenant or the key is new (`Tables.OrdersAgreeIff`).
- The memory index joins tenant and key with a colon, so that distinct pairs can share an entry.
  `KeyIndex.ReplaysOwnIff` and `TenantIsolation.IsolatedIff` give the exact condition: no tenant
  name continues another after a colon.
- MongoDB answers any failure of its workflow lookup with an invalid workflow. Such an answer is what
  the atomic operation gives at some moment of the call if and only if the workflow really is at
  fault: not the tenant's when the create began, or without the state the update names. All other
  answers always are (`MongoResults.FoundedIff`; `MongoResults.MisreadIsUnfounded` is a run in which the
  answer is wrong at every moment).
- The sequential relay goes on after a failed publish, so that it does not always keep the order of
  events: `RelayOrder.SequentialKeepsPrefixIff` and `RelayOrder.SequentialDrainKeepsPrefixIff` say
  exactly when it does, `RelayOrder.RefusedThenMarked` when it does not.
- A dead letter records the configured maximum of attempts. That is the number of calls made if and only
  if the retry was not cancelled (`Consumer.AttemptsRecordedIff`, `Consumer.CancelledRecordsThree`).
- The client makes one UTF-16 unit of each byte of a token's claims, which is the text they were
  marshalled to if and only if that is ASCII (`ClientText.ClientReadsTextIff`).

## Model

| member | source | states |
|---|---|---|
| Ids.PaddedDenotes | services/api/internal/store/store.go:51-54 | the padded numeral denotes the counter for any counter, also past six digits, and has at least six digits and no needless zero |
| Ids.RenderInjective | services/api/internal/store/store.go:51-54 | two identifiers are equal only if prefix and counter are |
| Tables.OrdersAgreeIff | services/api/internal/store/mongo_store.go:90-107 | the two stores' orders of checks give the same answer if and only if the workflow is valid for the tenant or the key is new |
| Tables.WriteKeepsInvariant | services/api/internal/store/store.go:83-109 | every legal write keeps five pieces in step: records well formed, strict fold of the outbox equal to the record table, audit equal to outbox entry by entry, index exact in both directions |
| Tables.RebuildIgnoresBookkeeping | services/api/internal/store/store.go:195-220 | publishing, retry counts and errors do not change what the outbox rebuilds |
| Tables.AcceptedHistory | services/api/internal/store/store.go:222-228 | a log the strict fold accepts tells each record as one creation at version 1 and updates at 2, 3, ... without gap, ending in the rebuilt state |
| Tables.HistoryOfRecord | services/api/internal/store/store.go:137-163 | the events of a record are exactly its versions, and the last one carries its state |
| Tables.OneRecordPerKey | services/api/internal/store/store.go:90-105 | two records with the same tenant and key are the same record, even where pairs share an index entry |
| Outbox.PendingIsUnpublished | services/api/internal/store/store.go:177-193 | pending events are exactly the unpublished ones |
| MemoryStore.Store.constructor | services/api/internal/store/store.go:47-49 | a new store is the initial state of the specification and valid |
| MemoryStore.Store.NextId | services/api/internal/store/store.go:51-54 | the counter advances by one and is rendered into the identifier |
| MemoryStore.Store.AppendAudit | services/api/internal/store/store.go:222-224 | appends the audit entry of the record with the next identifier and changes nothing else |
| MemoryStore.Store.AppendOutbox | services/api/internal/store/store.go:226-228 | appends the unpublished event of the record with the next identifier and changes nothing else |
| MemoryStore.Store.CreateWorkflow | services/api/internal/store/store.go:56-69 | keeps the store valid; result and whole new state are those of the specification, refusals included |
| MemoryStore.Store.ListWorkflows | services/api/internal/store/store.go:71-81 | returns each workflow of the tenant once and no other |
| MemoryStore.Store.CreateRecord | services/api/internal/store/store.go:83-109 | keeps the store valid; insert, replay and refusal as the atomic decision says, with record, index, both logs and counter |
| MemoryStore.Store.ListRecords | services/api/internal/store/store.go:111-125 | returns each matching record of the tenant once and no other |
| MemoryStore.Store.GetRecord | services/api/internal/store/store.go:127-135 | the record if it is the tenant's, else not found |
| MemoryStore.Store.UpdateRecord | services/api/internal/store/store.go:137-163 | keeps the store valid; not found, conflict, invalid state or the revised record, with both logs |
| MemoryStore.Store.ListAuditEvents | services/api/internal/store/store.go:165-175 | the tenant's audit entries in log order |
| MemoryStore.Store.ListPendingOutbox | services/api/internal/store/store.go:177-193 | the oldest pending events, at most the limit, 100 if it is not positive |
| MemoryStore.Store.MarkOutboxPublished | services/api/internal/store/store.go:195-207 | stamps the first event with the identifier or reports that there is none |
| MemoryStore.Store.MarkOutboxFailed | services/api/internal/store/store.go:209-220 | counts a failed attempt on the first event with the identifier or reports that there is none |
| MemoryStore.Contains | services/api/internal/store/store.go:230-237 | true exactly for members of the list |
| MemorySpec.ReachableIsValid | services/api/internal/store/store.go:56-228 | after every sequence of calls the tables' invariant holds and all keys are identifiers already issued |
| CallHistory.WorkflowTellsCall | services/api/internal/store/store.go:56-69 | in every run a workflow is, field by field, what its creating call said |
| CallHistory.RecordTellsCalls | services/api/internal/store/store.go:83-163 | in every run a record has tenant, workflow and key of the call that created it, the state named by its last successful update that named one, else the workflow's first, the data of the last that brought some, else its first, and one version more than successful updates |
| CallHistory.UpdateAnswers | services/api/internal/store/store.go:137-163 | exactly when an update is refused as not found, as a conflict, or succeeds |
| CallHistory.UpdateShows | services/api/internal/store/store.go:150-162 | a successful update's answer, a read after it, the audit entry and the event all show the state and data it brought |
| CallHistory.CreateShows | services/api/internal/store/store.go:83-109 | exactly when a create is refused; a new record shows the workflow's first state in answer, read, audit entry and event; a replay changes nothing |
| CallHistory.ReplayedIff | services/api/internal/store/store.go:90-94 | for a tenant apart from the others a successful create is a replay if and only if an earlier call of the tenant with the key succeeded |
| CallHistory.WorkflowAnswers | services/api/internal/store/store.go:59-61 | exactly when a workflow is refused |
| CallHistory.ListsWhatIsRead | services/api/internal/store/store.go:111-135 | a record is listed under a state exactly when reading it shows that state |
| CallHistory.ListsWhatWasMade | services/api/internal/store/store.go:71-81 | a tenant's list shows exactly the workflows its own calls made |
| CallHistory.AuditShowsChange | services/api/internal/store/store.go:165-175 | a stored change adds its entry to the tenant's audit list and to nobody else's |
| RelayOrder.OutboxSourcesRecords | services/api/internal/store/store.go:83-163 | after every sequence of calls folding the outbox rebuilds the record table, each record's events are gap-free, and the audit log agrees |
| RelayOrder.MemoryMarksAlike | services/api/internal/store/store.go:195-220 | in every reachable state changing the first event with an identifier is changing all events with it |
| KeyIndex.CollisionIff | services/api/internal/store/store.go:91 | two tenants have colliding index keys if and only if one name continues the other after a colon; never without colons |
| KeyIndex.IndexIsPairIndex | services/api/internal/store/store.go:83-109 | in every reachable state, for a tenant apart from the others, the string index is the index by pairs, and a replay changes nothing |
| KeyIndex.ReplaysOwnIff | services/api/internal/store/store.go:90-94 | every replay in every run returns the caller's own record for its key if and only if no two tenants are entangled |
| KeyIndex.CollisionMixesRecords | services/api/internal/store/store.go:90-94 | for every pair of colliding keys there is a run in which one tenant is answered with the other's record |
| Ledger.RunBalances | services/api/internal/store/store.go:51-54 | the workflows, records, audit entries and events of a state are exactly those whose identifiers were issued, with consecutive counters |
| Ledger.IdsNeverRepeat | services/api/internal/store/store.go:51-54 | no identifier is issued twice in a run, across all four kinds |
| Ledger.OutboxIdsDistinct | services/api/internal/store/store.go:222-228 | event identifiers and audit identifiers are distinct in every reachable state |
| Ownership.OwnPartSuffices | services/api/internal/store/store.go:56-175 | a call's answer and its effect on the tenant's part depend only on that part and the counter |
| Ownership.OthersLeavePartAlone | services/api/internal/store/store.go:56-220 | calls of other tenants and of the relay leave a tenant's part unchanged |
| TenantIsolation.RunsInStep | services/api/internal/store/store.go:56-175 | a mixed run, restricted to a tenant, and the run of its calls alone stay equal up to a one-to-one renaming of identifiers |
| TenantIsolation.IsolatedIff | services/api/internal/store/store.go:56-175 | a tenant gets in every run the answers its own calls alone would get, up to a one-to-one renaming, if and only if no other name is entangled with its own |
| TenantIsolation.EntangledIsNotIsolated | services/api/internal/store/store.go:90-94 | for a colliding key no renaming explains the answers of the colliding run |
| Commits.LegalInvariant | services/api/internal/store/mongo_store.go:103-129 | every legal commit order leaves the tables consistent, with the outbox an exact source of the records |
| Commits.Between | services/api/internal/store/mongo_store.go:87-215 | between two moments nothing is removed, index entries are fixed, versions never fall |
| Commits.VersionCountsRevisions | services/api/internal/store/mongo_store.go:205 | in any legal commit order a record's version is one more than the number of its revisions |
| MongoEffects.EventKeepsOwned | services/api/internal/store/mongo_store.go:87-215 | every step keeps each commit of a call owned by that call, which has finished with the answer that tells of it or unreported |
| MongoEffects.CommitCarries | services/api/internal/store/mongo_store.go:103-129 | what a call commits is what its request asks for in the state it is committed in, field by field, also when the commit goes unreported |
| MongoEffects.CommitsOnce | services/api/internal/store/mongo_store.go:103-129 | no call ever commits twice, reruns and unreported commits included |
| MongoEffects.VersionCountsSuccesses | services/api/internal/store/mongo_store.go:172-215 | a record's version is one more than the number of updates answered with success, plus those whose success went unreported |
| MongoProofs.EventKeepsInvariant | services/api/internal/store/mongo_store.go:87-215 | every step of every call, with failures, reruns and unreported commits, keeps the protocol's invariant |
| MongoProofs.ReachableInvariant | services/api/internal/store/mongo_store.go:87-215 | the invariant holds in every state any interleaving reaches |
| MongoResults.RepliesLinearize | services/api/internal/store/mongo_store.go:87-215 | each answer is the atomic operation's answer at one point of the commit order within the call, failed workflow lookups aside; an answer that tells of a write owns exactly the commit at that point, and refused or replayed calls committed nothing |
| MongoResults.FoundedIff | services/api/internal/store/mongo_store.go:87-215 | with failed lookups included, an answer is the atomic operation's at some moment of the call if and only if it is not InvalidWorkflow, or the workflow was not the tenant's when the create began, or lacks the state the update names |
| MongoResults.RefusedCreateWithin | services/api/internal/store/mongo_store.go:105-107 | over any stretch of commits a create may be refused for its workflow somewhere exactly when it may at the beginning |
| MongoResults.MisreadIsUnfounded | services/api/internal/store/mongo_store.go:105-107 | a run in which a create is answered InvalidWorkflow, the workflow having been valid at every moment of the call |
| MongoResults.TablesStayConsistent | services/api/internal/store/mongo_store.go:284-293 | in every reachable state outbox and audit match the records without gaps, versions count revisions, and a tenant and key have one record |
| MongoResults.AnswersCarryTheRecord | services/api/internal/store/mongo_store.go:87-139 | every successful answer for a key, replayed or not, names the one record committed under it |
| MongoResults.OneOriginalPerKey | services/api/internal/store/mongo_store.go:119-138 | at most one call is told that it created the record for a key |
| MongoResults.FindReplayNeverDangles | services/api/internal/store/mongo_store.go:270-282 | a key found leads to the tenant's record, and after a duplicate-key abort the key is found |
| MongoResults.ChangeMovesVersion | services/api/internal/store/mongo_store.go:205-211 | the commit of a successful update moves the record from the expected version to the next |
| MongoResults.NoSharedVersion | services/api/internal/store/mongo_store.go:172-215 | no lost update: two successful updates of a record never had the same expected version |
| MongoResults.ReplayIsOriginalIff | docs/architecture.md:51 | a replay returns the originally created record if and only if no revision of it was committed before the replay looked it up |
| MongoResults.CreateUpdateReplay | services/api/internal/store/mongo_store.go:270-282 | a run of create, update and replay in which the replay returns version 2 |
| MongoHistory.RecordTellsRequests | services/api/internal/store/mongo_store.go:172-215 | after any number of commits of any interleaving a record has tenant, workflow and key of its create, the state named by the last committed update that named one, else the workflow's first, likewise its data, and counts its updates |
| MongoHistory.DatabaseTellsRequests | services/api/internal/store/mongo_store.go:172-215 | the same for the database as it is in every reachable state |
| MongoHistory.ChangedShows | services/api/internal/store/mongo_store.go:198-212 | a successful update answers, stores and tells in event and audit entry the state it named and the data it brought |
| MongoHistory.MadeShows | services/api/internal/store/mongo_store.go:108-128 | a create that is no replay answers, stores and tells a record in the first state of the tenant's workflow |
| MongoHistory.RefusedUpdate | services/api/internal/store/mongo_store.go:183-190 | at its point in the commit order an update refused as not found or conflict really was |
| Broker.Topic.Publish | services/api/internal/events/kafka.go:40-46 | an accepted publish appends the event's message; a failed one may append it too |
| Broker.Topic.PublishBatch | services/api/internal/events/kafka.go:48-61 | an accepted batch appends its messages in order, a failed one any part of them, an empty one nothing |
| Broker.MessageHasOffset | services/api/internal/events/kafka.go:29-36 | a message of the topic sits at an offset of the partition of its key |
| Broker.PartitionLogGrows | services/api/internal/events/kafka.go:29-36 | appending to the topic keeps every partition's offsets |
| Relay.PublishSequential | services/api/cmd/outbox-relay/main.go:120-136 | outbox, topic, count and errors after a batch are those of handling the items one after the other under the given faults |
| Relay.PublishInBatch | services/api/cmd/outbox-relay/main.go:85-98 | outbox, topic, count and errors after a batch under the given faults, and every row's publication, attempts and last error |
| Relay.DrainOutbox | services/api/cmd/outbox-relay/main.go:68-118 | terminates for every batch size and every pattern of failures; plays rounds one after the other, error-free but for at most a last one, until a short or empty listing or a failed one |
| RelaySpec.RowOfItem | services/api/cmd/outbox-relay/main.go:123-134 | after a sequential batch a row shows exactly its own item's fate; other rows are untouched |
| RelaySpec.SequentialAccounting | services/api/cmd/outbox-relay/main.go:120-136 | published, refused and unmarked add up to the batch; exactly the counted events became published; attempts rose for exactly the refused ones; the returned error is nil if and only if all were counted |
| RelayRounds.PendingAfterProgress | services/api/cmd/outbox-relay/main.go:68-118 | after n events of progress exactly the first n pending events are gone from the pending ones |
| RelayRounds.CleanRound | services/api/cmd/outbox-relay/main.go:83-117 | a round without error, in either mode, stamps its items and appends their messages in order |
| RelayAccounting.BatchAccounting | services/api/cmd/outbox-relay/main.go:85-98 | after a refused batch the row of each item whose note was kept has one attempt more and the reason, and is otherwise as before; after an accepted one no attempts change; rows outside are untouched |
| RelayAccounting.SequentialFates | services/api/cmd/outbox-relay/main.go:123-134 | the same for the sequential path, item by item |
| RelayResults.NilErrorDrains | services/api/cmd/outbox-relay/main.go:68-118 | a nil error means nothing is pending, the count is what was, and the log gained exactly those events in outbox order |
| RelayResults.CleanDrainSucceeds | services/api/cmd/outbox-relay/main.go:68-118 | without failures a drain returns no error |
| RelayResults.ModesAgree | services/api/cmd/outbox-relay/main.go:83-112 | without failures a batch drain and a sequential drain both succeed and end in the same log, store and count, whatever the batch sizes, with the pending events appended in outbox order |
| RelayResults.CountIsNewlyMarked | services/api/cmd/outbox-relay/main.go:68-118 | if failed marks take no effect, the returned count, error or not, is the number of events that stopped being pending |
| RelayResults.DrainMarksOnlySent | services/api/cmd/outbox-relay/main.go:68-118 | however a drain ends, it changes only bookkeeping and marks only events whose message is in the log |
| RelayResults.DrainAccounting | services/api/cmd/outbox-relay/main.go:68-118 | every row after a whole drain: published with its error cleared if its round marked it, one attempt more for exactly the items of the failing round whose note was kept, else as before |
| RelayResults.BatchDrainKeepsPrefix | services/api/cmd/outbox-relay/main.go:83-98 | whatever fails, a batch drain extends a published prefix of the outbox to a longer one and the log by its messages first |
| RelayResults.RoundsExtend | services/api/cmd/outbox-relay/main.go:83-98 | over any number of batch rounds with any failures the published prefix grows by exactly the concatenated batches that were published and marked, all of them in the log |
| RelayResults.AckedIsPublishedPrefix | services/api/cmd/outbox-relay/main.go:83-117 | over every history of appends and batch drains, the batches published and marked, collected round by round, concatenate to exactly the published prefix of the outbox, all of it in the log |
| RelayOrder.SequentialKeepsPrefixIff | services/api/cmd/outbox-relay/main.go:123-134 | a sequential batch leaves the published events a prefix if and only if no event is marked after one that is not |
| RelayOrder.SequentialDrainKeepsPrefixIff | services/api/cmd/outbox-relay/main.go:99-117 | a whole sequential drain does if and only if it ended without a failing round or that round marked nothing after an event it did not mark |
| RelayOrder.RefusedThenMarked | services/api/cmd/outbox-relay/main.go:123-134 | with the first of two events refused and the second sent, the published events are no prefix |
| Projection.Sink.StoreNotification | services/api/internal/store/notification.go:12-21 | inserts if absent, reports whether it did, and on an error may have done so |
| Projection.Sink.Handle | services/api/internal/events/consumer.go:32-43 | stores, unless there is one, the notification with identifier, tenant, record, kind and the payload's state of the event |
| Projection.StoredNeverChanges | services/api/internal/store/notification.go:12-21 | a stored notification is unchanged by whatever is delivered later |
| Projection.OrderIrrelevant | services/api/internal/events/consumer.go:32-43 | deliveries of the same events in any order and repetition project to the same notifications, creation time aside |
| Projection.OrderIrrelevantIff | services/api/internal/store/notification.go:12-21 | this holds for all orders and repetitions if and only if events that share an identifier show the same notification |
| Consumer.Retry | services/api/internal/events/consumer.go:153-176 | between one and max(1, attempts) calls, stopping at the first success, nil exactly if the last one succeeded, waits adding up to delay k(k-1)/2, errors told apart |
| Consumer.NewKafkaConsumer | services/api/internal/events/consumer.go:54-80 | a worker is made if and only if some broker address is not blank and group, topic, handler and dead-letter publisher are given; three attempts, 150 ms, dead letters under the topic's name with .dlq |
| Consumer.TrimSpace | services/api/internal/events/consumer.go:57 | strips exactly the white space at both ends |
| Consumer.KafkaConsumer.constructor | services/api/internal/events/consumer.go:65-79 | the fields of a new worker |
| Consumer.KafkaConsumer.PublishDlq | services/api/internal/events/consumer.go:136-147 | a missing identifier is generated, a missing key is the aggregate, and the letter is published |
| Consumer.KafkaConsumer.ConsumeMessage | services/api/internal/events/consumer.go:101-134 | success leaves the message settled; whatever it adds to the dead letters goes to their topic and is one of this message; only where no call of this delivery succeeded; malformed messages always and unhandled |
| Consumer.AttemptsRecordedIff | services/api/internal/events/consumer.go:123-132 | the attempts a dead letter records are the calls made if and only if no wait of the retry was cut short, and never fewer |
| Consumer.CancelledRecordsThree | services/api/internal/events/consumer.go:164-170 | a retry cancelled after one call leaves a dead letter that records three |
| Consumer.KafkaConsumer.Run | services/api/internal/events/consumer.go:82-99 | everything below the committed offset stays settled, the offset moves only over handled messages, one at most is handled but uncommitted |
| PipelineProofs.StepKeepsInvariant | services/api/cmd/outbox-relay/main.go:68-136 | every step of API, relays, workers, assignments and crashes keeps the invariant of the pipeline |
| PipelineProofs.CommitOffsetKeeps | services/api/internal/events/consumer.go:92-97 | every commit, also a stale one by a worker that lost the partition, leaves only settled messages below the offset |
| PipelineRuns.NothingTakenBack | services/api/internal/store/notification.go:12-21 | between two moments of a run records only grow, rows keep content and stay published, notifications never change, topic and dead letters only grow |
| PipelineRuns.OffsetsNeverFall | services/api/internal/events/consumer.go:95-97 | in a run in which the coordinator fences stale commits off, no committed offset ever moves back |
| PipelineResults.NoEventLost | services/api/cmd/outbox-relay/main.go:68-136 | in every state of every run, fenced or not, each event is pending or in the topic, and each message below a committed offset is projected or dead-lettered |
| PipelineResults.EveryVersionArrives | services/api/internal/events/consumer.go:82-147 | with nothing pending and no lag, every version of every record has a notification that shows it or a dead letter |
| PipelineResults.NotificationsComeFromRecords | services/api/internal/events/consumer.go:32-43 | every notification stands for exactly one event of the outbox: its record, tenant, kind by version and state, and so the record's own state when that event is its latest |
| PipelineResults.MessagesTellRows | services/api/internal/events/kafka.go:63-78 | every decodable message carries an event of the outbox, to the topic, under the key and with the headers of the record it tells of |
| PipelineResults.LettersComeFromMessages | services/api/internal/events/consumer.go:101-147 | every dead letter is one of a message of the topic, goes to the dead-letter topic, and records three attempts for an unhandled event |
| PipelineResults.OneRecordOnePartition | services/api/internal/events/kafka.go:63-78 | all messages of one record go to one partition |
| PipelineResults.CommitOrderIsRun | services/api/internal/store/mongo_store.go:284-293 | every order of legal commits with distinct event identifiers is the beginning of a run of the pipeline |
| PipelineResults.ConcurrentCallsAreRun | services/api/internal/store/mongo_store.go:87-215 | every database state that concurrent creates and updates reach is one a run of the pipeline reaches |
| LoadTest.LagOverAnyOrder | services/api/cmd/loadtest/main.go:435-447 | the lag sum does not depend on the order in which the map is walked |
| LoadTest.LagZeroIff | services/api/cmd/loadtest/main.go:435-447 | the lag is zero exactly when no end offset exceeds the committed offset, clamped at zero |
| LoadTest.LagAdds | services/api/cmd/loadtest/main.go:435-447 | each partition adds how far its end offset is past its committed one |
| LoadTest.CalculateKafkaLag | services/api/cmd/loadtest/main.go:435-447 | walks the map in any order and returns that sum |
| LoadTest.CollectOffsets | services/api/cmd/loadtest/main.go:399-405 | the offsets of the response, unless a partition reports an error |
| LoadTest.KafkaLag | services/api/cmd/loadtest/main.go:387-433 | known exactly when both requests and all their partitions succeed and no partition lacks an end offset |
| LoadTest.Milestones.Observe | services/api/cmd/loadtest/main.go:506-527 | each milestone is set at most once, at its condition on the four numbers, the lag one only once the outbox one is set |
| LoadTest.TrackedExtends | services/api/cmd/loadtest/main.go:506-527 | after every poll each milestone is the time at which its condition was first observed, or zero |
| LoadTest.LagAfterOutbox | services/api/cmd/loadtest/main.go:522-526 | the lag milestone is never earlier than the outbox milestone |
| LoadTest.CompleteSetsAll | services/api/cmd/loadtest/main.go:529-534 | when a snapshot is complete all three milestones are set and none is later than it |
| LoadTest.WaitUntilPipelineComplete | services/api/cmd/loadtest/main.go:449-504 | no error exactly if a poll not after the deadline took a snapshot with the expected records and notifications, nothing unpublished and no lag; then it is the last and all milestones are at most EndToEnd |
| Detector.ZeroLagHandles | services/api/cmd/loadtest/main.go:387-433 | what was in the topic before the end offsets were read is below the committed offsets if the lag comes out as zero, whatever happens between the reads |
| Detector.ListedCreationsAreDone | services/api/cmd/loadtest/main.go:318-349 | if unpublished count and lag are zero, the creation events that existed when the unpublished ones were counted are published and projected or dead-lettered from then on, fenced or not |
| Detector.CompleteMeansDone | services/api/cmd/loadtest/main.go:529-534 | with no more records created for the workflow, a complete snapshot of non-atomic reads means all its creation events are published and have arrived, at its end and ever after, with the expected counts |
| Detector.CompleteMeansHandled | services/api/cmd/loadtest/main.go:529-534 | in fenced runs they also are and stay below the committed offsets |
| Detector.CompleteMeansNotified | services/api/cmd/loadtest/main.go:529-534 | if the expected count covers all the workflow's records, every creation event has a notification that shows it and not merely a dead letter, ever after |
| DetectorComplete.CreationsCountRecords | services/api/cmd/loadtest/main.go:351-385 | a workflow has exactly as many creation events as records |
| DetectorComplete.CameThroughIsComplete | services/api/cmd/loadtest/main.go:318-349 | the converse of soundness: if throughout the reads nothing is pending, all is caught up, and at least the expected records have their notifications, the snapshot is complete, whatever happens in between |
| DetectorComplete.ExactlyExpected | services/api/cmd/loadtest/main.go:529-534 | a run with exactly one record expected and created, whose snapshot is one record and one notification, and complete |
| Base64Url.DecodeBase64Url | apps/mobile/App.tsx:25-38 | the two loops return the whole bytes of the concatenated six-bit groups |
| Base64Url.EncodingKeepsBits | apps/mobile/App.tsx:29-33 | the characters of an encoding, by groups of three bytes as in section 4 of RFC 4648, have the bits of the bytes and 0, 4 or 2 zero bits more |
| Base64Url.DecodeOfEncode | apps/mobile/App.tsx:25-38 | decoding inverts the unpadded encoding of section 5 of RFC 4648 for byte sequences of every length |
| Base64Url.PaddingIsIgnored | apps/mobile/App.tsx:30-33 | any number of '=' after an encoding changes nothing |
| Base64Url.IgnoredIff | apps/mobile/App.tsx:30-33 | a character can be added anywhere without effect if and only if it is in neither base64 alphabet |
| Base64Url.StandardDecodesAlike | apps/mobile/App.tsx:27 | the standard and the URL-safe alphabet decode alike |
| Token.SplitInTwo | services/api/internal/auth/token.go:62-63 | a token has exactly two parts when it holds exactly one dot, and then these parts |
| Token.IssuedIff | services/api/internal/auth/token.go:48-51 | a token is issued exactly for a subject, a tenant, one of the five roles and a positive lifetime |
| Token.IssuedHasTwoParts | services/api/internal/auth/token.go:48-59 | every such request gets a token of exactly two parts, the encoded claims and the encoded MAC of that part, since neither can hold a dot |
| Token.ParseOfIssue | services/api/internal/auth/token.go:48-81 | every such request gets a token that parses to its claims before the whole second in which it expires, and as expired from then on |
| Token.Lifetime | services/api/internal/auth/token.go:48-81 | it is accepted up to issue time plus ttl minus one second, so at once for a ttl of a second or more, and never at or after issue time plus ttl |
| Token.AcceptedIff | services/api/internal/auth/token.go:61-81 | a token is accepted with given claims if and only if it is a dot-free payload with its encoded MAC that decodes to those claims, they name subject, tenant and one of the five roles, and are not expired |
| Token.ClientReadsBytes | apps/mobile/App.tsx:40-44 | the client decodes the first part of an issued token to the marshalled bytes |
| ClientText.UnitsAreTextIff | apps/mobile/App.tsx:34-36 | one UTF-16 unit per byte is the text if and only if every byte of its UTF-8 form is below 128 |
| ClientText.ClientReadsTextIff | apps/mobile/App.tsx:40-44 | the client parses the text an issued token's claims were marshalled to if and only if it is ASCII |
| ClientText.AccentIsMisread | apps/mobile/App.tsx:34-36 | one accented letter is read as two units |

## Left out

- HTTP routing, request decoding and status codes, the UI, load generation and printing: plumbing over the modelled calls.
- Drivers, index creation and timeouts: replaced by the environment above. `ListPendingOutbox` of MongoDB is taken to return the fetched rows.
- Wall-clock time stamps and the sort orders by time of the MongoDB listings: outbox order is append order, lists built from maps are sets.
- Cryptographic strength and the formats of HMAC and JSON: parameters. Marshalling events never fails.
- Integer wrap-around of counters, versions and offsets at 64 bits: integers are unbounded.
- Liveness and fairness of the relay's outer loop and of the worker: only the termination of one drain and of the polling loop (given that its deadline passes) is proved.
- Order of delivery per record under failures on the sequential path: the code does not provide it.
- Events of other producers that decode as JSON: only undecodable foreign messages are modelled.
- MongoProtocol: creates and updates interleave; creating a workflow and marking the outbox are single atomic commits there.
- MongoResults.RepliesLinearize: says nothing of calls that end in a driver error beyond that they commit at most once (`MongoEffects.CommitsOnce`); failed workflow lookups are in `MongoResults.FoundedIff`.
- Consumer.NewKafkaConsumer: the reader's connection settings are not modelled, only the values the worker itself uses.
- Consumer.KafkaConsumer.Run: one worker on one partition, whose contents are fixed for the run; growth of the topic, several workers and reassignment are in `Pipeline`.
- Relay.DrainOutbox: nobody appends during a drain; `Pipeline` lets everybody interleave at every call.
- Detector.CompleteMeansDone: each of the reads of a snapshot is atomic by itself.
- MemoryStore.Store: the mutex makes every call atomic, so calls are modelled one after the other; aliasing of Go maps and slices is ignored.
