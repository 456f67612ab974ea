# DeviceSyncPerfTesting, modelled in Dafny

DeviceSyncPerfTesting is a command-line latency benchmark for Atlas Device
Sync. It opens a flexible-sync Realm, writes batches of `Dog` records
(locally, or straight into the MongoDB collection) and times how long it takes
until the last record, the *signal* record named `"fido"`, shows up on the
other side. It offers four workloads from a numbered menu: realm-to-realm,
mongo-to-realm, realm-to-mongo and realm-bootstrap. Each one prints the min,
max and mean of its samples.

This project models the sequential logic underneath the service calls.

- **The store.** The Realm is an abstract store class (`RealmStore.Realm`)
  with its transaction flag, the committed write transactions, the open
  transaction, a local object sequence, the subscription set and the number of
  registered listeners. The remote collection records every `insertMany` call.
- **Inputs.** Clock readings are a function from call number to time
  (`Protocol.Clock`). ObjectIds come from a counter (`Schemas.ObjectIdGenerator`).
  Listener notifications and change-stream events are given per iteration.
- **Writers.** The batch writer `insertObjectsToRealm` is a method that
  toggles transactions in a loop. It is proved to commit exactly the
  transactions `Batching.Chunks` describes.
- **Step log.** Every operation the workloads call appends the step it takes
  to a ghost log (`Steps.Log`): subscribe, unsubscribe, delete, sleep, arm a
  listener, watch a stream, read the clock, write locally or remotely, upload.
  The workload itself appends the await and the sample push. So the order of
  a workload's steps in the log is the order of its calls.
- **Workloads.** Every workload loop is a method over that store. Each
  states its new store state, and states that it appends to the log exactly
  the trace its steps describe: reset, arm watcher, start timer, write, await,
  stop timer, push sample. The automaton `Protocol.Run` accepts exactly the
  well-ordered traces. Each workload trace is proved accepted, and proved to
  push exactly the samples `Protocol.Durations` computes from the clock, one
  per iteration.
- **Blocking.** An await whose signal never comes makes the workload wait
  forever. The model makes this an outcome: `Protocol.Outcome.Blocked` carries
  the iteration that waits and the samples pushed so far.
- **Entry point.** The command-line parser and the menu loop of the entry
  point are modelled in `Cli`.

Modules, by source file:

| module | file | source |
|---|---|---|
| `Wrappers` | wrappers.dfy | `Option` and `Result` |
| `Schemas` | schemas.dfy | src/schemas.tsx, ObjectId hex names |
| `Steps` | steps.dfy | the steps the workloads take, and the log that records them |
| `RealmStore` | realm.dfy | the Realm, listener and MongoDB APIs the code calls |
| `Batching` | batching.dfy | the transaction boundaries of `insertObjectsToRealm` |
| `Utilities` | utilities.dfy | src/utilities.tsx |
| `Protocol` | protocol.dfy | the iteration protocol shared by the workloads, the clock |
| `RemoteBatching` | remote_batching.dfy | the `insertMany` loop of src/workloads/mongo-to-realm.tsx |
| `MongoToRealmWorkload` | mongo_to_realm.dfy | src/workloads/mongo-to-realm.tsx |
| `WriterRounds` | writer_rounds.dfy | the writing realm's state across iterations |
| `RealmToMongoWorkload` | realm_to_mongo.dfy | src/workloads/realm-to-mongo.tsx |
| `RealmToRealmWorkload` | realm_to_realm.dfy | src/workloads/realm-to-realm.tsx |
| `RealmBootstrapWorkload` | realm_bootstrap.dfy | src/workloads/realm-bootstrap.tsx |
| `Cli` | cli.dfy | src/index.tsx |

Where the code and its documentation disagree, the model follows the code:

- **Commit count.** `insertObjectsToRealm` commits *before* creating object
  `i` whenever `i % B == 0`. The first transaction therefore holds objects
  `1..B-1`, and a run commits `N / B + 1` transactions (rounded down), not
  `ceil(N / B)`. With `B = 1` the first transaction is empty.
- **Chunk size 0.** `i % 0` is `NaN` in JavaScript, so the whole run is a
  single transaction (`Batching.ZeroChunkSizeIsOneTransaction`).
- **"Subtract 1".** A comment in realm-to-realm says the writer writes
  numObjects - 1 records. It writes `numObjectsToInsert` records, and the last
  one is the signal.
- **RealmToMongo's handler.** The condition of the change-stream handler
  assigns `fullDocument.name` instead of comparing it. It is modelled as
  written: the first event always resolves the wait and is renamed to the
  signal name (`RealmToMongoWorkload.OnEvent`). The stream is given every
  change event the collection sees, and `RemoteCollection.Watch` passes on
  only those that match the stream's filter. So an iteration resolves exactly
  when the signal insertion happens, and the event it resolves on is that
  insertion (`RealmToMongoWorkload.OpenReader`,
  `RealmToMongoWorkload.RunIteration`). On that stream the as-written handler
  agrees with the intended comparison.

## Model

| member | source | states |
|---|---|---|
| Schemas.HexDigits | src/utilities.tsx:114 | a number written in a fixed width of lower-case hexadecimal digits has exactly that many digits |
| Schemas.ToHexString | src/utilities.tsx:114 | an ObjectId's name is 24 hexadecimal digits |
| Schemas.GeneratedNameIsNotSignal | src/utilities.tsx:114-117 | a generated record name is never the signal name "fido" |
| Schemas.ObjectIdGenerator.NewObjectId | src/schemas.tsx:26 | each new ObjectId differs from every id issued before, and is added to the issued set |
| Schemas.GetNewDog | src/schemas.tsx:25-34 | the record carries the given name and age, breed "french bulldog", colour "black", country "united states", and a fresh `_id` |
| RealmStore.Realm.Open | src/utilities.tsx:44-61 | `getFlexibleRealm` opens a realm at a new random path, and it starts empty: no objects, no write history, no subscriptions, no listeners, no open transaction; it records which of the benchmark's realms it is |
| RealmStore.Realm.BeginTransaction | src/utilities.tsx:105 | opens a write transaction; only allowed when none is open; nothing else changes |
| RealmStore.Realm.CommitTransaction | src/utilities.tsx:108-110 | the open transaction's objects become one committed transaction and the realm leaves the transaction |
| RealmStore.Realm.Create | src/utilities.tsx:118 | inside a transaction, appends the record to the open transaction and to the objects |
| RealmStore.Realm.WriteDeleteAll | src/utilities.tsx:89-91 | one committed, empty write transaction that removes every object |
| RealmStore.Realm.RemoveAllSubscriptions | src/utilities.tsx:66-68 | the subscription set becomes empty; nothing else changes |
| RealmStore.Realm.AddSubscription | src/utilities.tsx:83 | adds the query to the subscription set; nothing else changes |
| RealmStore.Realm.AddListener | src/workloads/mongo-to-realm.tsx:66-77 | registers one more listener, not yet resolved, and logs the arming on this realm |
| RealmStore.Realm.UploadAllLocalChanges | src/workloads/realm-bootstrap.tsx:46 | logs an upload of this realm and changes nothing else |
| RealmStore.InsertionListener.OnChange | src/workloads/mongo-to-realm.tsx:69-75 | resolves exactly when it was resolved already or the change set inserts an object named the signal; a second signal changes nothing |
| RealmStore.InsertionListener.Deliver | src/workloads/mongo-to-realm.tsx:67-77 | after a sequence of change sets, resolved exactly when one of them inserts the signal; change sets whose inserted objects are all named otherwise leave it as it was |
| RealmStore.ChangeStream.Next | src/workloads/realm-to-mongo.tsx:68 | `cs.next()` hands out the first pending event, or none when nothing arrives |
| RealmStore.RemoteCollection.InsertMany | src/workloads/mongo-to-realm.tsx:84 | appends one call carrying the batch to the collection's call log |
| RealmStore.RemoteCollection.Watch | src/workloads/realm-to-mongo.tsx:63-67 | a new change stream with the given filter, whose pending events are exactly the collection's events that match it, in order; logs the watch |
| RealmStore.FilteredEvents | src/workloads/realm-to-mongo.tsx:63-67 | every event a filtered stream delivers is an event of the collection matching the filter, and it delivers something exactly when some event matches |
| Utilities.RemoveAllSubscriptionsAndWait | src/utilities.tsx:64-70 | the subscription set becomes empty; nothing else changes; one unsubscribe step is logged |
| Utilities.AddSubscriptionAndWait | src/utilities.tsx:72-86 | the subscription set becomes exactly the one given query, whatever it held; one subscribe step is logged |
| Utilities.AddSubscriptionTwice | src/utilities.tsx:79-85 | subscribing twice leaves the same state as subscribing once (idempotence) |
| Utilities.DeleteAllObjs | src/utilities.tsx:88-93 | the objects become empty by one committed empty write, whatever table is passed; nothing else changes; one delete step is logged |
| Utilities.Sleep | src/utilities.tsx:125-127 | logs one sleep step of the given length and changes nothing else |
| Utilities.InsertObjectsToRealm | src/utilities.tsx:95-123 | N = 0 changes nothing in the realm; otherwise the realm ends with no open transaction and commits exactly the transactions of `Chunks(N, B)`, filled with records 1..N in order; one insert step is logged either way |
| Utilities.InsertionPass | src/utilities.tsx:106-119 | one loop pass keeps the invariant that the realm holds the committed and open parts of the first i records |
| Utilities.CreateNextObject | src/utilities.tsx:114-118 | record i gets an ObjectId name, or the signal name when it is the last record and the signal is asked for, age 12, and is appended to the open transaction |
| Utilities.StepStartsTransaction | src/utilities.tsx:107-112 | at a multiple of B the open transaction is committed and record i opens a new one |
| Utilities.StepJoinsTransaction | src/utilities.tsx:106-118 | elsewhere record i joins the open transaction |
| Utilities.PartialInsertStep | src/utilities.tsx:106-119 | the realm after i records is the realm after i - 1 records with record i committed or appended as the modulo test decides |
| Utilities.FinalCommit | src/utilities.tsx:120-122 | the final commit completes exactly the transactions `Chunks(N, B)` |
| Utilities.FinishedInsert | src/utilities.tsx:120-122 | after the final commit the realm holds the N records and their transactions and no open transaction |
| Utilities.CommitChunksClosedForm | src/utilities.tsx:105-122 | committing a list of chunks appends their transactions, begins one transaction each and appends their records |
| Utilities.InsertionClosedForm | src/utilities.tsx:105-122 | a whole insertion appends records 1..N in order to the objects, and one committed transaction per chunk |
| Utilities.SignalNamesOnlyTheLastObject | src/utilities.tsx:114-118 | record i is named the signal exactly when the signal is asked for and i = N; every record has age 12 |
| Utilities.SignalIsInLastTransaction | src/utilities.tsx:114-122 | the signal record is the last record of the last committed transaction |
| Utilities.TransactionsHoldCreatedObjects | src/utilities.tsx:105-122 | the transactions, flattened, are exactly the records created, in order |
| Utilities.CommittedObjectsAreCreatedObjects | src/utilities.tsx:105-122 | the committed transactions of an insertion hold exactly records 1..N once each, in order |
| Utilities.TxnConcat | src/utilities.tsx:106-118 | the records of two runs of positions are the records of each run, concatenated |
| Utilities.Minimum | src/utilities.tsx:130 | the minimum is one of the samples and no sample is smaller |
| Utilities.Maximum | src/utilities.tsx:131 | the maximum is one of the samples and no sample is larger |
| Utilities.TimerReport | src/utilities.tsx:129-143 | with samples: min and max are samples bounding all the others, the total is their sum and average times count is the total; without samples there is no summary |
| Utilities.PrintTimers | src/utilities.tsx:129-143 | the `forEach` accumulation computes exactly the report of `TimerReport` |
| Utilities.ThreeSampleReport | src/utilities.tsx:129-143 | samples 5, 10 and 15 report min 5, max 15, total 30 and mean 10 |
| Batching.Interval | src/utilities.tsx:106 | the loop counter runs over lo..hi, one by one |
| Batching.ChunksCoverInOrder | src/utilities.tsx:106-119 | the transactions together hold positions 1..N once each, in order |
| Batching.ZeroChunkSizeIsOneTransaction | src/utilities.tsx:107 | with B = 0 (`i % 0` is NaN) the whole insertion is one transaction |
| Batching.ChunksClosedForm | src/utilities.tsx:106-112 | the transactions are 1..B-1, then B..2B-1 and so on, the last one open-ended up to N |
| Batching.CommitCount | src/utilities.tsx:105-112 | with B ≥ 1 there are exactly N / B + 1 (rounded down) commits |
| Batching.FirstTransaction | src/utilities.tsx:105-112 | the first transaction holds 1..min(N, B-1), and is empty when B = 1 |
| Batching.LaterTransactionStart | src/utilities.tsx:107-112 | every later transaction is non-empty and starts at a multiple of B |
| Batching.LastTransactionEndsAtN | src/utilities.tsx:106-122 | for N ≥ 1 the last transaction ends with position N |
| Batching.FiftyObjectsTenPerTransaction | src/utilities.tsx:105-122 | 50 records 10 to a transaction give 6 commits, the first with 9 records and the last with record 50 alone |
| RemoteBatching.FillInvariant | src/workloads/mongo-to-realm.tsx:82-90 | while the loop runs, the sent batches and the open batch together hold the records pushed so far, in order, every sent batch holds exactly W and the open one at most W |
| RemoteBatching.SentLength | src/workloads/mongo-to-realm.tsx:83-86 | batches of W records each carry W times their count |
| RemoteBatching.CallsCarryEveryRecordOnce | src/workloads/mongo-to-realm.tsx:82-92 | with W ≥ 1 the calls carry records 0..g once each, in push order, so max(numObjects - 1, 0) + 1 records in all |
| RemoteBatching.CallSizes | src/workloads/mongo-to-realm.tsx:83-92 | every call but the last carries exactly W records, the last between 1 and W + 1 |
| RemoteBatching.CallCount | src/workloads/mongo-to-realm.tsx:82-92 | there are max(1, ceil(g / W)) calls |
| RemoteBatching.ZeroPerWriteSendsEmptyBatchFirst | src/workloads/mongo-to-realm.tsx:83-84 | with W = 0 the first `insertMany` is sent an empty batch |
| RemoteBatching.SignalIsRecordG | src/workloads/mongo-to-realm.tsx:88-91 | only the record pushed after the loop is named the signal |
| RemoteBatching.SignalSentOnceAtTheEnd | src/workloads/mongo-to-realm.tsx:88-92 | the signal record is sent exactly once, as the last record of the last call |
| RemoteBatching.SendBatches | src/workloads/mongo-to-realm.tsx:81-92 | the collection receives exactly the calls of `RemoteCalls`, 2g + 1 ids are drawn, and one remote-insert step is logged |
| RemoteBatching.BatchPass | src/workloads/mongo-to-realm.tsx:82-90 | one pass of the loop flushes a full batch or pushes onto the open one, as `Fill` describes |
| RemoteBatching.SendLastBatch | src/workloads/mongo-to-realm.tsx:91-92 | pushing the signal and sending the last batch completes `RemoteCalls` |
| Protocol.SetupStaysIdle | src/workloads/mongo-to-realm.tsx:62-63 | setup steps keep the protocol idle and push no sample |
| Protocol.WritesKeepTiming | src/workloads/mongo-to-realm.tsx:81-92 | writes keep the timer running and push no sample |
| Protocol.WatchedIterationCompletes | src/workloads/mongo-to-realm.tsx:62-96 | reset, arm, start, write, await, stop, push returns to idle and pushes exactly stop - start |
| Protocol.BlockedIterationWaits | src/workloads/mongo-to-realm.tsx:62-94 | an iteration whose await never returns leaves the watched timer running, with no sample |
| Protocol.TimedIterationCompletes | src/workloads/realm-bootstrap.tsx:51-55 | an unwatched timed iteration returns to idle and pushes exactly stop - start |
| Protocol.IterationsCompose | src/workloads/mongo-to-realm.tsx:60-98 | iterations that each return to idle with one sample compose into a well-ordered trace with one sample per iteration, in order |
| Protocol.OneSamplePerTimerStart | src/workloads/mongo-to-realm.tsx:80-96 | in an accepted trace every timer start is matched by one sample, except the start of an iteration still running |
| Protocol.AwaitFollowsWatchAndStart | src/workloads/mongo-to-realm.tsx:66-94 | every await in an accepted trace comes after a watcher was armed and, after that, the timer was started |
| Protocol.WatchedTimingHistory | src/workloads/mongo-to-realm.tsx:66-80 | a watched timer was started after a watcher was armed |
| Protocol.Clock.Now | src/workloads/mongo-to-realm.tsx:80 | `Date.now()` returns the reading of the current call number and advances it, and logs a timer start or stop carrying that reading |
| Protocol.DurationAt | src/workloads/mongo-to-realm.tsx:96 | sample t is the difference of the clock readings 2t + 1 and 2t |
| MongoToRealmWorkload.IterationCompletes | src/workloads/mongo-to-realm.tsx:62-97 | one iteration (delete all, sleep, arm the listener, start the timer, write remotely, await, stop, push) is well ordered and pushes its elapsed time |
| MongoToRealmWorkload.TraceWellOrdered | src/workloads/mongo-to-realm.tsx:57-98 | a completed run is a well-ordered trace pushing one sample per iteration, the durations of the clock, numTests in all |
| MongoToRealmWorkload.BlockedTraceWaits | src/workloads/mongo-to-realm.tsx:60-94 | a run blocked in iteration k has pushed the k earlier samples and is waiting with its timer running |
| MongoToRealmWorkload.SubscribedOnceBeforeTheLoop | src/workloads/mongo-to-realm.tsx:57-60 | the subscription is added once, as the first step, and never again |
| MongoToRealmWorkload.AfterIterationsClosedForm | src/workloads/mongo-to-realm.tsx:60-77 | after k iterations the realm is empty, k more empty writes are committed and k more listeners are registered |
| MongoToRealmWorkload.IdsAfterClosedForm | src/workloads/mongo-to-realm.tsx:82-91 | each iteration draws 2g + 1 ObjectIds |
| MongoToRealmWorkload.RunIteration | src/workloads/mongo-to-realm.tsx:62-96 | one iteration: the realm is cleared, one listener is added, the collection receives `RemoteCalls`, it completes exactly when the notifications insert the signal, and the steps its calls log are exactly `Iteration` (or the blocked iteration), in that order |
| MongoToRealmWorkload.Pass | src/workloads/mongo-to-realm.tsx:60-98 | one loop pass takes every piece of state and the log from k iterations to k + 1, or to the wait of a blocked run |
| MongoToRealmWorkload.Loop | src/workloads/mongo-to-realm.tsx:60-98 | the loop completes exactly when every iteration's signal arrives; otherwise it blocks at the first iteration whose signal does not |
| MongoToRealmWorkload.MongoToRealm | src/workloads/mongo-to-realm.tsx:38-102 | the workload subscribes once, then logs a well-ordered trace, one sample per iteration, and returns the printTimers report, or blocks at the first iteration without a signal |
| WriterRounds.AfterRoundsState | src/workloads/realm-to-mongo.tsx:55-80 | after k ≥ 1 rounds the writing realm is subscribed to the Dog query alone and holds exactly the records of the last round; no transaction is left open and no listener added |
| WriterRounds.SignalIsTheLastRecord | src/workloads/realm-to-realm.tsx:73-79 | a round's records hold the signal exactly once, as the last record |
| RealmToMongoWorkload.IterationCompletes | src/workloads/realm-to-mongo.tsx:57-86 | one iteration (subscribe, delete all, sleep, watch, start, write, await, stop, push) is well ordered and pushes its elapsed time |
| RealmToMongoWorkload.TraceWellOrdered | src/workloads/realm-to-mongo.tsx:53-87 | a completed run is a well-ordered trace pushing one sample per iteration, the durations of the clock |
| RealmToMongoWorkload.BlockedTraceWaits | src/workloads/realm-to-mongo.tsx:55-83 | a run blocked in iteration k has pushed the k earlier samples and is waiting with its timer running |
| RealmToMongoWorkload.OnEvent | src/workloads/realm-to-mongo.tsx:68-73 | the handler as written always resolves, keeps the operation type and overwrites the document's name with "fido" |
| RealmToMongoWorkload.ClearRealm | src/workloads/realm-to-mongo.tsx:56-59 | subscribe, delete all and sleep leave the realm as `Cleared` says and log exactly the iteration's reset |
| RealmToMongoWorkload.OpenReader | src/workloads/realm-to-mongo.tsx:62-68 | the stream's first event arrives exactly when some event of the collection matches the signal filter, and it is then an insert of the record named "fido"; the watch is logged |
| RealmToMongoWorkload.AssignmentIsNotComparison | src/workloads/realm-to-mongo.tsx:69 | an insert named "rex" is not a signal event, yet the assigned value "fido" is truthy |
| RealmToMongoWorkload.RunIteration | src/workloads/realm-to-mongo.tsx:57-85 | one iteration: the realm is resubscribed, cleared and written as `AfterRound` says; it completes exactly when the collection sees the signal insertion, which is exactly when the first event through the filter is a signal event; the steps its calls log are exactly `Iteration` (or the blocked iteration), in that order |
| RealmToMongoWorkload.Pass | src/workloads/realm-to-mongo.tsx:55-87 | one loop pass takes every piece of state and the log from k iterations to k + 1, or to the wait of a blocked run |
| RealmToMongoWorkload.Loop | src/workloads/realm-to-mongo.tsx:55-87 | the loop completes exactly when every iteration's stream sees the signal insertion; otherwise it blocks at the first that does not |
| RealmToMongoWorkload.RealmToMongo | src/workloads/realm-to-mongo.tsx:38-92 | the workload logs a well-ordered trace, one sample per iteration, and returns the printTimers report, or blocks at the first iteration whose stream stays silent |
| RealmToRealmWorkload.IterationCompletes | src/workloads/realm-to-realm.tsx:51-84 | one iteration (subscribe reader, subscribe writer, delete on reader, delete on writer, arm on reader, start, write, await, stop, push) is well ordered and pushes its elapsed time |
| RealmToRealmWorkload.TraceWellOrdered | src/workloads/realm-to-realm.tsx:47-85 | a completed run is a well-ordered trace pushing one sample per iteration, the durations of the clock |
| RealmToRealmWorkload.BlockedTraceWaits | src/workloads/realm-to-realm.tsx:49-81 | a run blocked in iteration k has pushed the k earlier samples and is waiting with its timer running |
| RealmToRealmWorkload.ReaderRoundsClosedForm | src/workloads/realm-to-realm.tsx:51-69 | after k ≥ 1 iterations the reader is subscribed to the Dog query alone and empty, with k more empty writes and k more listeners, none removed |
| RealmToRealmWorkload.ResetBoth | src/workloads/realm-to-realm.tsx:51-68 | the reset clears and resubscribes both realms and arms one new listener on the reader, logging reader and writer steps in the source's order |
| RealmToRealmWorkload.RunIteration | src/workloads/realm-to-realm.tsx:51-84 | one iteration: the writer ends as `AfterRound` says, the reader as `ReaderRound` says, it completes exactly when the reader's notifications insert the signal, and the steps its calls log are exactly `Iteration` (or the blocked iteration), in that order |
| RealmToRealmWorkload.Pass | src/workloads/realm-to-realm.tsx:49-85 | one loop pass takes every piece of state and the log from k iterations to k + 1, or to the wait of a blocked run |
| RealmToRealmWorkload.Loop | src/workloads/realm-to-realm.tsx:49-85 | the loop completes exactly when every iteration's signal reaches the reader; otherwise it blocks at the first that does not |
| RealmToRealmWorkload.RealmToRealm | src/workloads/realm-to-realm.tsx:32-89 | the workload logs a well-ordered trace, one sample per iteration and the printTimers report, or blocks at the first iteration without a signal |
| RealmBootstrapWorkload.TraceWellOrdered | src/workloads/realm-bootstrap.tsx:41-57 | the seed keeps the protocol idle and pushes nothing, and every iteration times exactly the re-subscription, one sample per iteration |
| RealmBootstrapWorkload.IterationsWellOrdered | src/workloads/realm-bootstrap.tsx:50-57 | the iterations return to idle, each pushing the time its re-subscription took |
| RealmBootstrapWorkload.SeededState | src/workloads/realm-bootstrap.tsx:41-46 | the seeded realm is subscribed to the Dog query alone and holds exactly the N seed records, 100 to a transaction, none named the signal |
| RealmBootstrapWorkload.SeedRealm | src/workloads/realm-bootstrap.tsx:41-46 | subscribe, clear, sleep, write the seed records without the signal and upload, as `Seeded` says, logging exactly those steps |
| RealmBootstrapWorkload.RunIteration | src/workloads/realm-bootstrap.tsx:51-55 | removing every subscription and re-adding the Dog query leaves the subscription set exactly {Dog, "age < 50"}; the logged steps show the timer bracketing only the re-add |
| RealmBootstrapWorkload.Loop | src/workloads/realm-bootstrap.tsx:50-57 | on a realm subscribed to the Dog query every iteration leaves the realm as it found it |
| RealmBootstrapWorkload.RealmBootstrap | src/workloads/realm-bootstrap.tsx:31-61 | the workload always completes, logging a well-ordered trace, one sample per iteration and the printTimers report, the realm left seeded |
| Cli.SplitJoin | src/index.tsx:116 | `split("=")` loses nothing: joining the parts with "=" gives the argument back |
| Cli.SplitPartsLackSeparator | src/index.tsx:116 | no part of a split contains "=" |
| Cli.SplitPartCount | src/index.tsx:116 | a split has one part more than the argument has "=" characters |
| Cli.SplitWithoutSeparator | src/index.tsx:116 | an argument without "=" splits into itself alone |
| Cli.TestArgs | src/index.tsx:113 | the test arguments are everything after the program and script paths |
| Cli.ParseTestArgs | src/index.tsx:113-134 | the `for` loop over the arguments computes exactly the parse `ParseArgs` describes, stopping at the first throw |
| Cli.ApplyArgsStopsAtFailure | src/index.tsx:117-132 | once an argument throws, later arguments change nothing |
| Cli.ApplyArg | src/index.tsx:116-133 | one argument is accepted exactly when it is key=value or the bare flag with a known key; otherwise it throws the error for its case |
| Cli.ApplyArgsFails | src/index.tsx:115-134 | the parse fails exactly when some argument is not accepted, and then with the error of the first such argument |
| Cli.ApplyArgValues | src/index.tsx:121-130 | an accepted argument sets only the option its key names, to the text after "=" |
| Cli.ApplyArgsValues | src/index.tsx:115-134 | the last occurrence of clientAppId and of databaseName wins; the flag is set exactly when some argument has it as key |
| Cli.FlagKey | src/index.tsx:117 | the bare word "multipleClientTest" is a single part that is its own key |
| Cli.ParseArgsMeaning | src/index.tsx:113-134 | the parse succeeds exactly when every argument is accepted; then each option holds its last value (empty when never given) and the multi-client flag is set exactly when some argument has the flag as key, bare or with a value |
| Cli.StartUp | src/index.tsx:38-55 | the multi-client flag selects the upload test; otherwise the prompts supply the app id and database name exactly when the options left them empty |
| Cli.PrepareMainRealm | src/index.tsx:63-64 | subscribing then removing all subscriptions leaves the realm unsubscribed and otherwise unchanged |
| Cli.Dispatch | src/index.tsx:83-103 | only "5" quits; only "1" to "5" are valid answers, anything else is reported as invalid input |
| Cli.Menu | src/index.tsx:73-108 | answers are handled in order, up to and including the first "5", which ends the loop; without a "5" every answer is handled and the loop keeps waiting |

## Left out

- Readline prompting (`askQuestion`, `askQuestionGetNum`) is not modelled. The answers become parameters. `parseInt` and `Number` are not modelled either: the counts are natural numbers, so negative or `NaN` answers are out of scope.
- App login, the connection `Realm.open` makes (only the empty realm it yields is modelled, as `RealmStore.Realm.Open`), the MongoDB client handle, `waitForSynchronization` and `uploadAllLocalChanges` are external services. They are not modelled, and neither is the data a subscription change downloads or removes locally. `uploadAllLocalChanges` only appears as an `Upload` step in the log.
- Replication between the realms and the cluster is not modelled. What a listener or change stream receives is an input per iteration. The reader realm of realm-to-realm does not gain the writer's records.
- The wait in `sleep` is not modelled. `Utilities.Sleep` only logs a `Sleep(1000)` step.
- `Date.now` is modelled by the readings `Clock.reading` that the model receives as input.
- Console output is not modelled: the "Iteration k completed" lines and the formatted `printTimers` text. The report's `average` is an exact `real`, not a floating-point value.
- For an empty sample list, `printTimers` prints `Infinity`, `-Infinity` and `NaN`. The model returns the `NoSamples` report instead.
- The multi-client branch of `main` is not modelled: `uploadAndAcknowlegeTest` and src/workloads/realm-upload.tsx. `Cli.StartUp` only selects it.
- `process.exit` and the promise `.then`/`.catch` handling of `main` are not modelled.
- `realm.close()` at the end of `main` is not modelled.
- RealmToRealmWorkload.RealmToRealm: it requires the writer to be the main realm and the reader the reader realm, so the two are different objects, because `main` opens a new reader realm before every run of the workload.
- MongoToRealmWorkload: with `numObjectsPerWrite = 0` the first `insertMany` receives an empty batch (`RemoteBatching.ZeroPerWriteSendsEmptyBatchFirst`). The real driver would throw there, and the model does not capture that error.
- The listeners the workloads add are never removed. The model counts them (`listenerCount`), but it does not deliver notifications to the listeners of earlier iterations.
- realm-to-mongo opens a new change stream in every iteration and never closes it. The model neither keeps the earlier streams nor delivers events to them.
- JavaScript's single-threaded scheduling is not modelled. The change-stream handler and listener callbacks run at the `await` that consumes them.
