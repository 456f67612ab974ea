/**
 * The RealmToMongo workload (src/workloads/realm-to-mongo.tsx): per
 * iteration subscribe and clear the realm, open a change stream on the
 * remote collection filtered to the insertion of the signal record, start
 * the timer, write the records to the realm, wait for the stream's first
 * event, stop the timer and push the sample.
 */
module RealmToMongoWorkload {
  import opened Wrappers
  import opened Schemas
  import opened RealmStore
  import opened Batching
  import opened Utilities
  import opened Protocol
  import opened WriterRounds
  import opened Steps

  const TestName: string := "realm-to-mongo"

  /** The reset at the head of every iteration: addSubscriptionAndWait, deleteAllObjs, sleep(1000). */
  const Reset: seq<Step> := [Subscribe(MainRealm, DogSubscription), DeleteAll(MainRealm), Sleep(1000)]

  /** The one timed write of an iteration: insertObjectsToRealm with the signal record. */
  function Writes(numObjects: nat, perUpload: nat): seq<Step> {
    [InsertObjects(MainRealm, numObjects, perUpload, true)]
  }

  /** An iteration whose clock readings are call numbers s and s + 1. */
  function Iteration(reading: nat -> int, s: nat, numObjects: nat, perUpload: nat): seq<Step> {
    WatchedIteration(Reset, WatchStream(SignalInsertFilter), reading(s), Writes(numObjects, perUpload),
                     reading(s + 1))
  }

  /** The first k iterations, the clock starting at call number c. */
  function Iterations(reading: nat -> int, c: nat, numObjects: nat, perUpload: nat, k: nat): (r: seq<seq<Step>>)
    ensures |r| == k
  {
    if k == 0 then []
    else Iterations(reading, c, numObjects, perUpload, k - 1) +
         [Iteration(reading, c + 2 * (k - 1), numObjects, perUpload)]
  }

  /** The trace of a run that completes k iterations. */
  function Trace(reading: nat -> int, c: nat, numObjects: nat, perUpload: nat, k: nat): seq<Step> {
    Concat(Iterations(reading, c, numObjects, perUpload, k))
  }

  /** The trace of a run whose iteration k never receives an event. */
  function BlockedTrace(reading: nat -> int, c: nat, numObjects: nat, perUpload: nat, k: nat): seq<Step> {
    Trace(reading, c, numObjects, perUpload, k) +
    BlockedIteration(Reset, WatchStream(SignalInsertFilter), reading(c + 2 * k), Writes(numObjects, perUpload))
  }

  /** One iteration returns to idle and pushes the time between its two clock readings. */
  lemma IterationCompletes(reading: nat -> int, s: nat, numObjects: nat, perUpload: nat)
    ensures Run(Idle, Iteration(reading, s, numObjects, perUpload)) == Some(Idle)
    ensures Samples(Iteration(reading, s, numObjects, perUpload)) == [reading(s + 1) - reading(s)]
  {
    WatchedIterationCompletes(Reset, WatchStream(SignalInsertFilter), reading(s), Writes(numObjects, perUpload),
                              reading(s + 1));
  }

  lemma {:induction false} IterationsAt(reading: nat -> int, c: nat, numObjects: nat, perUpload: nat, k: nat,
                                        t: nat)
    requires t < k
    ensures Iterations(reading, c, numObjects, perUpload, k)[t] == Iteration(reading, c + 2 * t, numObjects, perUpload)
  {
    if t < k - 1 {
      IterationsAt(reading, c, numObjects, perUpload, k - 1, t);
    }
  }

  /**
   * A completed run is a well-ordered trace: it returns to idle and pushes
   * one sample per iteration, the elapsed time between its two clock readings.
   */
  lemma TraceWellOrdered(reading: nat -> int, c: nat, numObjects: nat, perUpload: nat, k: nat)
    ensures Run(Idle, Trace(reading, c, numObjects, perUpload, k)) == Some(Idle)
    ensures Samples(Trace(reading, c, numObjects, perUpload, k)) == Durations(reading, c, k)
  {
    var bs := Iterations(reading, c, numObjects, perUpload, k);
    forall t | 0 <= t < |bs|
      ensures Run(Idle, bs[t]) == Some(Idle) && Samples(bs[t]) == [Durations(reading, c, k)[t]]
    {
      IterationsAt(reading, c, numObjects, perUpload, k, t);
      IterationCompletes(reading, c + 2 * t, numObjects, perUpload);
      DurationAt(reading, c, k, t);
    }
    IterationsCompose(bs);
  }

  /** A blocked run stops with its timer running, after the writes of the blocked iteration. */
  lemma BlockedTraceWaits(reading: nat -> int, c: nat, numObjects: nat, perUpload: nat, k: nat)
    ensures Run(Idle, BlockedTrace(reading, c, numObjects, perUpload, k)) == Some(Timing(true, reading(c + 2 * k)))
    ensures Samples(BlockedTrace(reading, c, numObjects, perUpload, k)) == Durations(reading, c, k)
  {
    var blocked := BlockedIteration(Reset, WatchStream(SignalInsertFilter), reading(c + 2 * k),
                                    Writes(numObjects, perUpload));
    TraceWellOrdered(reading, c, numObjects, perUpload, k);
    BlockedIterationWaits(Reset, WatchStream(SignalInsertFilter), reading(c + 2 * k), Writes(numObjects, perUpload));
    RunAppend(Idle, Trace(reading, c, numObjects, perUpload, k), blocked);
    SamplesAppend(Trace(reading, c, numObjects, perUpload, k), blocked);
  }

  /** A log holding the first k iterations, extended by iteration k, holds the first k + 1. */
  lemma IterationExtendsRun(reading: nat -> int, c: nat, numObjects: nat, perUpload: nat, k: nat,
                            log0: seq<Step>, steps: seq<Step>, steps': seq<Step>)
    requires steps == log0 + Trace(reading, c, numObjects, perUpload, k)
    requires steps' == steps + Iteration(reading, c + 2 * k, numObjects, perUpload)
    ensures steps' == log0 + Trace(reading, c, numObjects, perUpload, k + 1)
  {
    var bs := Iterations(reading, c, numObjects, perUpload, k);
    var last := Iteration(reading, c + 2 * k, numObjects, perUpload);
    assert (bs + [last])[..k] == bs;
    AppendAssoc(log0, Trace(reading, c, numObjects, perUpload, k), last);
  }

  /** A log holding the first k iterations, extended by a blocked iteration, holds the blocked trace. */
  lemma IterationBlocksRun(reading: nat -> int, c: nat, numObjects: nat, perUpload: nat, k: nat,
                           log0: seq<Step>, steps: seq<Step>, steps': seq<Step>)
    requires steps == log0 + Trace(reading, c, numObjects, perUpload, k)
    requires steps' == steps + BlockedIteration(Reset, WatchStream(SignalInsertFilter), reading(c + 2 * k),
                                                Writes(numObjects, perUpload))
    ensures steps' == log0 + BlockedTrace(reading, c, numObjects, perUpload, k)
  {
    AppendAssoc(log0, Trace(reading, c, numObjects, perUpload, k),
                BlockedIteration(Reset, WatchStream(SignalInsertFilter), reading(c + 2 * k),
                                 Writes(numObjects, perUpload)));
  }

  /** JavaScript truthiness of a string value. */
  predicate Truthy(s: string) {
    s != ""
  }

  /**
   * The `then` callback of the change stream's first event (lines 68-73),
   * as written: its condition is the assignment of the signal name to the
   * event's document, and the value of that assignment, the non-empty
   * signal name, is truthy, so the callback renames the document and
   * resolves whatever the event was.
   */
  method OnEvent(event: StreamEvent) returns (resolve: bool)
    modifies event
    ensures resolve
    ensures event.operationType == old(event.operationType)
    ensures event.fullDocument == old(event.fullDocument).(name := SignalDocumentName)
  {
    event.fullDocument := event.fullDocument.(name := SignalDocumentName);
    resolve := Truthy(SignalDocumentName);
  }

  /** The comparison the callback's condition evidently means. */
  predicate IsSignalEvent(e: ChangeEvent) {
    e.fullDocument.name == SignalDocumentName
  }

  /** Off that filter the assignment differs from the comparison: any record name would resolve it. */
  lemma AssignmentIsNotComparison()
    ensures !IsSignalEvent(ChangeEvent("insert", DogRecord(ObjectId(0), "rex", 12)))
    ensures Truthy(SignalDocumentName)
  {
  }

  /** Some change event in `feed` passes the stream's filter: the insertion of the signal record. */
  predicate SignalSent(feed: seq<ChangeEvent>) {
    exists i :: 0 <= i < |feed| && MatchesFilter(SignalInsertFilter, feed[i])
  }

  /** The collection sees the signal insertion while the stream of iteration t is open. */
  predicate EventArrives(feeds: nat -> seq<ChangeEvent>, t: nat) {
    SignalSent(feeds(t))
  }

  /** The head of an iteration (lines 56-59): subscribe, clear the realm and sleep. */
  method ClearRealm(realm: Realm, log: Log)
    requires realm.role == MainRealm
    requires realm.Valid() && !realm.inTransaction
    modifies realm, log
    ensures realm.Valid() && !realm.inTransaction
    ensures realm.State() == Cleared(old(realm.State()))
    ensures log.steps == old(log.steps) + Reset
  {
    AddSubscriptionAndWait(realm, DogTable, BasicDogAgeQuery, log);
    DeleteAllObjs(realm, DogTable, log);
    Utilities.Sleep(1000, log);
  }

  /**
   * The `readerDone` promise (lines 62-74) up to its callback: watch the
   * collection with the signal filter and take the stream's first event.
   * `feed` holds every change event the collection sees while the stream is
   * open; the server passes on only those that match the filter, so an event
   * arrives exactly when one of them does, and it is then the insertion of
   * the signal record.
   */
  method OpenReader(collection: RemoteCollection, feed: seq<ChangeEvent>, log: Log)
    returns (event: Option<StreamEvent>)
    modifies log
    ensures log.steps == old(log.steps) + [WatchStream(SignalInsertFilter)]
    ensures event.Some? == SignalSent(feed)
    ensures event.Some? == (Filtered(SignalInsertFilter, feed) != [] &&
                            IsSignalEvent(Filtered(SignalInsertFilter, feed)[0]))
    ensures event.Some? ==>
              && fresh(event.value)
              && event.value.operationType == "insert"
              && event.value.fullDocument.name == SignalDocumentName
  {
    var stream := collection.Watch(SignalInsertFilter, feed, log);
    FilteredEvents(SignalInsertFilter, feed);
    event := stream.Next();
    if event.Some? {
      assert Filtered(SignalInsertFilter, feed)[0] in Filtered(SignalInsertFilter, feed);
    }
  }

  /**
   * One iteration of the loop (lines 55-87), logging its steps as it takes
   * them. `feed` holds every change event the collection sees while the
   * iteration's stream is open; the server passes on only those that match
   * the stream's filter. The iteration resolves exactly when one of them
   * does, and the event the callback then receives is the insertion of the
   * signal record, so the assignment in its condition agrees there with the
   * comparison it evidently means.
   */
  method RunIteration(realm: Realm, collection: RemoteCollection, ids: ObjectIdGenerator, clock: Clock, log: Log,
                      numObjects: nat, perUpload: nat, feed: seq<ChangeEvent>)
    returns (resolved: bool, sample: int)
    requires realm.role == MainRealm
    requires realm.Valid() && !realm.inTransaction
    modifies realm, ids, clock, log
    ensures realm.Valid() && !realm.inTransaction
    ensures realm.State() == AfterRound(old(realm.State()), old(ids.next), numObjects, perUpload)
    ensures ids.next == old(ids.next) + 2 * numObjects
    ensures resolved == SignalSent(feed)
    ensures resolved == (Filtered(SignalInsertFilter, feed) != [] &&
                         IsSignalEvent(Filtered(SignalInsertFilter, feed)[0]))
    ensures resolved ==>
              && log.steps == old(log.steps) + Iteration(clock.reading, old(clock.calls), numObjects, perUpload)
              && sample == clock.reading(old(clock.calls) + 1) - clock.reading(old(clock.calls))
              && clock.calls == old(clock.calls) + 2
    ensures !resolved ==>
              && log.steps == old(log.steps) + BlockedIteration(Reset, WatchStream(SignalInsertFilter),
                                                                clock.reading(old(clock.calls)),
                                                                Writes(numObjects, perUpload))
              && clock.calls == old(clock.calls) + 1
  {
    ghost var log0, c := log.steps, clock.calls;
    ClearRealm(realm, log);
    var event := OpenReader(collection, feed, log);
    var start := clock.Now(log, TimerStart);
    InsertObjectsToRealm(realm, ids, numObjects, perUpload, true, log);
    assert log.steps == log0 + BlockedIteration(Reset, WatchStream(SignalInsertFilter), start,
                                                Writes(numObjects, perUpload));
    if event.None? {
      resolved, sample := false, 0;
    } else {
      resolved := OnEvent(event.value);
      log.steps := log.steps + [AwaitSignal];
      var end := clock.Now(log, TimerEnd);
      sample := end - start;
      log.steps := log.steps + [PushSample(sample)];
      AwaitCompletes(log0, Reset, WatchStream(SignalInsertFilter), start, Writes(numObjects, perUpload), end,
                     log.steps);
    }
  }

  /**
   * Iteration `testNum` of the loop, taking the run from what the first
   * `testNum` iterations leave behind to what `testNum + 1` leave behind,
   * or to the wait of a blocked run.
   */
  method Pass(realm: Realm, collection: RemoteCollection, ids: ObjectIdGenerator, clock: Clock, log: Log,
              numObjects: nat, perUpload: nat, feeds: nat -> seq<ChangeEvent>, testNum: nat, timers: seq<int>,
              ghost c: nat, ghost c0: nat, ghost before: RealmState, ghost log0: seq<Step>)
    returns (resolved: bool, timers': seq<int>)
    requires realm.role == MainRealm
    requires realm.Valid() && !realm.inTransaction
    requires clock.calls == c + 2 * testNum
    requires ids.next == IdsAfter(c0, numObjects, testNum)
    requires log.steps == log0 + Trace(clock.reading, c, numObjects, perUpload, testNum)
    requires timers == Durations(clock.reading, c, testNum)
    requires realm.State() == AfterRounds(before, c0, numObjects, perUpload, testNum)
    modifies realm, ids, clock, log
    ensures resolved == EventArrives(feeds, testNum)
    ensures realm.Valid() && !realm.inTransaction
    ensures realm.State() == AfterRounds(before, c0, numObjects, perUpload, testNum + 1)
    ensures ids.next == IdsAfter(c0, numObjects, testNum + 1)
    ensures resolved ==>
              && clock.calls == c + 2 * (testNum + 1)
              && log.steps == log0 + Trace(clock.reading, c, numObjects, perUpload, testNum + 1)
              && timers' == Durations(clock.reading, c, testNum + 1)
    ensures !resolved ==>
              && log.steps == log0 + BlockedTrace(clock.reading, c, numObjects, perUpload, testNum)
              && timers' == timers
  {
    ghost var steps := log.steps;
    var sample;
    resolved, sample := RunIteration(realm, collection, ids, clock, log, numObjects, perUpload, feeds(testNum));
    if resolved {
      timers' := timers + [sample];
      IterationExtendsRun(clock.reading, c, numObjects, perUpload, testNum, log0, steps, log.steps);
      SampleExtendsDurations(clock.reading, c, testNum, timers, sample);
    } else {
      timers' := timers;
      IterationBlocksRun(clock.reading, c, numObjects, perUpload, testNum, log0, steps, log.steps);
    }
  }

  /**
   * The loop of lines 55-87 run from its first iteration; `Some(t)` when the
   * stream of iteration t never delivers an event.
   */
  method Loop(realm: Realm, collection: RemoteCollection, ids: ObjectIdGenerator, clock: Clock, log: Log,
              numTests: nat, numObjects: nat, perUpload: nat, feeds: nat -> seq<ChangeEvent>)
    returns (blocked: Option<nat>, timers: seq<int>)
    requires realm.role == MainRealm
    requires realm.Valid() && !realm.inTransaction
    modifies realm, ids, clock, log
    ensures blocked.None? <==> forall t :: 0 <= t < numTests ==> EventArrives(feeds, t)
    ensures blocked.Some? ==>
              && blocked.value < numTests
              && !EventArrives(feeds, blocked.value)
              && (forall t :: 0 <= t < blocked.value ==> EventArrives(feeds, t))
              && log.steps == old(log.steps) + BlockedTrace(clock.reading, old(clock.calls), numObjects, perUpload,
                                                            blocked.value)
              && timers == Durations(clock.reading, old(clock.calls), blocked.value)
    ensures blocked.None? ==>
              && log.steps == old(log.steps) + Trace(clock.reading, old(clock.calls), numObjects, perUpload, numTests)
              && timers == Durations(clock.reading, old(clock.calls), numTests)
    ensures var k := if blocked.None? then numTests else blocked.value + 1;
            && realm.Valid()
            && realm.State() == AfterRounds(old(realm.State()), old(ids.next), numObjects, perUpload, k)
            && ids.next == IdsAfter(old(ids.next), numObjects, k)
  {
    ghost var c := clock.calls;
    ghost var c0 := ids.next;
    ghost var before := realm.State();
    ghost var log0 := log.steps;
    timers := [];
    var testNum := 0;
    blocked := None;
    while testNum < numTests
      invariant 0 <= testNum <= numTests
      invariant blocked.None?
      invariant forall t :: 0 <= t < testNum ==> EventArrives(feeds, t)
      invariant clock.calls == c + 2 * testNum
      invariant ids.next == IdsAfter(c0, numObjects, testNum)
      invariant log.steps == log0 + Trace(clock.reading, c, numObjects, perUpload, testNum)
      invariant timers == Durations(clock.reading, c, testNum)
      invariant realm.Valid() && !realm.inTransaction
      invariant realm.State() == AfterRounds(before, c0, numObjects, perUpload, testNum)
    {
      var resolved;
      resolved, timers := Pass(realm, collection, ids, clock, log, numObjects, perUpload, feeds, testNum,
                               timers, c, c0, before, log0);
      if !resolved {
        blocked := Some(testNum);
        break;
      }
      forall t | 0 <= t < testNum + 1
        ensures EventArrives(feeds, t)
      {
      }
      testNum := testNum + 1;
    }
  }

  /**
   * `RealmToMongo(realm, collection, readline)` with the three answers
   * given. `feeds(t)` are the change events the collection sees while the
   * stream of iteration t is open; the run blocks at the first iteration
   * none of whose events passes the stream's filter.
   */
  method RealmToMongo(realm: Realm, collection: RemoteCollection, ids: ObjectIdGenerator, clock: Clock, log: Log,
                      numTests: nat, numObjects: nat, perUpload: nat, feeds: nat -> seq<ChangeEvent>)
    returns (outcome: Outcome)
    requires realm.role == MainRealm
    requires realm.Valid() && !realm.inTransaction
    modifies realm, ids, clock, log
    ensures outcome.Completed? <==> forall t :: 0 <= t < numTests ==> EventArrives(feeds, t)
    ensures outcome.Blocked? ==>
              && outcome.iteration < numTests
              && !EventArrives(feeds, outcome.iteration)
              && (forall t :: 0 <= t < outcome.iteration ==> EventArrives(feeds, t))
              && log.steps == old(log.steps) + BlockedTrace(clock.reading, old(clock.calls), numObjects, perUpload,
                                                            outcome.iteration)
              && outcome.timers == Durations(clock.reading, old(clock.calls), outcome.iteration)
    ensures outcome.Completed? ==>
              && log.steps == old(log.steps) + Trace(clock.reading, old(clock.calls), numObjects, perUpload, numTests)
              && outcome.timers == Durations(clock.reading, old(clock.calls), numTests)
              && outcome.report == TimerReport(TestName, outcome.timers)
    ensures var k := if outcome.Completed? then numTests else outcome.iteration + 1;
            && realm.Valid()
            && realm.State() == AfterRounds(old(realm.State()), old(ids.next), numObjects, perUpload, k)
            && ids.next == IdsAfter(old(ids.next), numObjects, k)
  {
    var blocked, timers;
    blocked, timers := Loop(realm, collection, ids, clock, log, numTests, numObjects, perUpload, feeds);
    if blocked.Some? {
      outcome := Blocked(blocked.value, timers);
    } else {
      var report := PrintTimers(TestName, timers);
      outcome := Completed(timers, report);
    }
  }
}
