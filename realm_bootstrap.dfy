/**
 * The RealmBootstrap workload (src/workloads/realm-bootstrap.tsx): seed the
 * realm once with records, then per iteration drop every subscription and
 * time how long re-subscribing to the Dog query takes.
 */
module RealmBootstrapWorkload {
  import opened Wrappers
  import opened Schemas
  import opened RealmStore
  import opened Batching
  import opened Utilities
  import opened Protocol
  import opened Steps

  const TestName: string := "realm-bootstrap"

  /** The seed writes its records 100 to a write transaction. */
  const SeedPerUpload: nat := 100

  /**
   * The seed before the loop: addSubscriptionAndWait, deleteAllObjs,
   * sleep(1000), insertObjectsToRealm without the signal record, and the
   * upload of the local changes.
   */
  function Seed(numObjects: nat): seq<Step> {
    [Subscribe(MainRealm, DogSubscription), DeleteAll(MainRealm), Sleep(1000),
     InsertObjects(MainRealm, numObjects, SeedPerUpload, false), Upload(MainRealm)]
  }

  /** An iteration whose clock readings are call numbers s and s + 1: only the re-subscription is timed. */
  function Iteration(reading: nat -> int, s: nat): seq<Step> {
    TimedIteration([UnsubscribeAll(MainRealm)], reading(s), [Subscribe(MainRealm, DogSubscription)], reading(s + 1))
  }

  /** The first k iterations, the clock starting at call number c. */
  function Iterations(reading: nat -> int, c: nat, k: nat): (r: seq<seq<Step>>)
    ensures |r| == k
  {
    if k == 0 then [] else Iterations(reading, c, k - 1) + [Iteration(reading, c + 2 * (k - 1))]
  }

  /** The trace of a run of k iterations. */
  function Trace(reading: nat -> int, c: nat, numObjects: nat, k: nat): seq<Step> {
    Seed(numObjects) + Concat(Iterations(reading, c, k))
  }

  lemma {:induction false} IterationsAt(reading: nat -> int, c: nat, k: nat, t: nat)
    requires t < k
    ensures Iterations(reading, c, k)[t] == Iteration(reading, c + 2 * t)
  {
    if t < k - 1 {
      IterationsAt(reading, c, k - 1, t);
    }
  }

  /** The iterations return to idle, each pushing the time its re-subscription took. */
  lemma IterationsWellOrdered(reading: nat -> int, c: nat, k: nat)
    ensures Run(Idle, Concat(Iterations(reading, c, k))) == Some(Idle)
    ensures Samples(Concat(Iterations(reading, c, k))) == Durations(reading, c, k)
  {
    var bs := Iterations(reading, c, k);
    forall t | 0 <= t < |bs|
      ensures Run(Idle, bs[t]) == Some(Idle) && Samples(bs[t]) == [Durations(reading, c, k)[t]]
    {
      IterationsAt(reading, c, k, t);
      TimedIterationCompletes([UnsubscribeAll(MainRealm)], reading(c + 2 * t),
                              [Subscribe(MainRealm, DogSubscription)], reading(c + 2 * t + 1));
      DurationAt(reading, c, k, t);
    }
    IterationsCompose(bs);
  }

  /**
   * A run is a well-ordered trace: the seed keeps the protocol idle and
   * pushes nothing, and the iterations follow it.
   */
  lemma TraceWellOrdered(reading: nat -> int, c: nat, numObjects: nat, k: nat)
    ensures Run(Idle, Trace(reading, c, numObjects, k)) == Some(Idle)
    ensures Samples(Trace(reading, c, numObjects, k)) == Durations(reading, c, k)
  {
    var seed, body := Seed(numObjects), Concat(Iterations(reading, c, k));
    IterationsWellOrdered(reading, c, k);
    SetupStaysIdle(seed);
    RunAppend(Idle, seed, body);
    SamplesAppend(seed, body);
  }

  /**
   * One more iteration extends the logged steps and the samples of the
   * iterations before it by its own.
   */
  lemma IterationExtendsRun(reading: nat -> int, c: nat, k: nat, log0: seq<Step>, steps: seq<Step>,
                            steps': seq<Step>, timers: seq<int>, sample: int)
    requires steps == log0 + Concat(Iterations(reading, c, k))
    requires timers == Durations(reading, c, k)
    requires steps' == steps + Iteration(reading, c + 2 * k)
    requires sample == reading(c + 2 * k + 1) - reading(c + 2 * k)
    ensures steps' == log0 + Concat(Iterations(reading, c, k + 1))
    ensures timers + [sample] == Durations(reading, c, k + 1)
  {
    var bs := Iterations(reading, c, k);
    assert (bs + [Iteration(reading, c + 2 * k)])[..k] == bs;
    AppendAssoc(log0, Concat(bs), Iteration(reading, c + 2 * k));
    DurationsStep(reading, c, k + 1);
  }

  /**
   * The realm once seeded: cleared, then holding the records of
   * insertObjectsToRealm written 100 to a transaction.
   */
  function Seeded(s: RealmState, base: nat, numObjects: nat): RealmState {
    if numObjects == 0 then Cleared(s)
    else CommitChunks(Cleared(s), base, numObjects, false, Chunks(numObjects, SeedPerUpload))
  }

  /**
   * The seeded realm is subscribed to the Dog query alone and holds exactly
   * the n seeded records, in order, none of them named the signal; its
   * history is the delete followed by the seed's transactions.
   */
  lemma SeededState(s: RealmState, base: nat, numObjects: nat, j: nat)
    requires j < numObjects
    ensures var r := Seeded(s, base, numObjects);
            && r.subscriptions == {DogSubscription}
            && r.objects == Txn(base, numObjects, false, Interval(1, numObjects))
            && r.committed == s.committed + [[]] + Txns(base, numObjects, false, Chunks(numObjects, SeedPerUpload))
            && r.objects[j].name != SignalDocumentName
  {
    InsertionClosedForm(Cleared(s), base, numObjects, SeedPerUpload, false);
    SignalNamesOnlyTheLastObject(base, numObjects, false, Interval(1, numObjects)[j]);
  }

  /** Lines 41-46: subscribe, clear, sleep, write the seed records and upload them. */
  method SeedRealm(realm: Realm, ids: ObjectIdGenerator, log: Log, numObjects: nat)
    requires realm.role == MainRealm
    requires realm.Valid() && !realm.inTransaction
    modifies realm, ids, log
    ensures realm.Valid() && !realm.inTransaction
    ensures realm.State() == Seeded(old(realm.State()), old(ids.next), numObjects)
    ensures ids.next == old(ids.next) + 2 * numObjects
    ensures log.steps == old(log.steps) + Seed(numObjects)
  {
    AddSubscriptionAndWait(realm, DogTable, BasicDogAgeQuery, log);
    DeleteAllObjs(realm, DogTable, log);
    Utilities.Sleep(1000, log);
    InsertObjectsToRealm(realm, ids, numObjects, SeedPerUpload, false, log);
    realm.UploadAllLocalChanges(log);
  }

  /**
   * One iteration of the loop (lines 50-57): drop every subscription, then
   * time the re-subscription to the Dog query.
   */
  method RunIteration(realm: Realm, clock: Clock, log: Log) returns (sample: int)
    requires realm.role == MainRealm
    modifies realm, clock, log
    ensures realm.State() == old(realm.State()).(subscriptions := {DogSubscription})
    ensures log.steps == old(log.steps) + Iteration(clock.reading, old(clock.calls))
    ensures sample == clock.reading(old(clock.calls) + 1) - clock.reading(old(clock.calls))
    ensures clock.calls == old(clock.calls) + 2
  {
    RemoveAllSubscriptionsAndWait(realm, log);
    var start := clock.Now(log, TimerStart);
    AddSubscriptionAndWait(realm, DogTable, BasicDogAgeQuery, log);
    var end := clock.Now(log, TimerEnd);
    sample := end - start;
    log.steps := log.steps + [PushSample(sample)];
  }

  /**
   * The loop of lines 50-57 on a realm subscribed to the Dog query: every
   * iteration leaves the realm as it found it.
   */
  method Loop(realm: Realm, clock: Clock, log: Log, numTests: nat) returns (timers: seq<int>)
    requires realm.role == MainRealm
    requires realm.subscriptions == {DogSubscription}
    modifies realm, clock, log
    ensures realm.State() == old(realm.State())
    ensures log.steps == old(log.steps) + Concat(Iterations(clock.reading, old(clock.calls), numTests))
    ensures timers == Durations(clock.reading, old(clock.calls), numTests)
  {
    ghost var c := clock.calls;
    ghost var seeded := realm.State();
    ghost var log0 := log.steps;
    timers := [];
    var testNum := 0;
    while testNum < numTests
      invariant 0 <= testNum <= numTests
      invariant clock.calls == c + 2 * testNum
      invariant log.steps == log0 + Concat(Iterations(clock.reading, c, testNum))
      invariant timers == Durations(clock.reading, c, testNum)
      invariant realm.State() == seeded
    {
      ghost var steps := log.steps;
      var sample := RunIteration(realm, clock, log);
      IterationExtendsRun(clock.reading, c, testNum, log0, steps, log.steps, timers, sample);
      timers := timers + [sample];
      testNum := testNum + 1;
    }
  }

  /**
   * `RealmBootstrap(realm, readline)` with the two answers given. The run
   * always completes, and the loop leaves the seeded realm as it found it.
   */
  method RealmBootstrap(realm: Realm, ids: ObjectIdGenerator, clock: Clock, log: Log, numTests: nat,
                        numObjects: nat)
    returns (outcome: Outcome)
    requires realm.role == MainRealm
    requires realm.Valid() && !realm.inTransaction
    modifies realm, ids, clock, log
    ensures outcome.Completed?
    ensures log.steps == old(log.steps) + Trace(clock.reading, old(clock.calls), numObjects, numTests)
    ensures outcome.timers == Durations(clock.reading, old(clock.calls), numTests)
    ensures outcome.report == TimerReport(TestName, outcome.timers)
    ensures realm.Valid()
    ensures realm.State() == Seeded(old(realm.State()), old(ids.next), numObjects)
    ensures ids.next == old(ids.next) + 2 * numObjects
  {
    SeedRealm(realm, ids, log, numObjects);
    assert realm.subscriptions == {DogSubscription} by {
      if numObjects > 0 {
        InsertionClosedForm(Cleared(old(realm.State())), old(ids.next), numObjects, SeedPerUpload, false);
      }
    }
    var timers := Loop(realm, clock, log, numTests);
    AppendAssoc(old(log.steps), Seed(numObjects), Concat(Iterations(clock.reading, old(clock.calls), numTests)));
    var report := PrintTimers(TestName, timers);
    outcome := Completed(timers, report);
  }
}
