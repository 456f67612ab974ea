/**
 * The MongoToRealm workload (src/workloads/mongo-to-realm.tsx): subscribe
 * once, then per iteration clear the realm, arm a listener for the signal
 * record, start the timer, write the records straight to the remote
 * collection, wait for the listener, stop the timer and push the sample.
 */
module MongoToRealmWorkload {
  import opened Wrappers
  import opened Schemas
  import opened RealmStore
  import opened Utilities
  import opened Protocol
  import opened Steps
  import RemoteBatching

  const TestName: string := "mongo-to-realm"

  /** The reset at the head of every iteration: deleteAllObjs, then sleep(1000). */
  const Reset: seq<Step> := [DeleteAll(MainRealm), Sleep(1000)]

  /** The one timed write of an iteration: the insertMany loop. */
  function Writes(numObjects: nat, w: nat): seq<Step> {
    [InsertRemote(numObjects, w)]
  }

  /** An iteration whose clock readings are call numbers s and s + 1. */
  function Iteration(reading: nat -> int, s: nat, numObjects: nat, w: nat): seq<Step> {
    WatchedIteration(Reset, ArmListener(MainRealm), reading(s), Writes(numObjects, w), reading(s + 1))
  }

  /** The first k iterations, the clock starting at call number c. */
  function Iterations(reading: nat -> int, c: nat, numObjects: nat, w: nat, k: nat): (r: seq<seq<Step>>)
    ensures |r| == k
  {
    if k == 0 then []
    else Iterations(reading, c, numObjects, w, k - 1) + [Iteration(reading, c + 2 * (k - 1), numObjects, w)]
  }

  /** The trace of a run that completes k iterations. */
  function Trace(reading: nat -> int, c: nat, numObjects: nat, w: nat, k: nat): seq<Step> {
    [Subscribe(MainRealm, DogSubscription)] + Concat(Iterations(reading, c, numObjects, w, k))
  }

  /** The trace of a run whose iteration k never sees the signal. */
  function BlockedTrace(reading: nat -> int, c: nat, numObjects: nat, w: nat, k: nat): seq<Step> {
    Trace(reading, c, numObjects, w, k) +
    BlockedIteration(Reset, ArmListener(MainRealm), reading(c + 2 * k), Writes(numObjects, w))
  }

  /** One iteration returns to idle and pushes the time between its two clock readings. */
  lemma IterationCompletes(reading: nat -> int, s: nat, numObjects: nat, w: nat)
    ensures Run(Idle, Iteration(reading, s, numObjects, w)) == Some(Idle)
    ensures Samples(Iteration(reading, s, numObjects, w)) == [reading(s + 1) - reading(s)]
  {
    WatchedIterationCompletes(Reset, ArmListener(MainRealm), reading(s), Writes(numObjects, w), reading(s + 1));
  }

  lemma IterationsWellOrdered(reading: nat -> int, c: nat, numObjects: nat, w: nat, k: nat)
    ensures Run(Idle, Concat(Iterations(reading, c, numObjects, w, k))) == Some(Idle)
    ensures Samples(Concat(Iterations(reading, c, numObjects, w, k))) == Durations(reading, c, k)
  {
    var bs := Iterations(reading, c, numObjects, w, k);
    forall t | 0 <= t < |bs|
      ensures Run(Idle, bs[t]) == Some(Idle) && Samples(bs[t]) == [Durations(reading, c, k)[t]]
    {
      IterationsAt(reading, c, numObjects, w, k, t);
      IterationCompletes(reading, c + 2 * t, numObjects, w);
      DurationAt(reading, c, k, t);
    }
    IterationsCompose(bs);
  }

  lemma {:induction false} IterationsAt(reading: nat -> int, c: nat, numObjects: nat, w: nat, k: nat, t: nat)
    requires t < k
    ensures Iterations(reading, c, numObjects, w, k)[t] == Iteration(reading, c + 2 * t, numObjects, w)
  {
    if t < k - 1 {
      IterationsAt(reading, c, numObjects, w, k - 1, t);
    }
  }

  /**
   * A completed run is a well-ordered trace: it returns to idle and pushes
   * one sample per iteration, the elapsed time between its two clock readings.
   */
  lemma TraceWellOrdered(reading: nat -> int, c: nat, numObjects: nat, w: nat, k: nat)
    ensures Run(Idle, Trace(reading, c, numObjects, w, k)) == Some(Idle)
    ensures Samples(Trace(reading, c, numObjects, w, k)) == Durations(reading, c, k)
    ensures |Samples(Trace(reading, c, numObjects, w, k))| == k
  {
    var head := [Subscribe(MainRealm, DogSubscription)];
    var body := Concat(Iterations(reading, c, numObjects, w, k));
    IterationsWellOrdered(reading, c, numObjects, w, k);
    SetupStaysIdle(head);
    RunAppend(Idle, head, body);
    SamplesAppend(head, body);
  }

  /** A blocked run stops with its timer running, after the writes of the blocked iteration. */
  lemma BlockedTraceWaits(reading: nat -> int, c: nat, numObjects: nat, w: nat, k: nat)
    ensures Run(Idle, BlockedTrace(reading, c, numObjects, w, k)) == Some(Timing(true, reading(c + 2 * k)))
    ensures Samples(BlockedTrace(reading, c, numObjects, w, k)) == Durations(reading, c, k)
  {
    TraceWellOrdered(reading, c, numObjects, w, k);
    BlockedIterationWaits(Reset, ArmListener(MainRealm), reading(c + 2 * k), Writes(numObjects, w));
    RunAppend(Idle, Trace(reading, c, numObjects, w, k),
              BlockedIteration(Reset, ArmListener(MainRealm), reading(c + 2 * k), Writes(numObjects, w)));
    SamplesAppend(Trace(reading, c, numObjects, w, k),
                  BlockedIteration(Reset, ArmListener(MainRealm), reading(c + 2 * k), Writes(numObjects, w)));
  }

  /** The subscription is added once, before the loop, and never again. */
  lemma SubscribedOnceBeforeTheLoop(reading: nat -> int, c: nat, numObjects: nat, w: nat, k: nat)
    ensures Trace(reading, c, numObjects, w, k)[0] == Subscribe(MainRealm, DogSubscription)
    ensures forall j :: 1 <= j < |Trace(reading, c, numObjects, w, k)| ==>
              !Trace(reading, c, numObjects, w, k)[j].Subscribe?
  {
    var bs := Iterations(reading, c, numObjects, w, k);
    var t := Trace(reading, c, numObjects, w, k);
    forall j | 1 <= j < |t|
      ensures !t[j].Subscribe?
    {
      assert t[j] == Concat(bs)[j - 1];
      ConcatElement(bs, j - 1);
      var i, m :| 0 <= i < |bs| && 0 <= m < |bs[i]| && Concat(bs)[j - 1] == bs[i][m];
      IterationsAt(reading, c, numObjects, w, k, i);
    }
  }

  /** A log holding the first k iterations, extended by iteration k, holds the first k + 1. */
  lemma IterationExtendsRun(reading: nat -> int, c: nat, numObjects: nat, w: nat, k: nat,
                            log0: seq<Step>, steps: seq<Step>, steps': seq<Step>)
    requires steps == log0 + Trace(reading, c, numObjects, w, k)
    requires steps' == steps + Iteration(reading, c + 2 * k, numObjects, w)
    ensures steps' == log0 + Trace(reading, c, numObjects, w, k + 1)
  {
    var bs := Iterations(reading, c, numObjects, w, k);
    var last := Iteration(reading, c + 2 * k, numObjects, w);
    assert (bs + [last])[..k] == bs;
    AppendAssoc([Subscribe(MainRealm, DogSubscription)], Concat(bs), last);
    AppendAssoc(log0, Trace(reading, c, numObjects, w, k), last);
  }

  /** A log holding the first k iterations, extended by a blocked iteration, holds the blocked trace. */
  lemma IterationBlocksRun(reading: nat -> int, c: nat, numObjects: nat, w: nat, k: nat,
                           log0: seq<Step>, steps: seq<Step>, steps': seq<Step>)
    requires steps == log0 + Trace(reading, c, numObjects, w, k)
    requires steps' == steps + BlockedIteration(Reset, ArmListener(MainRealm), reading(c + 2 * k), Writes(numObjects, w))
    ensures steps' == log0 + BlockedTrace(reading, c, numObjects, w, k)
  {
    AppendAssoc(log0, Trace(reading, c, numObjects, w, k),
                BlockedIteration(Reset, ArmListener(MainRealm), reading(c + 2 * k), Writes(numObjects, w)));
  }

  /** The id generator's position after k iterations: each draws 2g + 1 ids. */
  function IdsAfter(c0: nat, numObjects: nat, k: nat): nat {
    if k == 0 then c0 else IdsAfter(c0, numObjects, k - 1) + 2 * RemoteBatching.Generated(numObjects) + 1
  }

  lemma {:induction false} IdsAfterClosedForm(c0: nat, numObjects: nat, k: nat)
    ensures IdsAfter(c0, numObjects, k) == c0 + k * (2 * RemoteBatching.Generated(numObjects) + 1)
  {
    if k > 0 {
      IdsAfterClosedForm(c0, numObjects, k - 1);
    }
  }

  /** The insertMany calls of the first k iterations, iteration by iteration. */
  function RemoteIterations(c0: nat, numObjects: nat, w: nat, k: nat): seq<seq<Dog>> {
    if k == 0 then []
    else RemoteIterations(c0, numObjects, w, k - 1) +
         RemoteBatching.RemoteCalls(IdsAfter(c0, numObjects, k - 1), numObjects, w)
  }

  /**
   * The realm after one iteration: deleteAllObjs empties it in one committed
   * write, and the iteration leaves one more change listener registered.
   */
  function AfterIteration(s: RealmState): RealmState {
    s.(objects := [], committed := s.committed + [[]], begun := s.begun + 1, listenerCount := s.listenerCount + 1)
  }

  /** The realm after k iterations. */
  function AfterIterations(s: RealmState, k: nat): RealmState {
    if k == 0 then s else AfterIteration(AfterIterations(s, k - 1))
  }

  /**
   * After k >= 1 iterations the realm holds no objects, k empty writes more
   * were committed and k listeners more are registered; nothing else changed.
   */
  lemma {:induction false} AfterIterationsClosedForm(s: RealmState, k: nat)
    ensures AfterIterations(s, k) == s.(objects := if k == 0 then s.objects else [],
                                        committed := s.committed + EmptyTransactions(k),
                                        begun := s.begun + k,
                                        listenerCount := s.listenerCount + k)
  {
    if k > 0 {
      AfterIterationsClosedForm(s, k - 1);
      AppendAssoc(s.committed, EmptyTransactions(k - 1), [[]]);
    }
  }

  /**
   * One iteration of the loop (lines 62-96), logging its steps as it takes
   * them. `notes` are the notifications the listener receives while it is
   * awaited.
   */
  method RunIteration(realm: Realm, collection: RemoteCollection, ids: ObjectIdGenerator, clock: Clock, log: Log,
                      numObjects: nat, numObjectsPerWrite: nat, notes: seq<ChangeSet>)
    returns (resolved: bool, sample: int)
    requires realm.role == MainRealm
    requires realm.Valid() && !realm.inTransaction
    modifies realm, collection, ids, clock, log
    ensures realm.Valid()
    ensures realm.State() == AfterIteration(old(realm.State()))
    ensures collection.calls == old(collection.calls) +
                                RemoteBatching.RemoteCalls(old(ids.next), numObjects, numObjectsPerWrite)
    ensures ids.next == old(ids.next) + 2 * RemoteBatching.Generated(numObjects) + 1
    ensures resolved == AnyInsertsSignal(notes)
    ensures resolved ==>
              && log.steps == old(log.steps) + Iteration(clock.reading, old(clock.calls), numObjects, numObjectsPerWrite)
              && sample == clock.reading(old(clock.calls) + 1) - clock.reading(old(clock.calls))
              && clock.calls == old(clock.calls) + 2
    ensures !resolved ==>
              && log.steps == old(log.steps) + BlockedIteration(Reset, ArmListener(MainRealm),
                                                                clock.reading(old(clock.calls)),
                                                                Writes(numObjects, numObjectsPerWrite))
              && clock.calls == old(clock.calls) + 1
  {
    DeleteAllObjs(realm, DogTable, log);
    Utilities.Sleep(1000, log);
    var listener := realm.AddListener(log);
    var start := clock.Now(log, TimerStart);
    RemoteBatching.SendBatches(collection, ids, numObjects, numObjectsPerWrite, log);
    listener.Deliver(notes);
    resolved := listener.resolved;
    if !resolved {
      sample := 0;
      return;
    }
    log.steps := log.steps + [AwaitSignal];
    var end := clock.Now(log, TimerEnd);
    sample := end - start;
    log.steps := log.steps + [PushSample(sample)];
  }

  /**
   * Iteration `testNum` of the loop of lines 62-96, taking the run from what
   * the first `testNum` iterations leave behind to what `testNum + 1` leave
   * behind, or to the wait of a blocked run.
   */
  method Pass(realm: Realm, collection: RemoteCollection, ids: ObjectIdGenerator, clock: Clock, log: Log,
              numObjects: nat, numObjectsPerWrite: nat, notifications: nat -> seq<ChangeSet>, testNum: nat,
              timers: seq<int>,
              ghost c: nat, ghost c0: nat, ghost before: RealmState, ghost remote: seq<seq<Dog>>,
              ghost log0: seq<Step>)
    returns (resolved: bool, timers': seq<int>)
    requires realm.role == MainRealm
    requires realm.Valid() && !realm.inTransaction
    requires clock.calls == c + 2 * testNum
    requires ids.next == IdsAfter(c0, numObjects, testNum)
    requires log.steps == log0 + Trace(clock.reading, c, numObjects, numObjectsPerWrite, testNum)
    requires timers == Durations(clock.reading, c, testNum)
    requires realm.State() == AfterIterations(before, testNum)
    requires collection.calls == remote + RemoteIterations(c0, numObjects, numObjectsPerWrite, testNum)
    modifies realm, collection, ids, clock, log
    ensures resolved == SignalArrives(notifications, testNum)
    ensures realm.Valid() && !realm.inTransaction
    ensures realm.State() == AfterIterations(before, testNum + 1)
    ensures collection.calls == remote + RemoteIterations(c0, numObjects, numObjectsPerWrite, testNum + 1)
    ensures ids.next == IdsAfter(c0, numObjects, testNum + 1)
    ensures resolved ==>
              && clock.calls == c + 2 * (testNum + 1)
              && log.steps == log0 + Trace(clock.reading, c, numObjects, numObjectsPerWrite, testNum + 1)
              && timers' == Durations(clock.reading, c, testNum + 1)
    ensures !resolved ==>
              && log.steps == log0 + BlockedTrace(clock.reading, c, numObjects, numObjectsPerWrite, testNum)
              && timers' == timers
  {
    ghost var steps := log.steps;
    var sample;
    resolved, sample := RunIteration(realm, collection, ids, clock, log, numObjects,
                                     numObjectsPerWrite, notifications(testNum));
    AppendAssoc(remote, RemoteIterations(c0, numObjects, numObjectsPerWrite, testNum),
                RemoteBatching.RemoteCalls(IdsAfter(c0, numObjects, testNum), numObjects, numObjectsPerWrite));
    if resolved {
      timers' := timers + [sample];
      IterationExtendsRun(clock.reading, c, numObjects, numObjectsPerWrite, testNum, log0, steps, log.steps);
      SampleExtendsDurations(clock.reading, c, testNum, timers, sample);
    } else {
      timers' := timers;
      IterationBlocksRun(clock.reading, c, numObjects, numObjectsPerWrite, testNum, log0, steps, log.steps);
    }
  }

  /**
   * The loop of lines 62-96 run from its first iteration; `Some(t)` when
   * iteration t blocks on a listener that never fires.
   */
  method Loop(realm: Realm, collection: RemoteCollection, ids: ObjectIdGenerator, clock: Clock, log: Log,
              numTests: nat, numObjects: nat, numObjectsPerWrite: nat,
              notifications: nat -> seq<ChangeSet>, ghost log0: seq<Step>)
    returns (blocked: Option<nat>, timers: seq<int>)
    requires realm.role == MainRealm
    requires realm.Valid() && !realm.inTransaction
    requires log.steps == log0 + Trace(clock.reading, clock.calls, numObjects, numObjectsPerWrite, 0)
    modifies realm, collection, ids, clock, log
    ensures blocked.None? <==> forall t :: 0 <= t < numTests ==> SignalArrives(notifications, t)
    ensures blocked.Some? ==>
              && blocked.value < numTests
              && !SignalArrives(notifications, blocked.value)
              && (forall t :: 0 <= t < blocked.value ==> SignalArrives(notifications, t))
              && log.steps == log0 + BlockedTrace(clock.reading, old(clock.calls), numObjects, numObjectsPerWrite,
                                                  blocked.value)
              && timers == Durations(clock.reading, old(clock.calls), blocked.value)
    ensures blocked.None? ==>
              && log.steps == log0 + Trace(clock.reading, old(clock.calls), numObjects, numObjectsPerWrite, numTests)
              && timers == Durations(clock.reading, old(clock.calls), numTests)
    ensures var k := if blocked.None? then numTests else blocked.value + 1;
            && realm.Valid()
            && realm.State() == AfterIterations(old(realm.State()), k)
            && collection.calls == old(collection.calls) +
                                   RemoteIterations(old(ids.next), numObjects, numObjectsPerWrite, k)
            && ids.next == IdsAfter(old(ids.next), numObjects, k)
  {
    ghost var c := clock.calls;
    ghost var c0 := ids.next;
    ghost var before := realm.State();
    ghost var remote := collection.calls;
    timers := [];
    var testNum := 0;
    blocked := None;
    while testNum < numTests
      invariant 0 <= testNum <= numTests
      invariant blocked.None?
      invariant forall t :: 0 <= t < testNum ==> SignalArrives(notifications, t)
      invariant clock.calls == c + 2 * testNum
      invariant ids.next == IdsAfter(c0, numObjects, testNum)
      invariant log.steps == log0 + Trace(clock.reading, c, numObjects, numObjectsPerWrite, testNum)
      invariant timers == Durations(clock.reading, c, testNum)
      invariant realm.Valid() && !realm.inTransaction
      invariant realm.State() == AfterIterations(before, testNum)
      invariant collection.calls == remote + RemoteIterations(c0, numObjects, numObjectsPerWrite, testNum)
    {
      var resolved;
      resolved, timers := Pass(realm, collection, ids, clock, log, numObjects, numObjectsPerWrite,
                               notifications, testNum, timers, c, c0, before, remote, log0);
      if !resolved {
        blocked := Some(testNum);
        break;
      }
      forall t | 0 <= t < testNum + 1
        ensures SignalArrives(notifications, t)
      {
      }
      testNum := testNum + 1;
    }
  }

  /**
   * `MongoToRealm(realm, collection, readline)` with the three answers given.
   * `notifications(t)` are the notifications the listener of iteration t
   * receives; the run blocks at the first iteration whose notifications
   * never name the signal record.
   */
  method MongoToRealm(realm: Realm, collection: RemoteCollection, ids: ObjectIdGenerator, clock: Clock, log: Log,
                      numTests: nat, numObjects: nat, numObjectsPerWrite: nat,
                      notifications: nat -> seq<ChangeSet>)
    returns (outcome: Outcome)
    requires realm.role == MainRealm
    requires realm.Valid() && !realm.inTransaction
    modifies realm, collection, ids, clock, log
    ensures outcome.Completed? <==> forall t :: 0 <= t < numTests ==> SignalArrives(notifications, t)
    ensures outcome.Blocked? ==>
              && outcome.iteration < numTests
              && !SignalArrives(notifications, outcome.iteration)
              && (forall t :: 0 <= t < outcome.iteration ==> SignalArrives(notifications, t))
              && log.steps == old(log.steps) + BlockedTrace(clock.reading, old(clock.calls), numObjects,
                                                            numObjectsPerWrite, outcome.iteration)
              && outcome.timers == Durations(clock.reading, old(clock.calls), outcome.iteration)
    ensures outcome.Completed? ==>
              && log.steps == old(log.steps) + Trace(clock.reading, old(clock.calls), numObjects,
                                                     numObjectsPerWrite, numTests)
              && outcome.timers == Durations(clock.reading, old(clock.calls), numTests)
              && outcome.report == TimerReport(TestName, outcome.timers)
    ensures var k := if outcome.Completed? then numTests else outcome.iteration + 1;
            && realm.Valid()
            && realm.State() == AfterIterations(old(realm.State()).(subscriptions := {DogSubscription}), k)
            && collection.calls == old(collection.calls) +
                                   RemoteIterations(old(ids.next), numObjects, numObjectsPerWrite, k)
            && ids.next == IdsAfter(old(ids.next), numObjects, k)
  {
    AddSubscriptionAndWait(realm, DogTable, BasicDogAgeQuery, log);
    assert Trace(clock.reading, clock.calls, numObjects, numObjectsPerWrite, 0) == [Subscribe(MainRealm, DogSubscription)];
    var blocked, timers;
    blocked, timers := Loop(realm, collection, ids, clock, log, numTests, numObjects, numObjectsPerWrite,
                            notifications, old(log.steps));
    if blocked.Some? {
      outcome := Blocked(blocked.value, timers);
    } else {
      var report := PrintTimers(TestName, timers);
      outcome := Completed(timers, report);
    }
  }
}
