/**
 * The RealmToRealm workload (src/workloads/realm-to-realm.tsx): per
 * iteration subscribe and clear both realms, arm a change listener on the
 * reader realm, start the timer, write the records to the writer realm,
 * wait for the listener to see the signal record arrive, stop the timer
 * and push the sample.
 */
module RealmToRealmWorkload {
  import opened Wrappers
  import opened Schemas
  import opened RealmStore
  import opened Batching
  import opened Utilities
  import opened Protocol
  import opened WriterRounds
  import opened Steps

  const TestName: string := "realm-to-realm"

  /**
   * The reset at the head of every iteration: addSubscriptionAndWait on the
   * reader, then on the writer, then deleteAllObjs on each in that order.
   */
  const Reset: seq<Step> :=
    [Subscribe(ReaderRealm, DogSubscription), Subscribe(MainRealm, DogSubscription),
     DeleteAll(ReaderRealm), DeleteAll(MainRealm)]

  /** The one timed write of an iteration: insertObjectsToRealm on the writer, with the signal record. */
  function Writes(numObjects: nat, perUpload: nat): seq<Step> {
    [InsertObjects(MainRealm, numObjects, perUpload, true)]
  }

  /** An iteration whose clock readings are call numbers s and s + 1. */
  function Iteration(reading: nat -> int, s: nat, numObjects: nat, perUpload: nat): seq<Step> {
    WatchedIteration(Reset, ArmListener(ReaderRealm), reading(s), Writes(numObjects, perUpload), reading(s + 1))
  }

  /** The first k iterations, the clock starting at call number c. */
  function Iterations(reading: nat -> int, c: nat, numObjects: nat, perUpload: nat, k: nat): (r: seq<seq<Step>>)
    ensures |r| == k
  {
    if k == 0 then []
    else Iterations(reading, c, numObjects, perUpload, k - 1) +
         [Iteration(reading, c + 2 * (k - 1), numObjects, perUpload)]
  }

  /** The trace of a run that completes k iterations. */
  function Trace(reading: nat -> int, c: nat, numObjects: nat, perUpload: nat, k: nat): seq<Step> {
    Concat(Iterations(reading, c, numObjects, perUpload, k))
  }

  /** The trace of a run whose iteration k waits for a signal that never arrives. */
  function BlockedTrace(reading: nat -> int, c: nat, numObjects: nat, perUpload: nat, k: nat): seq<Step> {
    Trace(reading, c, numObjects, perUpload, k) +
    BlockedIteration(Reset, ArmListener(ReaderRealm), reading(c + 2 * k), Writes(numObjects, perUpload))
  }

  /** One iteration returns to idle and pushes the time between its two clock readings. */
  lemma IterationCompletes(reading: nat -> int, s: nat, numObjects: nat, perUpload: nat)
    ensures Run(Idle, Iteration(reading, s, numObjects, perUpload)) == Some(Idle)
    ensures Samples(Iteration(reading, s, numObjects, perUpload)) == [reading(s + 1) - reading(s)]
  {
    WatchedIterationCompletes(Reset, ArmListener(ReaderRealm), reading(s), Writes(numObjects, perUpload),
                              reading(s + 1));
  }

  lemma {:induction false} IterationsAt(reading: nat -> int, c: nat, numObjects: nat, perUpload: nat, k: nat,
                                        t: nat)
    requires t < k
    ensures Iterations(reading, c, numObjects, perUpload, k)[t] == Iteration(reading, c + 2 * t, numObjects, perUpload)
  {
    if t < k - 1 {
      IterationsAt(reading, c, numObjects, perUpload, k - 1, t);
    }
  }

  /**
   * A completed run is a well-ordered trace: it returns to idle and pushes
   * one sample per iteration, the elapsed time between its two clock readings.
   */
  lemma TraceWellOrdered(reading: nat -> int, c: nat, numObjects: nat, perUpload: nat, k: nat)
    ensures Run(Idle, Trace(reading, c, numObjects, perUpload, k)) == Some(Idle)
    ensures Samples(Trace(reading, c, numObjects, perUpload, k)) == Durations(reading, c, k)
  {
    var bs := Iterations(reading, c, numObjects, perUpload, k);
    forall t | 0 <= t < |bs|
      ensures Run(Idle, bs[t]) == Some(Idle) && Samples(bs[t]) == [Durations(reading, c, k)[t]]
    {
      IterationsAt(reading, c, numObjects, perUpload, k, t);
      IterationCompletes(reading, c + 2 * t, numObjects, perUpload);
      DurationAt(reading, c, k, t);
    }
    IterationsCompose(bs);
  }

  /** A blocked run stops with its timer running, after the writes of the blocked iteration. */
  lemma BlockedTraceWaits(reading: nat -> int, c: nat, numObjects: nat, perUpload: nat, k: nat)
    ensures Run(Idle, BlockedTrace(reading, c, numObjects, perUpload, k)) == Some(Timing(true, reading(c + 2 * k)))
    ensures Samples(BlockedTrace(reading, c, numObjects, perUpload, k)) == Durations(reading, c, k)
  {
    var blocked := BlockedIteration(Reset, ArmListener(ReaderRealm), reading(c + 2 * k),
                                    Writes(numObjects, perUpload));
    TraceWellOrdered(reading, c, numObjects, perUpload, k);
    BlockedIterationWaits(Reset, ArmListener(ReaderRealm), reading(c + 2 * k), Writes(numObjects, perUpload));
    RunAppend(Idle, Trace(reading, c, numObjects, perUpload, k), blocked);
    SamplesAppend(Trace(reading, c, numObjects, perUpload, k), blocked);
  }

  /** A log holding the first k iterations, extended by iteration k, holds the first k + 1. */
  lemma IterationExtendsRun(reading: nat -> int, c: nat, numObjects: nat, perUpload: nat, k: nat,
                            log0: seq<Step>, steps: seq<Step>, steps': seq<Step>)
    requires steps == log0 + Trace(reading, c, numObjects, perUpload, k)
    requires steps' == steps + Iteration(reading, c + 2 * k, numObjects, perUpload)
    ensures steps' == log0 + Trace(reading, c, numObjects, perUpload, k + 1)
  {
    var bs := Iterations(reading, c, numObjects, perUpload, k);
    var last := Iteration(reading, c + 2 * k, numObjects, perUpload);
    assert (bs + [last])[..k] == bs;
    AppendAssoc(log0, Trace(reading, c, numObjects, perUpload, k), last);
  }

  /** A log holding the first k iterations, extended by a blocked iteration, holds the blocked trace. */
  lemma IterationBlocksRun(reading: nat -> int, c: nat, numObjects: nat, perUpload: nat, k: nat,
                           log0: seq<Step>, steps: seq<Step>, steps': seq<Step>)
    requires steps == log0 + Trace(reading, c, numObjects, perUpload, k)
    requires steps' == steps + BlockedIteration(Reset, ArmListener(ReaderRealm), reading(c + 2 * k),
                                                Writes(numObjects, perUpload))
    ensures steps' == log0 + BlockedTrace(reading, c, numObjects, perUpload, k)
  {
    AppendAssoc(log0, Trace(reading, c, numObjects, perUpload, k),
                BlockedIteration(Reset, ArmListener(ReaderRealm), reading(c + 2 * k), Writes(numObjects, perUpload)));
  }

  /**
   * The reader realm after one iteration: subscribed to the Dog query,
   * emptied in one committed write, and with one more change listener
   * registered, since no iteration removes its listener.
   */
  function ReaderRound(s: RealmState): RealmState {
    Cleared(s).(listenerCount := s.listenerCount + 1)
  }

  /** The reader realm after k iterations. */
  function ReaderRounds(s: RealmState, k: nat): RealmState {
    if k == 0 then s else ReaderRound(ReaderRounds(s, k - 1))
  }

  /**
   * After k iterations the reader realm has committed k empty writes more and
   * holds k listeners more; after at least one it is subscribed to the Dog
   * query alone and holds no local objects.
   */
  lemma {:induction false} ReaderRoundsClosedForm(s: RealmState, k: nat)
    ensures ReaderRounds(s, k) ==
            s.(subscriptions := if k == 0 then s.subscriptions else {DogSubscription},
               objects := if k == 0 then s.objects else [],
               committed := s.committed + EmptyTransactions(k),
               begun := s.begun + k,
               listenerCount := s.listenerCount + k)
  {
    if k > 0 {
      ReaderRoundsClosedForm(s, k - 1);
      AppendAssoc(s.committed, EmptyTransactions(k - 1), [[]]);
    }
  }

  /**
   * The head of an iteration (lines 51-68): both realms subscribed and
   * cleared, and a fresh listener armed on the reader.
   */
  method ResetBoth(writer: Realm, reader: Realm, log: Log) returns (listener: InsertionListener)
    requires writer.role == MainRealm && reader.role == ReaderRealm
    requires writer.Valid() && !writer.inTransaction
    requires reader.Valid() && !reader.inTransaction
    modifies writer, reader, log
    ensures writer.Valid() && !writer.inTransaction
    ensures reader.Valid() && !reader.inTransaction
    ensures writer.State() == Cleared(old(writer.State()))
    ensures reader.State() == ReaderRound(old(reader.State()))
    ensures fresh(listener) && !listener.resolved
    ensures log.steps == old(log.steps) + Reset + [ArmListener(ReaderRealm)]
  {
    AddSubscriptionAndWait(reader, DogTable, BasicDogAgeQuery, log);
    AddSubscriptionAndWait(writer, DogTable, BasicDogAgeQuery, log);
    DeleteAllObjs(reader, DogTable, log);
    DeleteAllObjs(writer, DogTable, log);
    listener := reader.AddListener(log);
  }

  /**
   * One iteration of the loop (lines 49-85), logging its steps as it takes
   * them. `notes` are the notifications the reader's listener receives
   * while it is awaited.
   */
  method RunIteration(writer: Realm, reader: Realm, ids: ObjectIdGenerator, clock: Clock, log: Log,
                      numObjects: nat, perUpload: nat, notes: seq<ChangeSet>)
    returns (resolved: bool, sample: int)
    requires writer.role == MainRealm && reader.role == ReaderRealm
    requires writer.Valid() && !writer.inTransaction
    requires reader.Valid() && !reader.inTransaction
    modifies writer, reader, ids, clock, log
    ensures writer.Valid() && !writer.inTransaction
    ensures reader.Valid() && !reader.inTransaction
    ensures writer.State() == AfterRound(old(writer.State()), old(ids.next), numObjects, perUpload)
    ensures reader.State() == ReaderRound(old(reader.State()))
    ensures ids.next == old(ids.next) + 2 * numObjects
    ensures resolved == AnyInsertsSignal(notes)
    ensures resolved ==>
              && log.steps == old(log.steps) + Iteration(clock.reading, old(clock.calls), numObjects, perUpload)
              && sample == clock.reading(old(clock.calls) + 1) - clock.reading(old(clock.calls))
              && clock.calls == old(clock.calls) + 2
    ensures !resolved ==>
              && log.steps == old(log.steps) + BlockedIteration(Reset, ArmListener(ReaderRealm),
                                                                clock.reading(old(clock.calls)),
                                                                Writes(numObjects, perUpload))
              && clock.calls == old(clock.calls) + 1
  {
    ghost var log0 := log.steps;
    var listener := ResetBoth(writer, reader, log);
    var start := clock.Now(log, TimerStart);
    InsertObjectsToRealm(writer, ids, numObjects, perUpload, true, log);
    assert log.steps == log0 + BlockedIteration(Reset, ArmListener(ReaderRealm), start,
                                                Writes(numObjects, perUpload));
    listener.Deliver(notes);
    resolved := listener.resolved;
    if resolved {
      log.steps := log.steps + [AwaitSignal];
      var end := clock.Now(log, TimerEnd);
      sample := end - start;
      log.steps := log.steps + [PushSample(sample)];
      AwaitCompletes(log0, Reset, ArmListener(ReaderRealm), start, Writes(numObjects, perUpload), end, log.steps);
    } else {
      sample := 0;
    }
  }

  /**
   * Where k rounds leave the two realms and the id generator: both realms
   * valid with no transaction open, the writer holding what the k rounds
   * wrote and the reader cleared k times.
   */
  ghost predicate RoundsDone(writer: Realm, reader: Realm, ids: ObjectIdGenerator, writer0: RealmState,
                             reader0: RealmState, c0: nat, numObjects: nat, perUpload: nat, k: nat)
    reads writer, reader, ids
  {
    && writer.Valid() && !writer.inTransaction
    && reader.Valid() && !reader.inTransaction
    && writer.State() == AfterRounds(writer0, c0, numObjects, perUpload, k)
    && reader.State() == ReaderRounds(reader0, k)
    && ids.next == IdsAfter(c0, numObjects, k)
  }

  /**
   * Iteration `testNum` of the loop, taking the run from what the first
   * `testNum` iterations leave behind to what `testNum + 1` leave behind,
   * or to the wait of a blocked run.
   */
  method Pass(writer: Realm, reader: Realm, ids: ObjectIdGenerator, clock: Clock, log: Log,
              numObjects: nat, perUpload: nat, notifications: nat -> seq<ChangeSet>, testNum: nat,
              timers: seq<int>, ghost c: nat, ghost c0: nat, ghost writer0: RealmState,
              ghost reader0: RealmState, ghost log0: seq<Step>)
    returns (resolved: bool, timers': seq<int>)
    requires writer.role == MainRealm && reader.role == ReaderRealm
    requires RoundsDone(writer, reader, ids, writer0, reader0, c0, numObjects, perUpload, testNum)
    requires clock.calls == c + 2 * testNum
    requires log.steps == log0 + Trace(clock.reading, c, numObjects, perUpload, testNum)
    requires timers == Durations(clock.reading, c, testNum)
    modifies writer, reader, ids, clock, log
    ensures resolved == SignalArrives(notifications, testNum)
    ensures RoundsDone(writer, reader, ids, writer0, reader0, c0, numObjects, perUpload, testNum + 1)
    ensures resolved ==>
              && clock.calls == c + 2 * (testNum + 1)
              && log.steps == log0 + Trace(clock.reading, c, numObjects, perUpload, testNum + 1)
              && timers' == Durations(clock.reading, c, testNum + 1)
    ensures !resolved ==>
              && log.steps == log0 + BlockedTrace(clock.reading, c, numObjects, perUpload, testNum)
              && timers' == timers
  {
    ghost var steps := log.steps;
    var sample;
    resolved, sample := RunIteration(writer, reader, ids, clock, log, numObjects, perUpload,
                                     notifications(testNum));
    if resolved {
      timers' := timers + [sample];
      IterationExtendsRun(clock.reading, c, numObjects, perUpload, testNum, log0, steps, log.steps);
      SampleExtendsDurations(clock.reading, c, testNum, timers, sample);
    } else {
      timers' := timers;
      IterationBlocksRun(clock.reading, c, numObjects, perUpload, testNum, log0, steps, log.steps);
    }
  }

  /**
   * The loop of lines 49-85 run from its first iteration; `Some(t)` when the
   * listener of iteration t never sees the signal record.
   */
  method Loop(writer: Realm, reader: Realm, ids: ObjectIdGenerator, clock: Clock, log: Log,
              numTests: nat, numObjects: nat, perUpload: nat, notifications: nat -> seq<ChangeSet>)
    returns (blocked: Option<nat>, timers: seq<int>)
    requires writer.role == MainRealm && reader.role == ReaderRealm
    requires writer.Valid() && !writer.inTransaction
    requires reader.Valid() && !reader.inTransaction
    modifies writer, reader, ids, clock, log
    ensures blocked.None? <==> forall t :: 0 <= t < numTests ==> SignalArrives(notifications, t)
    ensures blocked.Some? ==>
              && blocked.value < numTests
              && !SignalArrives(notifications, blocked.value)
              && (forall t :: 0 <= t < blocked.value ==> SignalArrives(notifications, t))
              && log.steps == old(log.steps) + BlockedTrace(clock.reading, old(clock.calls), numObjects, perUpload,
                                                            blocked.value)
              && timers == Durations(clock.reading, old(clock.calls), blocked.value)
    ensures blocked.None? ==>
              && log.steps == old(log.steps) + Trace(clock.reading, old(clock.calls), numObjects, perUpload, numTests)
              && timers == Durations(clock.reading, old(clock.calls), numTests)
    ensures var k := if blocked.None? then numTests else blocked.value + 1;
            RoundsDone(writer, reader, ids, old(writer.State()), old(reader.State()), old(ids.next),
                       numObjects, perUpload, k)
  {
    ghost var c := clock.calls;
    ghost var c0 := ids.next;
    ghost var writer0, reader0 := writer.State(), reader.State();
    ghost var log0 := log.steps;
    timers := [];
    var testNum := 0;
    blocked := None;
    while testNum < numTests
      invariant 0 <= testNum <= numTests
      invariant blocked.None?
      invariant forall t :: 0 <= t < testNum ==> SignalArrives(notifications, t)
      invariant clock.calls == c + 2 * testNum
      invariant RoundsDone(writer, reader, ids, writer0, reader0, c0, numObjects, perUpload, testNum)
      invariant log.steps == log0 + Trace(clock.reading, c, numObjects, perUpload, testNum)
      invariant timers == Durations(clock.reading, c, testNum)
    {
      var resolved;
      resolved, timers := Pass(writer, reader, ids, clock, log, numObjects, perUpload, notifications, testNum,
                               timers, c, c0, writer0, reader0, log0);
      if !resolved {
        blocked := Some(testNum);
        break;
      }
      forall t | 0 <= t < testNum + 1
        ensures SignalArrives(notifications, t)
      {
      }
      testNum := testNum + 1;
    }
  }

  /**
   * `RealmToRealm(writerRealm, readerRealm, readline)` with the three answers
   * given: the loop and the report of line 87. The writer is the main realm
   * and the reader the one the menu opens before every run, so the two are
   * distinct objects. `notifications(t)` are what the reader's listener of
   * iteration t receives; the run blocks at the first iteration whose
   * notifications never insert the signal record.
   */
  method RealmToRealm(writer: Realm, reader: Realm, ids: ObjectIdGenerator, clock: Clock, log: Log,
                      numTests: nat, numObjects: nat, perUpload: nat, notifications: nat -> seq<ChangeSet>)
    returns (outcome: Outcome)
    requires writer.role == MainRealm && reader.role == ReaderRealm
    requires writer.Valid() && !writer.inTransaction
    requires reader.Valid() && !reader.inTransaction
    modifies writer, reader, ids, clock, log
    ensures outcome.Completed? <==> forall t :: 0 <= t < numTests ==> SignalArrives(notifications, t)
    ensures outcome.Blocked? ==>
              && outcome.iteration < numTests
              && !SignalArrives(notifications, outcome.iteration)
              && (forall t :: 0 <= t < outcome.iteration ==> SignalArrives(notifications, t))
              && log.steps == old(log.steps) + BlockedTrace(clock.reading, old(clock.calls), numObjects, perUpload,
                                                            outcome.iteration)
              && outcome.timers == Durations(clock.reading, old(clock.calls), outcome.iteration)
    ensures outcome.Completed? ==>
              && log.steps == old(log.steps) + Trace(clock.reading, old(clock.calls), numObjects, perUpload, numTests)
              && outcome.timers == Durations(clock.reading, old(clock.calls), numTests)
              && outcome.report == TimerReport(TestName, outcome.timers)
    ensures var k := if outcome.Completed? then numTests else outcome.iteration + 1;
            && writer.Valid() && reader.Valid()
            && writer.State() == AfterRounds(old(writer.State()), old(ids.next), numObjects, perUpload, k)
            && reader.State() == ReaderRounds(old(reader.State()), k)
            && ids.next == IdsAfter(old(ids.next), numObjects, k)
  {
    var blocked, timers;
    blocked, timers := Loop(writer, reader, ids, clock, log, numTests, numObjects, perUpload, notifications);
    if blocked.Some? {
      outcome := Blocked(blocked.value, timers);
    } else {
      var report := PrintTimers(TestName, timers);
      outcome := Completed(timers, report);
    }
  }
}
