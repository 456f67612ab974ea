/**
 * The measurement protocol every workload follows, as a trace of abstract
 * steps and an automaton that accepts the well-ordered traces: setup steps
 * while idle, then (optionally) arm a watcher, start the timer, do the
 * timed writes, await the watcher when one was armed, stop the timer and
 * push the elapsed time as one sample.
 */
module Protocol {
  import opened Wrappers
  import opened Schemas
  import opened RealmStore
  import opened Utilities
  import opened Steps

  /** Steps allowed between iterations. */
  predicate IsSetup(s: Step) {
    s.Subscribe? || s.UnsubscribeAll? || s.DeleteAll? || s.Sleep? || s.InsertObjects? || s.Upload?
  }

  /** Steps allowed while the timer runs. */
  predicate IsWrite(s: Step) {
    s.Subscribe? || s.InsertObjects? || s.InsertRemote?
  }

  /** Steps that arm a watcher for the signal record. */
  predicate IsWatch(s: Step) {
    s.ArmListener? || s.WatchStream?
  }

  datatype Phase =
    | Idle
    | Armed
    | Timing(watched: bool, start: int)
    | Signaled(start: int)
    | Stopped(elapsed: int)

  /** The phase after one step, or None when the step is out of order. */
  function Next(p: Phase, s: Step): Option<Phase> {
    match p
    case Idle =>
      if IsSetup(s) then Some(Idle)
      else if IsWatch(s) then Some(Armed)
      else if s.StartTimer? then Some(Timing(false, s.at))
      else None
    case Armed =>
      if s.StartTimer? then Some(Timing(true, s.at)) else None
    case Timing(watched, start) =>
      if IsWrite(s) then Some(p)
      else if watched && s == AwaitSignal then Some(Signaled(start))
      else if !watched && s.StopTimer? then Some(Stopped(s.at - start))
      else None
    case Signaled(start) =>
      if s.StopTimer? then Some(Stopped(s.at - start)) else None
    case Stopped(elapsed) =>
      if s == PushSample(elapsed) then Some(Idle) else None
  }

  /** The phase after a whole trace, or None when some step is out of order. */
  function Run(p: Phase, t: seq<Step>): Option<Phase> {
    if t == [] then Some(p)
    else match Run(p, t[..|t| - 1])
         case None => None
         case Some(q) => Next(q, t[|t| - 1])
  }

  function Resume(r: Option<Phase>, t: seq<Step>): Option<Phase> {
    match r
    case None => None
    case Some(q) => Run(q, t)
  }

  /** The samples a trace pushes, in order. */
  function Samples(t: seq<Step>): seq<int> {
    if t == [] then []
    else Samples(t[..|t| - 1]) + (if t[|t| - 1].PushSample? then [t[|t| - 1].sample] else [])
  }

  /** How many times a trace starts the timer. */
  function TimerStarts(t: seq<Step>): nat {
    if t == [] then 0
    else TimerStarts(t[..|t| - 1]) + (if t[|t| - 1].StartTimer? then 1 else 0)
  }

  /** The iterations a trace goes through, one after the other. */
  function Concat(bs: seq<seq<Step>>): seq<Step> {
    if bs == [] then [] else Concat(bs[..|bs| - 1]) + bs[|bs| - 1]
  }

  lemma {:induction false} RunAppend(p: Phase, a: seq<Step>, b: seq<Step>)
    ensures Run(p, a + b) == Resume(Run(p, a), b)
  {
    if b == [] {
      assert a + b == a;
    } else {
      var b', s := b[..|b| - 1], b[|b| - 1];
      RunAppend(p, a, b');
      assert (a + b)[..|a + b| - 1] == a + b';
    }
  }

  lemma SamplesAppend(a: seq<Step>, b: seq<Step>)
    ensures Samples(a + b) == Samples(a) + Samples(b)
  {
    if b == [] {
      assert a + b == a;
    } else {
      assert (a + b)[..|a + b| - 1] == a + b[..|b| - 1];
      SamplesAppend(a, b[..|b| - 1]);
    }
  }

  predicate AllSetup(t: seq<Step>) {
    forall i :: 0 <= i < |t| ==> IsSetup(t[i])
  }

  predicate AllWrites(t: seq<Step>) {
    forall i :: 0 <= i < |t| ==> IsWrite(t[i])
  }

  /** Setup steps keep the protocol idle and push no sample. */
  lemma {:induction false} SetupStaysIdle(t: seq<Step>)
    requires AllSetup(t)
    ensures Run(Idle, t) == Some(Idle) && Samples(t) == []
  {
    if t != [] {
      SetupStaysIdle(t[..|t| - 1]);
    }
  }

  /** Writes keep the timer running and push no sample. */
  lemma {:induction false} WritesKeepTiming(t: seq<Step>, watched: bool, start: int)
    requires AllWrites(t)
    ensures Run(Timing(watched, start), t) == Some(Timing(watched, start)) && Samples(t) == []
  {
    if t != [] {
      WritesKeepTiming(t[..|t| - 1], watched, start);
    }
  }

  /** An iteration that arms a watcher and waits for the signal record. */
  function WatchedIteration(setup: seq<Step>, watch: Step, start: int, writes: seq<Step>, stop: int): seq<Step> {
    setup + [watch, StartTimer(start)] + writes + [AwaitSignal, StopTimer(stop), PushSample(stop - start)]
  }

  /** A watched iteration whose await never returns: it ends after the writes. */
  function BlockedIteration(setup: seq<Step>, watch: Step, start: int, writes: seq<Step>): seq<Step> {
    setup + [watch, StartTimer(start)] + writes
  }

  /** A blocked iteration whose await returns, then stops the timer and pushes, is the watched iteration. */
  lemma AwaitCompletes(log0: seq<Step>, setup: seq<Step>, watch: Step, start: int, writes: seq<Step>, stop: int,
                       steps: seq<Step>)
    requires steps == log0 + BlockedIteration(setup, watch, start, writes) + [AwaitSignal] + [StopTimer(stop)] +
                      [PushSample(stop - start)]
    ensures steps == log0 + WatchedIteration(setup, watch, start, writes, stop)
  {
    var tail := [AwaitSignal, StopTimer(stop), PushSample(stop - start)];
    assert [AwaitSignal] + [StopTimer(stop)] + [PushSample(stop - start)] == tail;
    assert steps == log0 + (BlockedIteration(setup, watch, start, writes) + tail);
  }

  /** An iteration that times its writes alone, with no watcher. */
  function TimedIteration(setup: seq<Step>, start: int, writes: seq<Step>, stop: int): seq<Step> {
    setup + [StartTimer(start)] + writes + [StopTimer(stop), PushSample(stop - start)]
  }

  lemma RunOne(p: Phase, s: Step)
    ensures Run(p, [s]) == Next(p, s)
    ensures Samples([s]) == if s.PushSample? then [s.sample] else []
  {
    assert [s][..0] == [];
  }

  /** Arming a watcher and starting the timer, from idle. */
  lemma ArmThenStart(watch: Step, start: int)
    requires IsWatch(watch)
    ensures Run(Idle, [watch, StartTimer(start)]) == Some(Timing(true, start))
    ensures Samples([watch, StartTimer(start)]) == []
  {
    assert [watch, StartTimer(start)] == [watch] + [StartTimer(start)];
    RunAppend(Idle, [watch], [StartTimer(start)]);
    SamplesAppend([watch], [StartTimer(start)]);
    RunOne(Idle, watch);
    RunOne(Armed, StartTimer(start));
  }

  /** Awaiting the signal, stopping the timer and pushing the sample. */
  lemma AwaitStopPush(start: int, stop: int)
    ensures Run(Timing(true, start), [AwaitSignal, StopTimer(stop), PushSample(stop - start)]) == Some(Idle)
    ensures Samples([AwaitSignal, StopTimer(stop), PushSample(stop - start)]) == [stop - start]
  {
    var tail := [StopTimer(stop), PushSample(stop - start)];
    assert [AwaitSignal, StopTimer(stop), PushSample(stop - start)] == [AwaitSignal] + tail;
    RunAppend(Timing(true, start), [AwaitSignal], tail);
    SamplesAppend([AwaitSignal], tail);
    RunOne(Timing(true, start), AwaitSignal);
    StopPush(Signaled(start), start, stop);
  }

  /** Stopping a running timer, then pushing the elapsed time. */
  lemma StopPush(p: Phase, start: int, stop: int)
    requires p == Signaled(start) || p == Timing(false, start)
    ensures Run(p, [StopTimer(stop), PushSample(stop - start)]) == Some(Idle)
    ensures Samples([StopTimer(stop), PushSample(stop - start)]) == [stop - start]
  {
    assert [StopTimer(stop), PushSample(stop - start)] == [StopTimer(stop)] + [PushSample(stop - start)];
    RunAppend(p, [StopTimer(stop)], [PushSample(stop - start)]);
    SamplesAppend([StopTimer(stop)], [PushSample(stop - start)]);
    RunOne(p, StopTimer(stop));
    RunOne(Stopped(stop - start), PushSample(stop - start));
  }

  lemma WatchedIterationCompletes(setup: seq<Step>, watch: Step, start: int, writes: seq<Step>, stop: int)
    requires AllSetup(setup) && IsWatch(watch) && AllWrites(writes)
    ensures Run(Idle, WatchedIteration(setup, watch, start, writes, stop)) == Some(Idle)
    ensures Samples(WatchedIteration(setup, watch, start, writes, stop)) == [stop - start]
  {
    var head := setup + [watch, StartTimer(start)];
    var tail := [AwaitSignal, StopTimer(stop), PushSample(stop - start)];
    BlockedIterationWaits(setup, watch, start, writes);
    AwaitStopPush(start, stop);
    RunAppend(Idle, head + writes, tail);
    SamplesAppend(head + writes, tail);
  }

  lemma BlockedIterationWaits(setup: seq<Step>, watch: Step, start: int, writes: seq<Step>)
    requires AllSetup(setup) && IsWatch(watch) && AllWrites(writes)
    ensures Run(Idle, BlockedIteration(setup, watch, start, writes)) == Some(Timing(true, start))
    ensures Samples(BlockedIteration(setup, watch, start, writes)) == []
  {
    var head := setup + [watch, StartTimer(start)];
    SetupStaysIdle(setup);
    ArmThenStart(watch, start);
    RunAppend(Idle, setup, [watch, StartTimer(start)]);
    WritesKeepTiming(writes, true, start);
    RunAppend(Idle, head, writes);
    SamplesAppend(setup, [watch, StartTimer(start)]);
    SamplesAppend(head, writes);
  }

  /** The setup, the start of the timer and the writes of an unwatched iteration leave the timer running. */
  lemma TimedHeadRuns(setup: seq<Step>, start: int, writes: seq<Step>)
    requires AllSetup(setup) && AllWrites(writes)
    ensures Run(Idle, setup + [StartTimer(start)] + writes) == Some(Timing(false, start))
    ensures Samples(setup + [StartTimer(start)] + writes) == []
  {
    var head := setup + [StartTimer(start)];
    SetupStaysIdle(setup);
    RunOne(Idle, StartTimer(start));
    RunAppend(Idle, setup, [StartTimer(start)]);
    WritesKeepTiming(writes, false, start);
    RunAppend(Idle, head, writes);
    SamplesAppend(setup, [StartTimer(start)]);
    SamplesAppend(head, writes);
  }

  lemma TimedIterationCompletes(setup: seq<Step>, start: int, writes: seq<Step>, stop: int)
    requires AllSetup(setup) && AllWrites(writes)
    ensures Run(Idle, TimedIteration(setup, start, writes, stop)) == Some(Idle)
    ensures Samples(TimedIteration(setup, start, writes, stop)) == [stop - start]
  {
    var body := setup + [StartTimer(start)] + writes;
    var tail := [StopTimer(stop), PushSample(stop - start)];
    TimedHeadRuns(setup, start, writes);
    StopPush(Timing(false, start), start, stop);
    assert TimedIteration(setup, start, writes, stop) == body + tail;
    RunAppend(Idle, body, tail);
    SamplesAppend(body, tail);
  }

  /** Iterations that each return to idle compose into a trace that returns to idle. */
  lemma {:induction false} ConcatRuns(bs: seq<seq<Step>>)
    requires forall i :: 0 <= i < |bs| ==> Run(Idle, bs[i]) == Some(Idle)
    ensures Run(Idle, Concat(bs)) == Some(Idle)
  {
    if bs != [] {
      var init, last := bs[..|bs| - 1], bs[|bs| - 1];
      assert forall i :: 0 <= i < |init| ==> init[i] == bs[i];
      ConcatRuns(init);
      RunAppend(Idle, Concat(init), last);
    }
  }

  /** Iterations that each push one sample compose into a trace pushing those samples, in order. */
  lemma {:induction false} ConcatSamples(bs: seq<seq<Step>>)
    requires forall i :: 0 <= i < |bs| ==> |Samples(bs[i])| == 1
    ensures |Samples(Concat(bs))| == |bs|
    ensures forall i :: 0 <= i < |bs| ==> Samples(Concat(bs))[i] == Samples(bs[i])[0]
  {
    if bs != [] {
      var init, last := bs[..|bs| - 1], bs[|bs| - 1];
      assert forall i :: 0 <= i < |init| ==> init[i] == bs[i];
      ConcatSamples(init);
      SamplesAppend(Concat(init), last);
      var before, after := Samples(Concat(init)), Samples(last);
      assert Samples(Concat(bs)) == before + after;
      forall i | 0 <= i < |bs|
        ensures Samples(Concat(bs))[i] == Samples(bs[i])[0]
      {
        if i < |init| {
          assert bs[i] == init[i];
          assert (before + after)[i] == before[i];
        } else {
          assert (before + after)[i] == after[0];
        }
      }
    }
  }

  /**
   * Iterations that each return to idle with one sample compose: the whole
   * trace returns to idle and pushes one sample per iteration, in order.
   */
  lemma IterationsCompose(bs: seq<seq<Step>>)
    requires forall i :: 0 <= i < |bs| ==> Run(Idle, bs[i]) == Some(Idle) && |Samples(bs[i])| == 1
    ensures Run(Idle, Concat(bs)) == Some(Idle)
    ensures |Samples(Concat(bs))| == |bs|
    ensures forall i :: 0 <= i < |bs| ==> Samples(Concat(bs))[i] == Samples(bs[i])[0]
  {
    ConcatRuns(bs);
    ConcatSamples(bs);
  }

  /** The phase reached by a trace whose timer has started and not yet been stopped. */
  predicate TimerRunning(p: Phase) {
    p.Timing? || p.Signaled?
  }

  /**
   * Every timer start is matched by exactly one sample, except the start of
   * an iteration still in progress.
   */
  lemma {:induction false} OneSamplePerTimerStart(t: seq<Step>)
    requires Run(Idle, t).Some?
    ensures TimerStarts(t) == |Samples(t)| + (if Run(Idle, t).value.Idle? || Run(Idle, t).value.Armed? then 0 else 1)
  {
    if t != [] {
      OneSamplePerTimerStart(t[..|t| - 1]);
    }
  }

  /** An accepted trace's prefixes are accepted. */
  lemma PrefixRuns(t: seq<Step>, j: nat)
    requires Run(Idle, t).Some? && j <= |t|
    ensures Run(Idle, t[..j]).Some?
  {
    RunAppend(Idle, t[..j], t[j..]);
    assert t[..j] + t[j..] == t;
  }

  /** The armed phase is entered only by arming a watcher. */
  lemma ArmedAfterWatch(t: seq<Step>)
    requires Run(Idle, t) == Some(Armed)
    ensures t != [] && IsWatch(t[|t| - 1])
  {
  }

  /** A watched timer was started by a step that followed the arming of a watcher. */
  lemma {:induction false} WatchedTimingHistory(t: seq<Step>, start: int)
    requires Run(Idle, t) == Some(Timing(true, start))
    ensures exists i, k :: 0 <= i < k < |t| && IsWatch(t[i]) && t[k] == StartTimer(start)
  {
    var init, last := t[..|t| - 1], t[|t| - 1];
    var q := Run(Idle, init).value;
    if q == Timing(true, start) {
      WatchedTimingHistory(init, start);
      var i, k :| 0 <= i < k < |init| && IsWatch(init[i]) && init[k] == StartTimer(start);
      assert t[i] == init[i] && t[k] == init[k];
    } else {
      assert q == Armed;
      ArmedAfterWatch(init);
      assert IsWatch(t[|init| - 1]) && t[|t| - 1] == StartTimer(start);
    }
  }

  /**
   * In every well-ordered trace, each await of the signal comes after a
   * watcher was armed and, after that, the timer was started.
   */
  lemma AwaitFollowsWatchAndStart(t: seq<Step>, j: nat)
    requires Run(Idle, t).Some? && j < |t| && t[j] == AwaitSignal
    ensures exists i, k :: 0 <= i < k < j && IsWatch(t[i]) && t[k].StartTimer?
  {
    PrefixRuns(t, j + 1);
    assert t[..j + 1][..j] == t[..j];
    var q := Run(Idle, t[..j]).value;
    assert q.Timing? && q.watched;
    WatchedTimingHistory(t[..j], q.start);
    var i, k :| 0 <= i < k < j && IsWatch(t[..j][i]) && t[..j][k] == StartTimer(q.start);
    assert IsWatch(t[i]) && t[k].StartTimer?;
  }

  /** Which of an iteration's two readings of the clock a call is: `start` or `end`. */
  datatype TimerReading = TimerStart | TimerEnd

  /**
   * `Date.now()`: call number k of the run reads `reading(k)`. The readings
   * are an input; nothing is assumed about them.
   */
  class Clock {
    const reading: nat -> int
    var calls: nat

    constructor (reading: nat -> int)
      ensures this.reading == reading && calls == 0
    {
      this.reading := reading;
      calls := 0;
    }

    method Now(log: Log, ghost use: TimerReading) returns (t: int)
      modifies this, log
      ensures t == reading(old(calls)) && calls == old(calls) + 1
      ensures log.steps == old(log.steps) + [if use == TimerStart then StartTimer(t) else StopTimer(t)]
    {
      t := reading(calls);
      calls := calls + 1;
      log.steps := log.steps + [if use == TimerStart then StartTimer(t) else StopTimer(t)];
    }
  }

  /**
   * How a workload ends: every iteration completed and printTimers printed
   * its report, or iteration `iteration` awaits a signal that never comes,
   * so the process waits forever with the samples pushed so far.
   */
  datatype Outcome =
    | Completed(timers: seq<int>, report: Report)
    | Blocked(iteration: nat, timers: seq<int>)

  /** The samples of k iterations that each read the clock twice, from call number c on. */
  function Durations(reading: nat -> int, c: nat, k: nat): (r: seq<int>)
    ensures |r| == k
  {
    if k == 0 then [] else Durations(reading, c, k - 1) + [reading(c + 2 * (k - 1) + 1) - reading(c + 2 * (k - 1))]
  }

  lemma DurationsStep(reading: nat -> int, c: nat, k: nat)
    requires k > 0
    ensures Durations(reading, c, k) ==
            Durations(reading, c, k - 1) + [reading(c + 2 * (k - 1) + 1) - reading(c + 2 * (k - 1))]
  {
  }

  /** The sample of iteration k, read at call numbers c + 2k and c + 2k + 1, extends the samples before it. */
  lemma SampleExtendsDurations(reading: nat -> int, c: nat, k: nat, timers: seq<int>, sample: int)
    requires timers == Durations(reading, c, k)
    requires sample == reading(c + 2 * k + 1) - reading(c + 2 * k)
    ensures timers + [sample] == Durations(reading, c, k + 1)
  {
    DurationsStep(reading, c, k + 1);
  }

  lemma {:induction false} DurationAt(reading: nat -> int, c: nat, k: nat, t: nat)
    requires t < k
    ensures Durations(reading, c, k)[t] == reading(c + 2 * t + 1) - reading(c + 2 * t)
  {
    if t < k - 1 {
      DurationAt(reading, c, k - 1, t);
    }
  }

  /** The empty write transactions of k calls of deleteAllObjs. */
  function EmptyTransactions(k: nat): (r: seq<seq<Dog>>)
    ensures |r| == k
  {
    if k == 0 then [] else EmptyTransactions(k - 1) + [[]]
  }

  /** Every step of the concatenation comes from one of the iterations. */
  lemma {:induction false} ConcatElement(bs: seq<seq<Step>>, j: nat)
    requires j < |Concat(bs)|
    ensures exists i, k :: 0 <= i < |bs| && 0 <= k < |bs[i]| && Concat(bs)[j] == bs[i][k]
  {
    var init, last := bs[..|bs| - 1], bs[|bs| - 1];
    if j < |Concat(init)| {
      ConcatElement(init, j);
      var i, k :| 0 <= i < |init| && 0 <= k < |init[i]| && Concat(init)[j] == init[i][k];
      assert bs[i] == init[i];
    } else {
      assert Concat(bs)[j] == last[j - |Concat(init)|];
    }
  }
}
