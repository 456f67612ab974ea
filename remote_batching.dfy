/**
 * The loop of MongoToRealm that writes straight to the remote collection
 * (src/workloads/mongo-to-realm.tsx:81-92): g = numObjects - 1 generated
 * records are pushed onto a batch that is sent with `insertMany` and reset
 * whenever it already holds `numObjectsPerWrite` records; the signal record
 * is then pushed with no size check and the last batch is sent.
 *
 * Records are numbered 0..g in push order, record g being the signal.
 */
module RemoteBatching {
  import opened Wrappers
  import opened Schemas
  import opened RealmStore
  import Batching
  import opened Steps

  /** How many generated records precede the signal: the loop runs while i < numObjects - 1. */
  function Generated(numObjects: nat): nat {
    if numObjects >= 1 then numObjects - 1 else 0
  }

  /** The batches already sent and the batch being filled, as record numbers. */
  datatype Batches = Batches(sent: seq<seq<nat>>, pending: seq<nat>)

  /** The batches after the loop has pushed records 0..j-1. */
  function Fill(j: nat, w: nat): Batches {
    if j == 0 then Batches([], [])
    else
      var b := Fill(j - 1, w);
      if |b.pending| >= w then Batches(b.sent + [b.pending], [j - 1])
      else Batches(b.sent, b.pending + [j - 1])
  }

  /** Every `insertMany` call of one iteration, as record numbers. */
  function Calls(g: nat, w: nat): seq<seq<nat>> {
    var b := Fill(g, w);
    b.sent + [b.pending + [g]]
  }

  /** The record numbers 0..n-1 in order. */
  function Span(n: nat): (r: seq<nat>)
    ensures |r| == n && forall k :: 0 <= k < n ==> r[k] == k
  {
    if n == 0 then [] else Span(n - 1) + [n - 1]
  }

  function Flatten(cs: seq<seq<nat>>): seq<nat> {
    if cs == [] then [] else Flatten(cs[..|cs| - 1]) + cs[|cs| - 1]
  }

  lemma FlattenAppend(cs: seq<seq<nat>>, c: seq<nat>)
    ensures Flatten(cs + [c]) == Flatten(cs) + c
  {
    assert (cs + [c])[..|cs|] == cs;
  }

  /** What Fill keeps true when the batch size is at least one. */
  ghost predicate FillShape(j: nat, w: nat, b: Batches)
    requires w >= 1
  {
    && Flatten(b.sent) + b.pending == Span(j)
    && (forall t :: 0 <= t < |b.sent| ==> |b.sent[t]| == w)
    && (j == 0 <==> b.pending == [])
    && |b.pending| <= w
    && (j >= 1 ==> |b.sent| == (j - 1) / w)
  }

  lemma {:induction false} FillInvariant(j: nat, w: nat)
    requires w >= 1
    ensures FillShape(j, w, Fill(j, w))
  {
    if j > 0 {
      FillInvariant(j - 1, w);
      var b := Fill(j - 1, w);
      assert Span(j) == Span(j - 1) + [j - 1];
      if |b.pending| >= w {
        FillFlushes(j, w, b);
      } else {
        FillGrows(j, w, b);
      }
    }
  }

  /** Pushing record j - 1 onto a full batch sends the batch first. */
  lemma FillFlushes(j: nat, w: nat, b: Batches)
    requires w >= 1 && j >= 1 && FillShape(j - 1, w, b) && |b.pending| >= w
    requires Span(j) == Span(j - 1) + [j - 1]
    ensures FillShape(j, w, Batches(b.sent + [b.pending], [j - 1]))
  {
    FlattenAppend(b.sent, b.pending);
    SentLength(b.sent, w);
    assert |Flatten(b.sent)| + |b.pending| == j - 1;
    assert j - 2 == |b.sent| * w + (w - 1);
    Batching.DivModUnique(j - 2, w, |b.sent|, w - 1);
    Batching.DivModUnique(j - 1, w, |b.sent| + 1, 0);
  }

  /** Pushing record j - 1 onto a batch with room adds it to that batch. */
  lemma FillGrows(j: nat, w: nat, b: Batches)
    requires w >= 1 && j >= 1 && FillShape(j - 1, w, b) && |b.pending| < w
    requires Span(j) == Span(j - 1) + [j - 1]
    ensures FillShape(j, w, Batches(b.sent, b.pending + [j - 1]))
  {
    if j >= 2 {
      SentLength(b.sent, w);
      assert |Flatten(b.sent)| + |b.pending| == j - 1;
      assert j - 2 == |b.sent| * w + (|b.pending| - 1);
      Batching.DivModUnique(j - 2, w, |b.sent|, |b.pending| - 1);
      Batching.DivModUnique(j - 1, w, |b.sent|, |b.pending|);
    }
  }

  lemma {:induction false} SentLength(cs: seq<seq<nat>>, w: nat)
    requires forall t :: 0 <= t < |cs| ==> |cs[t]| == w
    ensures |Flatten(cs)| == |cs| * w
  {
    if cs != [] {
      SentLength(cs[..|cs| - 1], w);
    }
  }

  /** The calls carry records 0..g once each, in push order, the signal last. */
  lemma CallsCarryEveryRecordOnce(g: nat, w: nat)
    requires w >= 1
    ensures Flatten(Calls(g, w)) == Span(g + 1)
  {
    var b := Fill(g, w);
    FillInvariant(g, w);
    FlattenAppend(b.sent, b.pending + [g]);
    assert Span(g + 1) == Span(g) + [g];
  }

  /** Every call but the last carries exactly w records; the last carries 1..w+1. */
  lemma CallSizes(g: nat, w: nat)
    requires w >= 1
    ensures forall t :: 0 <= t < |Calls(g, w)| - 1 ==> |Calls(g, w)[t]| == w
    ensures 1 <= |Calls(g, w)[|Calls(g, w)| - 1]| <= w + 1
  {
    FillInvariant(g, w);
  }

  /** The number of calls is max(1, ceil(g / w)). */
  lemma CallCount(g: nat, w: nat)
    requires w >= 1
    ensures |Calls(g, w)| == if g == 0 then 1 else (g + w - 1) / w
  {
    FillInvariant(g, w);
    if g >= 1 {
      var q, r := (g - 1) / w, (g - 1) % w;
      Batching.DivModBasics(g - 1, w);
      Batching.DivModUnique(g + w - 1, w, q + 1, r);
    }
  }

  /** With a batch size of 0 the first call sends an empty batch. */
  lemma ZeroPerWriteSendsEmptyBatchFirst(g: nat)
    requires g >= 1
    ensures Calls(g, 0)[0] == []
  {
    FirstSentIsEmpty(g);
  }

  lemma {:induction false} FirstSentIsEmpty(j: nat)
    requires j >= 1
    ensures Fill(j, 0).sent != [] && Fill(j, 0).sent[0] == []
  {
    if j > 1 {
      FirstSentIsEmpty(j - 1);
    }
  }

  /**
   * Record j of an iteration whose id generator starts at c0: a generated
   * record draws its name's ObjectId and then GetNewDog's `_id`; the
   * signal record, pushed last, draws only its `_id`.
   */
  function DirectDog(c0: nat, g: nat, j: nat): Dog {
    if j < g then DogRecord(ObjectId(c0 + 2 * j + 1), ToHexString(ObjectId(c0 + 2 * j)), 12)
    else DogRecord(ObjectId(c0 + 2 * g), SignalDocumentName, 12)
  }

  /** Only record g is named the signal. */
  lemma SignalIsRecordG(c0: nat, g: nat, j: nat)
    requires j <= g
    ensures DirectDog(c0, g, j).name == SignalDocumentName <==> j == g
  {
    GeneratedNameIsNotSignal(ObjectId(c0 + 2 * j));
  }

  function Docs(c0: nat, g: nat, idx: seq<nat>): seq<Dog> {
    seq(|idx|, k requires 0 <= k < |idx| => DirectDog(c0, g, idx[k]))
  }

  function DocsOfCalls(c0: nat, g: nat, cs: seq<seq<nat>>): seq<seq<Dog>> {
    seq(|cs|, t requires 0 <= t < |cs| => Docs(c0, g, cs[t]))
  }

  /** The records every `insertMany` call of one iteration sends, call by call. */
  function RemoteCalls(c0: nat, numObjects: nat, w: nat): seq<seq<Dog>> {
    var g := Generated(numObjects);
    DocsOfCalls(c0, g, Calls(g, w))
  }

  /**
   * In the last call, the last record is the signal and no other record of
   * any call is: the signal is sent exactly once, at the very end.
   */
  lemma SignalSentOnceAtTheEnd(c0: nat, numObjects: nat, w: nat)
    requires w >= 1
    ensures var calls := RemoteCalls(c0, numObjects, w);
            && calls != []
            && (forall t, k :: 0 <= t < |calls| && 0 <= k < |calls[t]| ==>
                  (calls[t][k].name == SignalDocumentName <==>
                   t == |calls| - 1 && k == |calls[t]| - 1))
  {
    var g := Generated(numObjects);
    var cs := Calls(g, w);
    var calls: seq<seq<Dog>> := RemoteCalls(c0, numObjects, w);
    FillInvariant(g, w);
    CallsCarryEveryRecordOnce(g, w);
    forall t, k | 0 <= t < |calls| && 0 <= k < |calls[t]|
      ensures calls[t][k].name == SignalDocumentName <==> t == |calls| - 1 && k == |calls[t]| - 1
    {
      FlattenPosition(cs, t, k);
      var pos := |Flatten(cs[..t])| + k;
      assert cs[t][k] == pos;
      SignalIsRecordG(c0, g, cs[t][k]);
      LastPosition(cs, t, k);
    }
  }

  /** Element k of call t sits at position |Flatten(cs[..t])| + k of the flattened calls. */
  lemma {:induction false} FlattenPosition(cs: seq<seq<nat>>, t: nat, k: nat)
    requires t < |cs| && k < |cs[t]|
    ensures |Flatten(cs[..t])| + k < |Flatten(cs)|
    ensures Flatten(cs)[|Flatten(cs[..t])| + k] == cs[t][k]
  {
    var init := cs[..|cs| - 1];
    assert cs == init + [cs[|cs| - 1]];
    FlattenAppend(init, cs[|cs| - 1]);
    if t < |cs| - 1 {
      FlattenPosition(init, t, k);
      assert init[..t] == cs[..t];
    } else {
      assert cs[..t] == init;
    }
  }

  /** Position |Flatten(cs[..t])| + k is the last one exactly for the last element of the last call. */
  lemma LastPosition(cs: seq<seq<nat>>, t: nat, k: nat)
    requires t < |cs| && k < |cs[t]|
    requires cs[|cs| - 1] != []
    ensures |Flatten(cs[..t])| + k == |Flatten(cs)| - 1 <==> t == |cs| - 1 && k == |cs[t]| - 1
  {
    var init := cs[..|cs| - 1];
    assert cs == init + [cs[|cs| - 1]];
    FlattenAppend(init, cs[|cs| - 1]);
    if t < |cs| - 1 {
      PrefixShorter(cs, t);
    } else {
      assert cs[..t] == init;
    }
  }

  /** Call t < |cs| - 1 ends before the last call begins. */
  lemma PrefixShorter(cs: seq<seq<nat>>, t: nat)
    requires t < |cs| - 1
    ensures |Flatten(cs[..t])| + |cs[t]| <= |Flatten(cs[..|cs| - 1])|
  {
    FlattenAppend(cs[..t], cs[t]);
    assert cs[..t] + [cs[t]] == cs[..t + 1];
    FlattenMonotone(cs[..|cs| - 1], t + 1);
    assert cs[..|cs| - 1][..t + 1] == cs[..t + 1];
  }

  lemma {:induction false} FlattenMonotone(cs: seq<seq<nat>>, m: nat)
    requires m <= |cs|
    ensures |Flatten(cs[..m])| <= |Flatten(cs)|
  {
    if m < |cs| {
      var init := cs[..|cs| - 1];
      assert cs == init + [cs[|cs| - 1]];
      FlattenAppend(init, cs[|cs| - 1]);
      FlattenMonotone(init, m);
      assert init[..m] == cs[..m];
    } else {
      assert cs[..m] == cs;
    }
  }

  /**
   * The batching loop of one MongoToRealm iteration, writing to the remote
   * collection.
   */
  method SendBatches(collection: RemoteCollection, ids: ObjectIdGenerator, numObjects: nat,
                     numObjectsPerWrite: nat, log: Log)
    modifies collection, ids, log
    ensures collection.calls == old(collection.calls) +
                                RemoteCalls(old(ids.next), numObjects, numObjectsPerWrite)
    ensures ids.next == old(ids.next) + 2 * Generated(numObjects) + 1
    ensures log.steps == old(log.steps) + [InsertRemote(numObjects, numObjectsPerWrite)]
  {
    var w := numObjectsPerWrite;
    log.steps := log.steps + [InsertRemote(numObjects, w)];
    ghost var c0 := ids.next;
    ghost var g := Generated(numObjects);
    ghost var before := collection.calls;
    var dogsToInsertInBatch: seq<Dog> := [];
    var i := 0;
    while i < numObjects - 1
      invariant 0 <= i <= g
      invariant ids.next == c0 + 2 * i
      invariant collection.calls == before + DocsOfCalls(c0, g, Fill(i, w).sent)
      invariant dogsToInsertInBatch == Docs(c0, g, Fill(i, w).pending)
      invariant log.steps == old(log.steps) + [InsertRemote(numObjects, w)]
    {
      dogsToInsertInBatch := BatchPass(collection, ids, dogsToInsertInBatch, w, c0, g, i, before);
      i := i + 1;
    }
    SendLastBatch(collection, ids, dogsToInsertInBatch, w, c0, g, numObjects, before);
  }

  /** Pass i of the loop: send the batch if it is full, then push generated record i. */
  method BatchPass(collection: RemoteCollection, ids: ObjectIdGenerator, batch: seq<Dog>, w: nat,
                   ghost c0: nat, ghost g: nat, i: nat, ghost before: seq<seq<Dog>>)
    returns (batch': seq<Dog>)
    requires i < g && ids.next == c0 + 2 * i
    requires collection.calls == before + DocsOfCalls(c0, g, Fill(i, w).sent)
    requires batch == Docs(c0, g, Fill(i, w).pending)
    modifies collection, ids
    ensures ids.next == c0 + 2 * (i + 1)
    ensures collection.calls == before + DocsOfCalls(c0, g, Fill(i + 1, w).sent)
    ensures batch' == Docs(c0, g, Fill(i + 1, w).pending)
  {
    ghost var b := Fill(i, w);
    batch' := batch;
    if |batch'| >= w {
      collection.InsertMany(batch');
      batch' := [];
    }
    var dogName := ids.NewObjectId();
    var dog := GetNewDog(ids, ToHexString(dogName), 12);
    PushStep(c0, g, i, w, before, b, dog);
    batch' := batch' + [dog];
  }

  /** After the loop: push the signal record with no size check and send the last batch. */
  method SendLastBatch(collection: RemoteCollection, ids: ObjectIdGenerator, batch: seq<Dog>, w: nat,
                       ghost c0: nat, ghost g: nat, numObjects: nat, ghost before: seq<seq<Dog>>)
    requires g == Generated(numObjects) && ids.next == c0 + 2 * g
    requires collection.calls == before + DocsOfCalls(c0, g, Fill(g, w).sent)
    requires batch == Docs(c0, g, Fill(g, w).pending)
    modifies collection, ids
    ensures ids.next == c0 + 2 * g + 1
    ensures collection.calls == before + RemoteCalls(c0, numObjects, w)
  {
    ghost var sent, pending := DocsOfCalls(c0, g, Fill(g, w).sent), Docs(c0, g, Fill(g, w).pending);
    var signal := GetNewDog(ids, SignalDocumentName, 12);
    assert signal == DogRecord(ObjectId(c0 + 2 * g), SignalDocumentName, 12);
    collection.InsertMany(batch + [signal]);
    assert collection.calls == before + (sent + [pending + [signal]]);
    LastCall(c0, g, w, numObjects);
  }

  /** One pass of the batching loop, in terms of Fill. */
  lemma PushStep(c0: nat, g: nat, i: nat, w: nat, before: seq<seq<Dog>>, b: Batches, dog: Dog)
    requires i < g && b == Fill(i, w)
    requires dog == DogRecord(ObjectId(c0 + 2 * i + 1), ToHexString(ObjectId(c0 + 2 * i)), 12)
    ensures |Docs(c0, g, b.pending)| >= w ==>
              && before + DocsOfCalls(c0, g, b.sent) + [Docs(c0, g, b.pending)] ==
                 before + DocsOfCalls(c0, g, Fill(i + 1, w).sent)
              && [dog] == Docs(c0, g, Fill(i + 1, w).pending)
    ensures |Docs(c0, g, b.pending)| < w ==>
              && DocsOfCalls(c0, g, b.sent) == DocsOfCalls(c0, g, Fill(i + 1, w).sent)
              && Docs(c0, g, b.pending) + [dog] == Docs(c0, g, Fill(i + 1, w).pending)
  {
    assert dog == DirectDog(c0, g, i);
  }

  /** The final push and call complete RemoteCalls. */
  lemma LastCall(c0: nat, g: nat, w: nat, numObjects: nat)
    requires g == Generated(numObjects)
    ensures DocsOfCalls(c0, g, Fill(g, w).sent) +
            [Docs(c0, g, Fill(g, w).pending) + [DogRecord(ObjectId(c0 + 2 * g), SignalDocumentName, 12)]] ==
            RemoteCalls(c0, numObjects, w)
  {
    var b := Fill(g, w);
    var signal := DogRecord(ObjectId(c0 + 2 * g), SignalDocumentName, 12);
    assert DirectDog(c0, g, g) == signal;
    assert Docs(c0, g, b.pending + [g]) == Docs(c0, g, b.pending) + [signal];
    assert DocsOfCalls(c0, g, b.sent + [b.pending + [g]]) ==
           DocsOfCalls(c0, g, b.sent) + [Docs(c0, g, b.pending + [g])];
  }
}
