/**
 * The store helpers every workload uses (src/utilities.tsx): subscription
 * helpers, deleteAllObjs, the batch writer insertObjectsToRealm and the
 * timer summary printTimers.
 */
module Utilities {
  import opened Wrappers
  import opened Schemas
  import opened RealmStore
  import opened Batching
  import opened Steps

  /** `removeAllSubscriptionsAndWait`: the subscription set becomes empty. */
  method RemoveAllSubscriptionsAndWait(realm: Realm, log: Log)
    modifies realm, log
    ensures realm.State() == old(realm.State()).(subscriptions := {})
    ensures log.steps == old(log.steps) + [UnsubscribeAll(realm.role)]
  {
    realm.RemoveAllSubscriptions();
    log.steps := log.steps + [UnsubscribeAll(realm.role)];
    // waitForSynchronization: the sync engine's acknowledgement is not modelled.
  }

  /**
   * `addSubscriptionAndWait(realm, table, query)`: remove every subscription,
   * then add the one for (table, query), whatever was there before.
   */
  method AddSubscriptionAndWait(realm: Realm, table: string, query: string, log: Log)
    modifies realm, log
    ensures realm.State() == old(realm.State()).(subscriptions := {Subscription(table, query)})
    ensures log.steps == old(log.steps) + [Subscribe(realm.role, Subscription(table, query))]
  {
    realm.RemoveAllSubscriptions();
    realm.AddSubscription(Subscription(table, query));
    log.steps := log.steps + [Subscribe(realm.role, Subscription(table, query))];
  }

  /** Adding the same subscription twice leaves the same set as adding it once. */
  method AddSubscriptionTwice(realm: Realm, table: string, query: string, log: Log)
    modifies realm, log
    ensures realm.State() == old(realm.State()).(subscriptions := {Subscription(table, query)})
    ensures log.steps == old(log.steps) + [Subscribe(realm.role, Subscription(table, query)),
                                           Subscribe(realm.role, Subscription(table, query))]
  {
    AddSubscriptionAndWait(realm, table, query, log);
    var once := realm.subscriptions;
    AddSubscriptionAndWait(realm, table, query, log);
    assert realm.subscriptions == once;
  }

  /**
   * `deleteAllObjs(realm, table)`: one write transaction deletes every object,
   * of every table; `table` is not used.
   */
  method DeleteAllObjs(realm: Realm, table: string, log: Log)
    requires realm.Valid() && !realm.inTransaction
    modifies realm, log
    ensures realm.Valid()
    ensures realm.State() == old(realm.State()).(objects := [],
                                                 committed := old(realm.committed) + [[]],
                                                 begun := old(realm.begun) + 1)
    ensures log.steps == old(log.steps) + [DeleteAll(realm.role)]
  {
    realm.WriteDeleteAll();
    // uploadAllLocalChanges: the upload to the server is not modelled.
    log.steps := log.steps + [DeleteAll(realm.role)];
  }

  /** `sleep(ms)`: only the step is recorded; the wait itself is not modelled. */
  method Sleep(ms: nat, log: Log)
    modifies log
    ensures log.steps == old(log.steps) + [Steps.Sleep(ms)]
  {
    log.steps := log.steps + [Steps.Sleep(ms)];
  }

  /**
   * A realm after addSubscriptionAndWait of the Dog query and deleteAllObjs:
   * subscribed to that query alone and emptied in one committed write.
   */
  function Cleared(s: RealmState): RealmState {
    s.(subscriptions := {DogSubscription}, objects := [], committed := s.committed + [[]], begun := s.begun + 1)
  }

  /**
   * Object i of a call of insertObjectsToRealm that starts with the id
   * generator at `base`: loop pass i draws the name's ObjectId and then
   * GetNewDog's `_id`, so its ids are base + 2(i-1) and base + 2(i-1) + 1.
   * Only object n of a call with the signal flag is named the signal.
   */
  function ObjectAt(base: nat, n: nat, signal: bool, i: Position): Dog {
    var nameId := ObjectId(base + 2 * (i - 1));
    var name := if i == n && signal then SignalDocumentName else ToHexString(nameId);
    DogRecord(ObjectId(base + 2 * (i - 1) + 1), name, 12)
  }

  /** The objects at the given positions, in order. */
  function Txn(base: nat, n: nat, signal: bool, c: seq<Position>): seq<Dog> {
    seq(|c|, k requires 0 <= k < |c| => ObjectAt(base, n, signal, c[k]))
  }

  /** The objects of each transaction, transaction by transaction. */
  function Txns(base: nat, n: nat, signal: bool, cs: seq<seq<Position>>): seq<seq<Dog>> {
    seq(|cs|, t requires 0 <= t < |cs| => Txn(base, n, signal, cs[t]))
  }

  /** The objects of the transactions already committed once objects 1..m exist. */
  function CommittedPart(base: nat, n: nat, signal: bool, b: nat, m: nat): seq<seq<Dog>> {
    var cs := Chunks(m, b);
    Txns(base, n, signal, cs[..|cs| - 1])
  }

  /** The objects of the transaction still open once objects 1..m exist. */
  function OpenPart(base: nat, n: nat, signal: bool, b: nat, m: nat): seq<Dog> {
    var cs := Chunks(m, b);
    Txn(base, n, signal, cs[|cs| - 1])
  }

  /** Object m opens a new transaction: the open one is committed first. */
  lemma StepStartsTransaction(base: nat, n: nat, signal: bool, b: nat, m: Position)
    requires StartsTransaction(m, b)
    ensures CommittedPart(base, n, signal, b, m) ==
            CommittedPart(base, n, signal, b, m - 1) + [OpenPart(base, n, signal, b, m - 1)]
    ensures OpenPart(base, n, signal, b, m) == [ObjectAt(base, n, signal, m)]
  {
    var cs := Chunks(m - 1, b);
    var cs' := Chunks(m, b);
    assert cs' == cs + [[m]];
    assert cs'[..|cs'| - 1] == cs;
    assert cs[..|cs| - 1] + [cs[|cs| - 1]] == cs;
  }

  /** Object m joins the open transaction. */
  lemma StepJoinsTransaction(base: nat, n: nat, signal: bool, b: nat, m: Position)
    requires !StartsTransaction(m, b)
    ensures CommittedPart(base, n, signal, b, m) == CommittedPart(base, n, signal, b, m - 1)
    ensures OpenPart(base, n, signal, b, m) ==
            OpenPart(base, n, signal, b, m - 1) + [ObjectAt(base, n, signal, m)]
  {
    var cs := Chunks(m - 1, b);
    var cs' := Chunks(m, b);
    assert cs' == cs[..|cs| - 1] + [cs[|cs| - 1] + [m]];
    assert cs'[..|cs'| - 1] == cs[..|cs| - 1];
  }

  /** The final commit completes the partition. */
  lemma FinalCommit(base: nat, n: nat, signal: bool, b: nat)
    ensures CommittedPart(base, n, signal, b, n) + [OpenPart(base, n, signal, b, n)] ==
            Txns(base, n, signal, Chunks(n, b))
  {
    var cs := Chunks(n, b);
    assert cs[..|cs| - 1] + [cs[|cs| - 1]] == cs;
  }

  /** Creating object i extends the created objects 1..i-1 by one. */
  lemma CreatedStep(base: nat, n: nat, signal: bool, i: Position)
    ensures Txn(base, n, signal, Interval(1, i)) ==
            Txn(base, n, signal, Interval(1, i - 1)) + [ObjectAt(base, n, signal, i)]
  {
    assert Interval(1, i) == Interval(1, i - 1) + [i];
  }

  /**
   * The realm after one committed write transaction per chunk of `cs`, in
   * order, each creating the objects at its chunk's positions.
   */
  function CommitChunks(s: RealmState, base: nat, n: nat, signal: bool, cs: seq<seq<Position>>): RealmState
    decreases |cs|
  {
    if cs == [] then s
    else
      var p := CommitChunks(s, base, n, signal, cs[..|cs| - 1]);
      var t := Txn(base, n, signal, cs[|cs| - 1]);
      p.(committed := p.committed + [t], begun := p.begun + 1, objects := p.objects + t)
  }

  /**
   * Committing the chunks one by one appends their transactions to the
   * history, one begin each, and their objects to the realm in order.
   */
  lemma {:induction false} CommitChunksClosedForm(s: RealmState, base: nat, n: nat, signal: bool,
                                                 cs: seq<seq<Position>>)
    ensures CommitChunks(s, base, n, signal, cs) ==
            s.(committed := s.committed + Txns(base, n, signal, cs),
               begun := s.begun + |cs|,
               objects := s.objects + FlattenDogs(Txns(base, n, signal, cs)))
    decreases |cs|
  {
    if cs != [] {
      var init, last := cs[..|cs| - 1], cs[|cs| - 1];
      var txns := Txns(base, n, signal, init);
      var t := Txn(base, n, signal, last);
      CommitChunksClosedForm(s, base, n, signal, init);
      assert Txns(base, n, signal, cs) == txns + [t];
      FlattenDogsAppend(txns, t);
      AppendAssoc(s.committed, txns, [t]);
      AppendAssoc(s.objects, FlattenDogs(txns), t);
    }
  }

  /**
   * Inserting n > 0 objects commits exactly the transactions of Chunks(n, b)
   * and leaves objects 1..n, in creation order, after the objects already there.
   */
  lemma InsertionClosedForm(s: RealmState, base: nat, n: nat, b: nat, signal: bool)
    ensures CommitChunks(s, base, n, signal, Chunks(n, b)) ==
            s.(committed := s.committed + Txns(base, n, signal, Chunks(n, b)),
               begun := s.begun + |Chunks(n, b)|,
               objects := s.objects + Txn(base, n, signal, Interval(1, n)))
  {
    CommitChunksClosedForm(s, base, n, signal, Chunks(n, b));
    CommittedObjectsAreCreatedObjects(base, n, b, signal);
  }

  /**
   * `insertObjectsToRealm(realm, n, b, signal)`. Nothing happens when n is 0.
   * Otherwise objects 1..n are created in order, one committed write
   * transaction per chunk of Chunks(n, b) (see module Batching for their
   * shape), and no transaction is left open.
   */
  method InsertObjectsToRealm(realm: Realm, ids: ObjectIdGenerator, numObjectsToInsert: nat,
                              numObjectsPerUpload: nat, includeSignalDocument: bool, log: Log)
    requires realm.Valid() && !realm.inTransaction
    modifies realm, ids, log
    ensures realm.Valid() && !realm.inTransaction
    ensures log.steps == old(log.steps) + [InsertObjects(realm.role, numObjectsToInsert, numObjectsPerUpload,
                                                         includeSignalDocument)]
    ensures numObjectsToInsert == 0 ==> realm.State() == old(realm.State()) && ids.next == old(ids.next)
    ensures numObjectsToInsert > 0 ==>
              && realm.State() == CommitChunks(old(realm.State()), old(ids.next), numObjectsToInsert,
                                               includeSignalDocument,
                                               Chunks(numObjectsToInsert, numObjectsPerUpload))
              && ids.next == old(ids.next) + 2 * numObjectsToInsert
  {
    var n, b, signal := numObjectsToInsert, numObjectsPerUpload, includeSignalDocument;
    log.steps := log.steps + [InsertObjects(realm.role, n, b, signal)];
    if n == 0 {
      return;
    }
    ghost var base := ids.next;
    ghost var before := realm.State();
    realm.BeginTransaction();
    var i := 1;
    while i <= n
      invariant 1 <= i <= n + 1
      invariant realm.Valid() && realm.inTransaction
      invariant ids.next == base + 2 * (i - 1)
      invariant realm.State() == PartialInsert(before, base, n, signal, b, i - 1)
      invariant log.steps == old(log.steps) + [InsertObjects(realm.role, n, b, signal)]
    {
      InsertionPass(realm, ids, before, base, n, signal, b, i);
      i := i + 1;
    }
    if realm.inTransaction {
      realm.CommitTransaction();
    }
    FinishedInsert(before, base, n, signal, b);
    InsertionClosedForm(before, base, n, b, signal);
  }

  /**
   * One pass of the loop of insertObjectsToRealm: commit the open transaction
   * and begin another when i is a multiple of the chunk size, then create
   * object i.
   */
  method InsertionPass(realm: Realm, ids: ObjectIdGenerator, ghost before: RealmState, ghost base: nat,
                       n: nat, signal: bool, b: nat, i: Position)
    requires realm.Valid() && realm.inTransaction
    requires ids.next == base + 2 * (i - 1)
    requires realm.State() == PartialInsert(before, base, n, signal, b, i - 1)
    modifies realm, ids
    ensures realm.Valid() && realm.inTransaction
    ensures ids.next == base + 2 * i
    ensures realm.State() == PartialInsert(before, base, n, signal, b, i)
  {
    if b != 0 && i % b == 0 {
      if realm.inTransaction {
        realm.CommitTransaction();
      }
      realm.BeginTransaction();
    }
    CreateNextObject(realm, ids, base, n, signal, i);
    PartialInsertStep(before, base, n, signal, b, i);
  }

  /** Committing the open transaction after object n leaves the promised state. */
  lemma FinishedInsert(s: RealmState, base: nat, n: nat, signal: bool, b: nat)
    ensures var p := PartialInsert(s, base, n, signal, b, n);
            p.(inTransaction := false, committed := p.committed + [p.pending], pending := []) ==
            s.(committed := s.committed + Txns(base, n, signal, Chunks(n, b)),
               begun := s.begun + |Chunks(n, b)|,
               objects := s.objects + Txn(base, n, signal, Interval(1, n)),
               inTransaction := false, pending := [])
  {
    FinalCommit(base, n, signal, b);
    AppendAssoc(s.committed, CommittedPart(base, n, signal, b, n), [OpenPart(base, n, signal, b, n)]);
  }

  /**
   * The realm once the loop of insertObjectsToRealm has created objects
   * 1..m, starting from state `s`.
   */
  function PartialInsert(s: RealmState, base: nat, n: nat, signal: bool, b: nat, m: nat): RealmState {
    s.(inTransaction := true,
       committed := s.committed + CommittedPart(base, n, signal, b, m),
       pending := OpenPart(base, n, signal, b, m),
       begun := s.begun + |Chunks(m, b)|,
       objects := s.objects + Txn(base, n, signal, Interval(1, m)))
  }

  /** The state after object m, from the state after object m - 1 and the commit decision. */
  lemma PartialInsertStep(s: RealmState, base: nat, n: nat, signal: bool, b: nat, m: Position)
    ensures var p := PartialInsert(s, base, n, signal, b, m - 1);
            var obj := ObjectAt(base, n, signal, m);
            PartialInsert(s, base, n, signal, b, m) ==
              if StartsTransaction(m, b) then
                p.(committed := p.committed + [p.pending], pending := [obj],
                   begun := p.begun + 1, objects := p.objects + [obj])
              else
                p.(pending := p.pending + [obj], objects := p.objects + [obj])
  {
    var p := PartialInsert(s, base, n, signal, b, m - 1);
    var q := PartialInsert(s, base, n, signal, b, m);
    var obj := ObjectAt(base, n, signal, m);
    CreatedStep(base, n, signal, m);
    AppendAssoc(s.objects, Txn(base, n, signal, Interval(1, m - 1)), [obj]);
    assert q.objects == p.objects + [obj];
    if StartsTransaction(m, b) {
      StepStartsTransaction(base, n, signal, b, m);
      AppendAssoc(s.committed, CommittedPart(base, n, signal, b, m - 1),
                  [OpenPart(base, n, signal, b, m - 1)]);
      assert q.committed == p.committed + [p.pending];
      assert q.pending == [obj];
      assert |Chunks(m, b)| == |Chunks(m - 1, b)| + 1;
      assert q.begun == p.begun + 1;
    } else {
      StepJoinsTransaction(base, n, signal, b, m);
      assert q.committed == p.committed;
      assert q.pending == p.pending + [obj];
      assert |Chunks(m, b)| == |Chunks(m - 1, b)|;
      assert q.begun == p.begun;
    }
  }

  lemma AppendAssoc<T>(a: seq<T>, b: seq<T>, c: seq<T>)
    ensures (a + b) + c == a + (b + c)
  {
  }

  /** Loop pass i after the commit decision: draw the name, build the Dog, create it. */
  method CreateNextObject(realm: Realm, ids: ObjectIdGenerator, ghost base: nat, n: nat,
                          signal: bool, i: Position)
    requires realm.Valid() && realm.inTransaction
    requires ids.next == base + 2 * (i - 1)
    modifies realm, ids
    ensures realm.Valid()
    ensures realm.State() == old(realm.State()).(
              pending := old(realm.pending) + [ObjectAt(base, n, signal, i)],
              objects := old(realm.objects) + [ObjectAt(base, n, signal, i)])
    ensures ids.next == base + 2 * i
  {
    var nameId := ids.NewObjectId();
    var objectName := ToHexString(nameId);
    if i == n && signal {
      objectName := SignalDocumentName;
    }
    var dog := GetNewDog(ids, objectName, 12);
    realm.Create(dog);
  }

  /**
   * Among objects 1..n, exactly object n is named the signal when the flag is
   * set, and none is when it is not; every object has age 12.
   */
  lemma SignalNamesOnlyTheLastObject(base: nat, n: nat, signal: bool, i: Position)
    requires i <= n
    ensures ObjectAt(base, n, signal, i).name == SignalDocumentName <==> (signal && i == n)
    ensures ObjectAt(base, n, signal, i).age == Some(12)
  {
    GeneratedNameIsNotSignal(ObjectId(base + 2 * (i - 1)));
  }

  /**
   * The last object of the last committed transaction is object n, and it is
   * named the signal exactly when the flag is set.
   */
  lemma SignalIsInLastTransaction(base: nat, n: nat, b: nat, signal: bool)
    requires n >= 1
    ensures var txns := Txns(base, n, signal, Chunks(n, b));
            var last := txns[|txns| - 1];
            && last != []
            && last[|last| - 1] == ObjectAt(base, n, signal, n)
            && (last[|last| - 1].name == SignalDocumentName <==> signal)
  {
    LastTransactionEndsAtN(n, b);
    SignalNamesOnlyTheLastObject(base, n, signal, n);
  }

  /** The committed transactions, concatenated, are the created objects in creation order. */
  lemma {:induction false} TransactionsHoldCreatedObjects(base: nat, n: nat, signal: bool,
                                                         cs: seq<seq<Position>>)
    ensures FlattenDogs(Txns(base, n, signal, cs)) == Txn(base, n, signal, Batching.Flatten(cs))
  {
    if cs != [] {
      var init, last := cs[..|cs| - 1], cs[|cs| - 1];
      var txns := Txns(base, n, signal, init);
      TransactionsHoldCreatedObjects(base, n, signal, init);
      assert Txns(base, n, signal, cs) == txns + [Txn(base, n, signal, last)];
      FlattenDogsAppend(txns, Txn(base, n, signal, last));
      TxnConcat(base, n, signal, Batching.Flatten(init), last);
    }
  }

  lemma FlattenDogsAppend(ts: seq<seq<Dog>>, t: seq<Dog>)
    ensures FlattenDogs(ts + [t]) == FlattenDogs(ts) + t
  {
    assert (ts + [t])[..|ts|] == ts;
  }

  function FlattenDogs(ts: seq<seq<Dog>>): seq<Dog> {
    if ts == [] then [] else FlattenDogs(ts[..|ts| - 1]) + ts[|ts| - 1]
  }

  lemma {:induction false} TxnConcat(base: nat, n: nat, signal: bool, a: seq<Position>, c: seq<Position>)
    ensures Txn(base, n, signal, a + c) == Txn(base, n, signal, a) + Txn(base, n, signal, c)
  {
    if c != [] {
      var c', i := c[..|c| - 1], c[|c| - 1];
      TxnConcat(base, n, signal, a, c');
      assert a + c == (a + c') + [i];
      assert c == c' + [i];
    } else {
      assert a + c == a;
    }
  }

  /**
   * Whatever the chunk size, the committed transactions partition the n
   * created objects without loss, duplication or reordering.
   */
  lemma CommittedObjectsAreCreatedObjects(base: nat, n: nat, b: nat, signal: bool)
    ensures FlattenDogs(Txns(base, n, signal, Chunks(n, b))) == Txn(base, n, signal, Interval(1, n))
  {
    TransactionsHoldCreatedObjects(base, n, signal, Chunks(n, b));
    ChunksCoverInOrder(n, b);
  }

  /** What printTimers reports: min, max, sum and mean, or nothing usable without samples. */
  datatype Report =
    | Summary(test: string, min: int, max: int, total: int, average: real)
      // With no samples Math.min gives Infinity, Math.max -Infinity and the average NaN.
    | NoSamples(test: string)

  function Sum(s: seq<int>): int {
    if s == [] then 0 else Sum(s[..|s| - 1]) + s[|s| - 1]
  }

  /** `Math.min(...timers)`. */
  function Minimum(s: seq<int>): (m: int)
    requires |s| > 0
    ensures m in s && forall x :: x in s ==> m <= x
  {
    if |s| == 1 then s[0]
    else
      var rest := Minimum(s[1..]);
      assert s == [s[0]] + s[1..];
      if s[0] <= rest then s[0] else rest
  }

  /** `Math.max(...timers)`. */
  function Maximum(s: seq<int>): (m: int)
    requires |s| > 0
    ensures m in s && forall x :: x in s ==> x <= m
  {
    if |s| == 1 then s[0]
    else
      var rest := Maximum(s[1..]);
      assert s == [s[0]] + s[1..];
      if s[0] >= rest then s[0] else rest
  }

  /** The report printTimers prints for a test's samples. */
  function TimerReport(testName: string, timers: seq<int>): (r: Report)
    ensures r.test == testName
    ensures r.NoSamples? <==> timers == []
    ensures r.Summary? ==>
              && r.min in timers && (forall x :: x in timers ==> r.min <= x)
              && r.max in timers && (forall x :: x in timers ==> x <= r.max)
              && r.total == Sum(timers)
              && r.average * (|timers| as real) == r.total as real
  {
    if timers == [] then NoSamples(testName)
    else Summary(testName, Minimum(timers), Maximum(timers), Sum(timers),
                 Sum(timers) as real / |timers| as real)
  }

  /** `printTimers(testName, timers)`: the total accumulated by `forEach`. */
  method PrintTimers(testName: string, timers: seq<int>) returns (report: Report)
    ensures report == TimerReport(testName, timers)
  {
    if |timers| == 0 {
      return NoSamples(testName);
    }
    var min := Minimum(timers);
    var max := Maximum(timers);
    var total := 0;
    var i := 0;
    while i < |timers|
      invariant 0 <= i <= |timers|
      invariant total == Sum(timers[..i])
    {
      assert timers[..i + 1][..i] == timers[..i];
      total := total + timers[i];
      i := i + 1;
    }
    assert timers[..i] == timers;
    report := Summary(testName, min, max, total, total as real / |timers| as real);
  }

  /** Samples 5, 10 and 15 ms give min 5, max 15 and mean 10. */
  method ThreeSampleReport() returns (report: Report)
    ensures report == Summary("t", 5, 15, 30, 10.0)
  {
    report := PrintTimers("t", [5, 10, 15]);
    assert Sum([5, 10, 15]) == 30 by {
      assert [5, 10, 15][..2] == [5, 10];
      assert [5, 10][..1] == [5];
      assert [5][..0] == [];
    }
  }
}
