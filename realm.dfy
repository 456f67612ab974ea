/**
 * The abstract embedded store (a Realm) the benchmark writes to and listens
 * on, the remote MongoDB collection it inserts into and watches, and the
 * two watchers: a collection listener and a change-stream consumer. Only
 * the effects the benchmark relies on are modelled; replication between
 * them is not.
 */
module RealmStore {
  import opened Wrappers
  import opened Schemas
  import opened Steps

  /** Every field of a realm, as a value, so that a method can say what it changes. */
  datatype RealmState = RealmState(
    inTransaction: bool,
    committed: seq<seq<Dog>>,
    pending: seq<Dog>,
    begun: nat,
    objects: seq<Dog>,
    subscriptions: set<Subscription>,
    listenerCount: nat)

  class Realm {
    /** Which of the benchmark's realms this is; the steps on it are logged under it. */
    ghost const role: Role
    /** `realm.isInTransaction`. */
    var inTransaction: bool
    /** The objects created by each committed write transaction, in commit order. */
    var committed: seq<seq<Dog>>
    /** The objects created so far by the open write transaction. */
    var pending: seq<Dog>
    /** How many write transactions have been begun. */
    var begun: nat
    /** The objects in the realm. */
    var objects: seq<Dog>
    /** `realm.subscriptions`. */
    var subscriptions: set<Subscription>
    /** How many listeners are registered on the Dog collection. */
    var listenerCount: nat

    /** Every begun transaction is either committed or the single open one. */
    ghost predicate Valid()
      reads this
    {
      && (!inTransaction ==> pending == [])
      && begun == |committed| + (if inTransaction then 1 else 0)
    }

    function State(): RealmState
      reads this
    {
      RealmState(inTransaction, committed, pending, begun, objects, subscriptions, listenerCount)
    }

    /** `Realm.open` on a fresh path: an empty, unsubscribed realm. */
    constructor Open(ghost role: Role)
      ensures this.role == role
      ensures Valid() && !inTransaction
      ensures committed == [] && objects == [] && subscriptions == {} && listenerCount == 0
    {
      this.role := role;
      inTransaction := false;
      committed, pending, begun := [], [], 0;
      objects := [];
      subscriptions := {};
      listenerCount := 0;
    }

    /** `realm.beginTransaction()`; Realm refuses to nest write transactions. */
    method BeginTransaction()
      requires Valid() && !inTransaction
      modifies this
      ensures Valid()
      ensures State() == old(State()).(inTransaction := true, begun := old(begun) + 1)
    {
      inTransaction := true;
      begun := begun + 1;
    }

    /** `realm.commitTransaction()`: the open transaction's objects become a committed unit. */
    method CommitTransaction()
      requires Valid() && inTransaction
      modifies this
      ensures Valid()
      ensures State() == old(State()).(inTransaction := false,
                                       committed := old(committed) + [old(pending)],
                                       pending := [])
    {
      committed := committed + [pending];
      pending := [];
      inTransaction := false;
    }

    /** `realm.create(...)`: only allowed inside a write transaction. */
    method Create(dog: Dog)
      requires Valid() && inTransaction
      modifies this
      ensures Valid()
      ensures State() == old(State()).(pending := old(pending) + [dog],
                                       objects := old(objects) + [dog])
    {
      pending := pending + [dog];
      objects := objects + [dog];
    }

    /** `realm.write(() => realm.deleteAll())`: one write transaction that removes every object. */
    method WriteDeleteAll()
      requires Valid() && !inTransaction
      modifies this
      ensures Valid()
      ensures State() == old(State()).(objects := [],
                                       committed := old(committed) + [[]],
                                       begun := old(begun) + 1)
    {
      objects := [];
      committed := committed + [[]];
      begun := begun + 1;
    }

    /** `mutableSubs.removeAll()` inside `subscriptions.update`. */
    method RemoveAllSubscriptions()
      modifies this
      ensures State() == old(State()).(subscriptions := {})
    {
      subscriptions := {};
    }

    /** `mutableSubs.add(...)` inside `subscriptions.update`. */
    method AddSubscription(sub: Subscription)
      modifies this
      ensures State() == old(State()).(subscriptions := old(subscriptions) + {sub})
    {
      subscriptions := subscriptions + {sub};
    }

    /** `realm.objects("Dog").addListener(...)`: listeners are never removed. */
    method AddListener(log: Log) returns (listener: InsertionListener)
      modifies this, log
      ensures fresh(listener) && !listener.resolved
      ensures State() == old(State()).(listenerCount := old(listenerCount) + 1)
      ensures log.steps == old(log.steps) + [ArmListener(role)]
    {
      listener := new InsertionListener();
      listenerCount := listenerCount + 1;
      log.steps := log.steps + [ArmListener(role)];
    }

    /** `realm.syncSession.uploadAllLocalChanges()`: the upload itself is not modelled. */
    method UploadAllLocalChanges(log: Log)
      modifies log
      ensures log.steps == old(log.steps) + [Upload(role)]
    {
      log.steps := log.steps + [Upload(role)];
    }
  }

  /** A collection notification: the collection as it now is and the indices of the insertions. */
  datatype ChangeSet = ChangeSet(objects: seq<Dog>, insertions: seq<nat>)

  /**
   * The object at `index` is the signal record. Realm only reports indices
   * inside the collection; an index outside it is taken as no match.
   */
  predicate InsertedSignalAt(cs: ChangeSet, index: nat) {
    index < |cs.objects| && cs.objects[index].name == SignalDocumentName
  }

  /** Some insertion of the notification is the signal record. */
  predicate InsertsSignal(cs: ChangeSet) {
    exists j :: 0 <= j < |cs.insertions| && InsertedSignalAt(cs, cs.insertions[j])
  }

  /** Some notification of the sequence inserts the signal record. */
  predicate AnyInsertsSignal(css: seq<ChangeSet>) {
    exists k :: 0 <= k < |css| && InsertsSignal(css[k])
  }

  /** The notifications of iteration t of a workload insert the signal record. */
  predicate SignalArrives(notifications: nat -> seq<ChangeSet>, t: nat) {
    AnyInsertsSignal(notifications(t))
  }

  /**
   * The listener closure of the local watchers together with the promise it
   * settles: `resolved` turns true at the first inserted signal record, and
   * resolving a settled promise changes nothing.
   */
  class InsertionListener {
    var resolved: bool

    constructor ()
      ensures !resolved
    {
      resolved := false;
    }

    /** One notification: `changes.insertions.forEach(...)`. */
    method OnChange(cs: ChangeSet)
      modifies this
      ensures resolved == (old(resolved) || InsertsSignal(cs))
    {
      var j := 0;
      while j < |cs.insertions|
        invariant 0 <= j <= |cs.insertions|
        invariant resolved == (old(resolved) ||
                               exists k :: 0 <= k < j && InsertedSignalAt(cs, cs.insertions[k]))
      {
        var index := cs.insertions[j];
        if index < |cs.objects| && cs.objects[index].name == SignalDocumentName {
          resolved := true;
        }
        j := j + 1;
      }
    }

    /** The notifications Realm delivers while the benchmark awaits the promise. */
    method Deliver(css: seq<ChangeSet>)
      modifies this
      ensures resolved == (old(resolved) || AnyInsertsSignal(css))
      ensures (forall k, j ::
                 (0 <= k < |css| && 0 <= j < |css[k].insertions| && css[k].insertions[j] < |css[k].objects|) ==>
                 css[k].objects[css[k].insertions[j]].name != SignalDocumentName) ==>
              resolved == old(resolved)
    {
      var k := 0;
      while k < |css|
        invariant 0 <= k <= |css|
        invariant resolved == (old(resolved) || exists i :: 0 <= i < k && InsertsSignal(css[i]))
      {
        OnChange(css[k]);
        k := k + 1;
      }
    }
  }

  /** A change-stream event value: operation type and full document. */
  datatype ChangeEvent = ChangeEvent(operationType: string, fullDocument: Dog)

  predicate MatchesFilter(f: WatchFilter, e: ChangeEvent) {
    e.operationType == f.operationType && e.fullDocument.name == f.fullDocumentName
  }

  /** The events of the collection that the server passes through filter `f`, in order. */
  function Filtered(f: WatchFilter, events: seq<ChangeEvent>): seq<ChangeEvent> {
    if events == [] then []
    else Filtered(f, events[..|events| - 1]) +
         (if MatchesFilter(f, events[|events| - 1]) then [events[|events| - 1]] else [])
  }

  /**
   * A stream with filter `f` delivers only events of the collection that
   * match `f`, and delivers something exactly when some event matches.
   */
  lemma {:induction false} FilteredEvents(f: WatchFilter, events: seq<ChangeEvent>)
    ensures forall e :: e in Filtered(f, events) ==> e in events && MatchesFilter(f, e)
    ensures Filtered(f, events) != [] <==> exists i :: 0 <= i < |events| && MatchesFilter(f, events[i])
  {
    if events != [] {
      var init, last := events[..|events| - 1], events[|events| - 1];
      FilteredEvents(f, init);
      assert forall i :: 0 <= i < |init| ==> init[i] == events[i];
      assert forall e :: e in init ==> e in events;
      if !MatchesFilter(f, last) && exists i :: 0 <= i < |events| && MatchesFilter(f, events[i]) {
        var i :| 0 <= i < |events| && MatchesFilter(f, events[i]);
        assert i < |init| && MatchesFilter(f, init[i]);
      }
    }
  }

  /** The event object an awaited `cs.next()` yields; its handler may change it. */
  class StreamEvent {
    var operationType: string
    var fullDocument: Dog

    constructor (e: ChangeEvent)
      ensures operationType == e.operationType && fullDocument == e.fullDocument
    {
      operationType := e.operationType;
      fullDocument := e.fullDocument;
    }
  }

  /** `collection.watch({filter})`: the events the server will deliver, in order. */
  class ChangeStream {
    const filter: WatchFilter
    var upcoming: seq<ChangeEvent>

    constructor (filter: WatchFilter, feed: seq<ChangeEvent>)
      ensures this.filter == filter && upcoming == feed
    {
      this.filter := filter;
      upcoming := feed;
    }

    /** `cs.next()`: the next event, or None when the server never sends one. */
    method Next() returns (event: Option<StreamEvent>)
      modifies this
      ensures old(upcoming) == [] ==> event.None? && upcoming == []
      ensures old(upcoming) != [] ==>
                event.Some? && fresh(event.value) &&
                event.value.operationType == old(upcoming)[0].operationType &&
                event.value.fullDocument == old(upcoming)[0].fullDocument &&
                upcoming == old(upcoming)[1..]
    {
      if upcoming == [] {
        event := None;
      } else {
        var e := new StreamEvent(upcoming[0]);
        event := Some(e);
        upcoming := upcoming[1..];
      }
    }
  }

  /** The remote `Dog` collection of the cloud database. */
  class RemoteCollection {
    /** The argument of every `insertMany` call, in order. */
    var calls: seq<seq<Dog>>

    constructor ()
      ensures calls == []
    {
      calls := [];
    }

    method InsertMany(docs: seq<Dog>)
      modifies this
      ensures calls == old(calls) + [docs]
    {
      calls := calls + [docs];
    }

    /**
     * `collection.watch({filter})`, with the change events the collection
     * sees from then on as input: the stream receives those the filter passes.
     */
    method Watch(filter: WatchFilter, events: seq<ChangeEvent>, log: Log) returns (stream: ChangeStream)
      modifies log
      ensures fresh(stream) && stream.filter == filter && stream.upcoming == Filtered(filter, events)
      ensures log.steps == old(log.steps) + [WatchStream(filter)]
    {
      stream := new ChangeStream(filter, Filtered(filter, events));
      log.steps := log.steps + [WatchStream(filter)];
    }
  }
}
