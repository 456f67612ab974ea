/**
 * The writing realm of the RealmToMongo and RealmToRealm workloads. Each
 * iteration is a round on it: addSubscriptionAndWait of the Dog query,
 * deleteAllObjs, then insertObjectsToRealm of n records ending with the
 * signal record.
 */
module WriterRounds {
  import opened Schemas
  import opened RealmStore
  import opened Batching
  import opened Utilities

  /** The id generator's position after k rounds: each draws 2 ids per record. */
  function IdsAfter(c0: nat, numObjects: nat, k: nat): nat {
    if k == 0 then c0 else IdsAfter(c0, numObjects, k - 1) + 2 * numObjects
  }

  /**
   * The realm after one round whose records draw their ids from `base` on:
   * cleared, then holding exactly the records of insertObjectsToRealm.
   */
  function AfterRound(s: RealmState, base: nat, numObjects: nat, perUpload: nat): RealmState {
    if numObjects == 0 then Cleared(s)
    else CommitChunks(Cleared(s), base, numObjects, true, Chunks(numObjects, perUpload))
  }

  /** The realm after k rounds. */
  function AfterRounds(s: RealmState, c0: nat, numObjects: nat, perUpload: nat, k: nat): RealmState {
    if k == 0 then s
    else AfterRound(AfterRounds(s, c0, numObjects, perUpload, k - 1), IdsAfter(c0, numObjects, k - 1),
                        numObjects, perUpload)
  }

  /**
   * No round leaves a transaction open or registers a listener, and
   * after k >= 1 rounds the realm is subscribed to the Dog query alone
   * and holds exactly the records the last iteration wrote.
   */
  lemma {:induction false} AfterRoundsState(s: RealmState, c0: nat, numObjects: nat, perUpload: nat, k: nat)
    ensures var r := AfterRounds(s, c0, numObjects, perUpload, k);
            && r.inTransaction == s.inTransaction
            && r.pending == s.pending
            && r.listenerCount == s.listenerCount
            && (k > 0 ==>
                  && r.subscriptions == {DogSubscription}
                  && r.objects == Txn(IdsAfter(c0, numObjects, k - 1), numObjects, true,
                                      Interval(1, numObjects)))
  {
    if k > 0 {
      AfterRoundsState(s, c0, numObjects, perUpload, k - 1);
      var p := AfterRounds(s, c0, numObjects, perUpload, k - 1);
      if numObjects > 0 {
        InsertionClosedForm(Cleared(p), IdsAfter(c0, numObjects, k - 1), numObjects, perUpload, true);
      }
    }
  }

  /** The records a round leaves behind hold the signal exactly once, as the last record. */
  lemma SignalIsTheLastRecord(base: nat, numObjects: nat, j: nat)
    requires j < numObjects
    ensures var objs := Txn(base, numObjects, true, Interval(1, numObjects));
            && |objs| == numObjects
            && (objs[j].name == SignalDocumentName <==> j == numObjects - 1)
  {
    SignalNamesOnlyTheLastObject(base, numObjects, true, Interval(1, numObjects)[j]);
  }
}
