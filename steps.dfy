/**
 * The steps a workload takes, as the benchmark takes them, and the log that
 * records them: every operation that stands for one of these steps appends
 * it to the log when it runs, so a workload's log is the order in which it
 * really called them.
 */
module Steps {
  import opened Schemas

  /** Which store a step acts on: the realm every workload opens, or the reader realm of RealmToRealm. */
  datatype Role = MainRealm | ReaderRealm

  datatype Step =
    | Subscribe(role: Role, sub: Subscription)       // addSubscriptionAndWait
    | UnsubscribeAll(role: Role)                      // removeAllSubscriptionsAndWait
    | DeleteAll(role: Role)                           // deleteAllObjs
    | Sleep(millis: nat)                              // sleep
    | InsertObjects(role: Role, count: nat, perTransaction: nat, withSignal: bool)  // insertObjectsToRealm
    | Upload(role: Role)                              // syncSession.uploadAllLocalChanges
    | InsertRemote(count: nat, perWrite: nat)         // the insertMany loop of MongoToRealm
    | ArmListener(role: Role)                         // addListener on the Dog collection
    | WatchStream(filter: WatchFilter)                // collection.watch + cs.next()
    | StartTimer(at: int)                             // const start = Date.now()
    | AwaitSignal                                     // await readerDone returns
    | StopTimer(at: int)                              // const end = Date.now()
    | PushSample(sample: int)                         // timers.push(end - start)

  /** The steps taken so far, in the order they were taken. */
  class Log {
    ghost var steps: seq<Step>

    constructor ()
      ensures steps == []
    {
      steps := [];
    }
  }
}
