/**
 * The HealthKit queries an observer builds and the calls it makes, recorded
 * in order: to HealthKit (background delivery, observer and anchored queries),
 * to its synchronizer, to its delegate, and to the completion handlers
 * HealthKit hands it with each observer-query notification.
 */
module ObserverEvents {
  import opened Common

  /** An HKObserverQuery: the type it watches and the predicate it was built with. */
  datatype ObserverQuery = ObserverQuery(objectType: ObjectType, pred: Option<Predicate>)

  /** An HKAnchoredObjectQuery. */
  datatype AnchoredQuery = AnchoredQuery(sampleType: ObjectType, pred: Option<Predicate>,
                                         anchor: Option<Anchor>, limit: int)

  /**
   * One observer-query notification: the query it came from and its
   * completion handler, identified by `trigger`.
   */
  datatype HandlerEntry = HandlerEntry(query: ObserverQuery, trigger: nat)

  datatype ObserverEvent =
    | EnableBackgroundDelivery(objectType: ObjectType)
    | DisableBackgroundDelivery(objectType: ObjectType)
    | ExecuteObserverQuery(query: ObserverQuery)
    | StopObserverQuery(query: ObserverQuery)
    | ExecuteAnchoredQuery(anchored: AnchoredQuery)
    | Synchronize(objects: Option<seq<HealthObject>>, deleted: Option<seq<DeletedObject>>)
    | DidFinishExecution(error: Option<Error>)
      /** The completion handler of a notification is called. */
    | Acknowledge(trigger: nat)
      /** An anchored pass is launched on behalf of a notification. */
    | PassStarted(trigger: nat)
}
