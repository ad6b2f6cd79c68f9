# HealthDataSync sync engine in Dafny

A model of the sync engine of HealthDataSync. This Swift library copies HealthKit
samples into an external store. It has four parts, each a Dafny module (or two) that
follows the Swift type it models:

- **HDSObjectSynchronizer** (`Reconciler`, laws in `ReconcilerLaws`). One synchronize
  pass runs the pre-hook, then the deletion stage, the upsert stage and the post-hook.
  - The deletion stage fetches the external records matching the deleted objects and
    deletes what was found.
  - The upsert stage fetches the existing records in one call and may look up preferred
    units. It then partitions the incoming objects: an object whose uuid matches a
    fetched record becomes an update (the record merged with it); any other becomes an
    add. Adds are applied, then updates.
  - Several stages stop on an error.
  - The external store and HealthKit's `preferredUnits` are collaborators. Their answers
    come in a `Replies` value. Every call the pass makes to them is recorded as a
    `SyncEvent`.
- **HDSQueryObserver** (`Observer`, with `TriggerQueue`, `AnchoredPass`, `CursorStore`
  and `ObserverEvents`).
  - One observer per external object type.
  - `start()` and `stop()` drive the `isObserving` flag. They enable or disable
    background delivery for every authorization type and join the per-type replies.
  - Observer-query notifications are served one at a time through the
    `handlerCompletions` queue.
  - Each pass is a paginated anchored query. The anchor and the last execution date are
    written to the user defaults only after a page has synchronized. The next page is
    requested while pages come back full.
  - The user defaults are a map from keys to stored values. Each type owns three keys,
    `<identifier>-Anchor`, `<identifier>-Predicate` and
    `<identifier>-Last-Execution-Date`.
  - The observer's calls to HealthKit, to its synchronizer and to the notification
    completion handlers are appended to its `trace`. Of the delegate's methods only
    `didFinishExecution` is recorded. `shouldExecute` and `batchSize` are read as fields of
    the delegate value.
- **HDSManager** (`Coordinator`).
  - Keeps `allObservers` and adds one observer per new type. "New" means no observer
    already in the list has the same authorization types and HealthKit type.
  - Hands its delegate and converter to every observer.
  - Starts and stops all observers in order.
  - Builds the read-type list of a permission request.
- **HDSPermissionsManager** (`Permissions`). Two guards (health data unavailable, nothing
  to ask for) in front of one authorization request. The request holds the type lists
  turned into sets.

`Common` holds the shared vocabulary: HealthKit objects and types, external object types
with their conversions, errors, and the HealthKit store. The store is modelled by its
answers: availability, authorization status, enable/disable replies and the authorization
reply.

Where the code changes state in place, the model does too:
- the synchronizer, observer, user defaults, manager and permissions manager are classes;
- their methods are proved against functions that specify them (`SyncSpec`,
  `ExternalObjectsOf`, `StartStep`, `StopStep`, `Pass`, `PageStep`, `Handle`, `Complete`,
  `StopAll`, `FlattenTypes`, `Authorize`);
- the laws are lemmas about those functions.

## Model

| member | source | states |
|---|---|---|
| Common.CompactMap | Sources/Synchronizers/HDSObjectSynchronizer.swift:66 | The converted list is no longer than the input, is as long as the input when every conversion succeeds, and holds only conversions of input elements. |
| Common.CompactMapKeeps | Sources/Synchronizers/HDSObjectSynchronizer.swift:66 | Every conversion that succeeds is in the converted list. |
| Common.CompactMapTotal | Sources/Synchronizers/HDSObjectSynchronizer.swift:66 | When every conversion succeeds, element i of the converted list is the conversion of input element i. |
| Common.CompactMapConcat | Sources/Synchronizers/HDSObjectSynchronizer.swift:66 | Converting a concatenation gives the two parts' conversions concatenated, so input order is kept. |
| CursorStore.UserDefaults.Set | Sources/HDSQueryObserver.swift:453 | Writing a key stores the value under that key and leaves every other key as it was. |
| CursorStore.UserDefaults.RemoveObject | Sources/HDSQueryObserver.swift:469 | Removing a key drops exactly that key. |
| CursorStore.SuffixesDistinct | Sources/HDSQueryObserver.swift:47-49 | An anchor key, a predicate key and an execution-date key never coincide, whatever the identifiers. |
| CursorStore.KeyInjective | Sources/HDSQueryObserver.swift:47-49 | Two keys with the same suffix are equal exactly when their identifiers are. |
| CursorStore.CursorKeysLaw | Sources/HDSQueryObserver.swift:47-49 | A type owns exactly three keys, and two different types share none. |
| CursorStore.AnchorRoundTrip | Sources/HDSQueryObserver.swift:445-489 | Reading the anchor back after saving gives the saved one: saving nil removes the key, so it reads back as nil. No other key changes. |
| CursorStore.PredicateRoundTrip | Sources/HDSQueryObserver.swift:491-535 | Reading the predicate back after saving gives the saved one (nil removes the key). No other key changes. |
| CursorStore.LastExecutionRoundTrip | Sources/HDSQueryObserver.swift:419-443 | The last execution date reads back as the time it was saved at. No other key changes. |
| CursorStore.SaveAnchorKeepsOthers | Sources/HDSQueryObserver.swift:419-471 | Saving the anchor keeps the type's predicate and execution date. Saving the date keeps its anchor. |
| Reconciler.ObjectSynchronizer.constructor | Sources/Synchronizers/HDSObjectSynchronizer.swift:19-26 | A new synchronizer has its type, and no converter and no units yet. |
| Reconciler.ObjectSynchronizer.Synchronize | Sources/Synchronizers/HDSObjectSynchronizer.swift:28-55 | The pass's error, its calls in order and the stored units are those of the pass specification. The pass laws are proved about that specification. |
| Reconciler.ObjectSynchronizer.Delete | Sources/Synchronizers/HDSObjectSynchronizer.swift:57-82 | Equals the deletion-stage specification: no call for nil or empty input; the fetch of the converted deletions; delete only when records came back. |
| Reconciler.ObjectSynchronizer.CreateOrUpdate | Sources/Synchronizers/HDSObjectSynchronizer.swift:84-120 | Equals the upsert-stage specification, including when `unitsDictionary` is assigned and with what. |
| Reconciler.ObjectSynchronizer.ApplyUpdates | Sources/Synchronizers/HDSObjectSynchronizer.swift:122-156 | Equals the apply-stage specification over the computed partition. |
| Reconciler.ObjectSynchronizer.FetchExternalObjects | Sources/Synchronizers/HDSObjectSynchronizer.swift:158-167 | An empty request is answered (nil, nil) with no call to the store. Any other request is one fetch, answered by the store. |
| Reconciler.ObjectSynchronizer.ExternalObjects | Sources/Synchronizers/HDSObjectSynchronizer.swift:169-203 | The nested loops build exactly the object-by-object partition, or nil when both lists are empty. |
| ReconcilerLaws.MatchesLaw | Sources/Synchronizers/HDSObjectSynchronizer.swift:179-190 | An object has matches exactly when its uuid was fetched. The matches are the fetched records of that uuid, merged with it, and all of them. With one record per uuid there is exactly one. |
| ReconcilerLaws.MatchesFound | Sources/Synchronizers/HDSObjectSynchronizer.swift:179-190 | An object is an update exactly when some fetched record has its uuid. |
| ReconcilerLaws.MatchesSound | Sources/Synchronizers/HDSObjectSynchronizer.swift:179-190 | Every match is a fetched record of the object's uuid, merged with the object. |
| ReconcilerLaws.MatchesComplete | Sources/Synchronizers/HDSObjectSynchronizer.swift:179-190 | Every fetched record of the object's uuid is matched, because the inner loop does not stop at the first match. |
| ReconcilerLaws.MatchesUnique | Sources/Synchronizers/HDSObjectSynchronizer.swift:179-190 | Against a store with one record per uuid, an object has one match if its uuid was fetched and none otherwise. |
| ReconcilerLaws.PartitionMembership | Sources/Synchronizers/HDSObjectSynchronizer.swift:169-203 | The update set is exactly the fetched records merged with the incoming objects of the same uuid. The add set is exactly the conversions of the objects that no fetched record matches. |
| ReconcilerLaws.UpdatesSound | Sources/Synchronizers/HDSObjectSynchronizer.swift:169-203 | Every update is some fetched record merged with an incoming object of the same uuid. |
| ReconcilerLaws.UpdatesComplete | Sources/Synchronizers/HDSObjectSynchronizer.swift:169-203 | Every fetched record with the uuid of an incoming object is in the update set, merged with that object. |
| ReconcilerLaws.AddsSound | Sources/Synchronizers/HDSObjectSynchronizer.swift:169-203 | Every add converts an incoming object whose uuid was not fetched. |
| ReconcilerLaws.AddsComplete | Sources/Synchronizers/HDSObjectSynchronizer.swift:169-203 | Every object whose uuid was not fetched, and which converts, is added. |
| ReconcilerLaws.PartitionCounts | Sources/Synchronizers/HDSObjectSynchronizer.swift:169-203 | With one record per uuid, there are as many updates as objects with a fetched uuid. When every object converts, the rest are adds. |
| ReconcilerLaws.PartitionSeparatesIds | Sources/Synchronizers/HDSObjectSynchronizer.swift:169-203 | With conversions that keep the HealthKit uuid, every update carries a fetched uuid and no add does. |
| ReconcilerLaws.NumberedPartition | Sources/Synchronizers/HDSObjectSynchronizer.swift:93-96 | For n numbered objects of which the store holds the first m: the fetch carries n records, the add set has n - m and the update set m. |
| ReconcilerLaws.SomeObjectsExisting | Sources/Synchronizers/HDSObjectSynchronizer.swift:84-156 | For n objects of which m already exist, a whole pass makes one fetch of n, the units lookup if the type asks for it, one add of n - m and one update of m. The result is the update's. |
| ReconcilerLaws.NoObjectsExisting | Sources/Synchronizers/HDSObjectSynchronizer.swift:84-156 | For n > 0 objects of which none exist, a whole pass makes one fetch of n, the units lookup if the type asks for it, one add of n and no update. The result is the add's. |
| ReconcilerLaws.TenObjectsNoneExisting | Sources/Synchronizers/HDSObjectSynchronizer.swift:84-156 | Ten objects of which none exist give one fetch of ten, one add of ten, no update, and no error. |
| ReconcilerLaws.TenObjectsFiveExisting | Sources/Synchronizers/HDSObjectSynchronizer.swift:84-156 | Ten objects of which five exist give one fetch of ten, one add of five, one update of five, and no error. |
| ReconcilerLaws.EmptyInputsAreNoOp | Sources/Synchronizers/HDSObjectSynchronizer.swift:28-90 | With nil or empty objects and deletions, the pass succeeds and only the two hooks run: no fetch, delete, units lookup, add or update. |
| ReconcilerLaws.DeleteStageLaw | Sources/Synchronizers/HDSObjectSynchronizer.swift:57-82 | The deletion stage makes at most one fetch and one delete. Delete runs exactly when the fetch found records, and then its result is the stage's. Otherwise the fetch's error is passed on. |
| ReconcilerLaws.UpsertStageShape | Sources/Synchronizers/HDSObjectSynchronizer.swift:84-156 | The upsert stage never deletes, and makes at most one fetch, one add and one update. |
| ReconcilerLaws.DeletionsBeforeUpserts | Sources/Synchronizers/HDSObjectSynchronizer.swift:28-55 | The pre-hook runs first, and no delete comes after any units lookup, add or update. |
| ReconcilerLaws.DeleteErrorStopsPass | Sources/Synchronizers/HDSObjectSynchronizer.swift:34-41 | A deletion-stage error is the pass's error. No upsert call follows, the post-hook does not run and no units are stored. |
| ReconcilerLaws.UpsertFetchErrorStopsPass | Sources/Synchronizers/HDSObjectSynchronizer.swift:99-103 | An upsert-fetch error is the pass's error. The fetch is followed only by the post-hook: no units lookup, add or update. |
| ReconcilerLaws.SingleUpsertFetch | Sources/Synchronizers/HDSObjectSynchronizer.swift:93-96 | The upsert stage starts with exactly one fetch carrying every converted object. That is all of the objects when each converts. |
| ReconcilerLaws.PreferredUnitsFailureIgnored | Sources/Synchronizers/HDSObjectSynchronizer.swift:105-118 | Whatever preferredUnits answers, failure included, the pass's error and calls are the same. Only the stored units differ. |
| ReconcilerLaws.UpsertIgnoresUnits | Sources/Synchronizers/HDSObjectSynchronizer.swift:105-118 | The same for the upsert stage on its own. |
| ReconcilerLaws.AddsBeforeUpdates | Sources/Synchronizers/HDSObjectSynchronizer.swift:122-156 | Each non-empty set is sent in one call, adds first. An add error is returned and update is not called. Otherwise the update's result is returned, and with nothing to send the result is nil. |
| TriggerQueue.HandleWhileBusy | Sources/HDSQueryObserver.swift:218-226 | A notification that arrives while another is queued is appended and nothing is called. |
| TriggerQueue.HandleWhenIdle | Sources/HDSQueryObserver.swift:207-261 | At an empty queue, a notification is served at once. A pass is launched and the entry stays queued, or a declined entry is acknowledged and dropped. A non-sample entry is acknowledged twice: once directly and once by the completion. |
| TriggerQueue.CompleteAcksFront | Sources/HDSQueryObserver.swift:263-270 | However many notifications are waiting, finishing a pass first acknowledges the finished one, and the queue gets shorter. |
| TriggerQueue.CompleteWithOneWaiting | Sources/HDSQueryObserver.swift:263-278 | With one notification waiting, finishing a pass acknowledges the front, launches the waiting one's pass and leaves the system healthy. |
| TriggerQueue.CompleteStallsAsWritten | Sources/HDSQueryObserver.swift:263-278 | With two or more waiting, the second is put back behind the others and no pass is launched, so the queue is left unhealthy. |
| TriggerQueue.ThreeNotificationsStall | Sources/HDSQueryObserver.swift:263-278 | Three sample notifications with the first served: finishing its pass acknowledges it, leaves the other two queued in swapped order and launches nothing. |
| TriggerQueue.StallIsPermanent | Sources/HDSQueryObserver.swift:218-226 | Once the queue is not empty and nothing runs, further notifications only pile up and never launch a pass. |
| TriggerQueue.HandleConserves | Sources/HDSQueryObserver.swift:207-278 | For sample notifications, handling one loses none and acknowledges none twice: every queued notification is still queued or acknowledged. |
| TriggerQueue.CompleteConserves | Sources/HDSQueryObserver.swift:263-278 | The same for finishing a pass. |
| TriggerQueue.ServeFrontLaw | Sources/HDSQueryObserver.swift:263-278 | The intended queue drains front to back. What stays is a suffix. The entries before it are acknowledged once each, in arrival order. A pass is launched for the new front only. |
| TriggerQueue.CompleteFixedLaw | Sources/HDSQueryObserver.swift:263-278 | Finishing a pass in the intended queue drains it and removes at least the front entry. |
| TriggerQueue.HandleFixedHealthy | Sources/HDSQueryObserver.swift:207-261 | The intended queue keeps the system healthy on every notification: a pass is in flight exactly while something is queued, and it is the front's. |
| TriggerQueue.CompleteFixedHealthy | Sources/HDSQueryObserver.swift:263-278 | The intended queue keeps the system healthy when the pass in flight finishes, however many are waiting. |
| TriggerQueue.HandleFixedWhenIdle | Sources/HDSQueryObserver.swift:207-261 | In the intended queue, a notification at an empty queue is launched or acknowledged exactly once. |
| AnchoredPass.ApplyPagesLaw | Sources/HDSQueryObserver.swift:315-316 | Saving a run of pages changes only the type's anchor and execution-date keys. Afterwards they hold the last page's anchor and time, and the predicate is untouched. |
| AnchoredPass.SavedPageReads | Sources/HDSQueryObserver.swift:315-316 | Saving one page stores its anchor and the time, keeps the predicate and changes no other key. |
| AnchoredPass.ApplyPagesWithoutId | Sources/HDSQueryObserver.swift:419-463 | A type without a HealthKit type has no keys, so saving pages changes nothing. |
| AnchoredPass.PassLaw | Sources/HDSQueryObserver.swift:280-334 | Some number k of pages come back full, with objects and without error, and each is saved. The pass then ends in one of four ways. It may still be waiting for an answer. Page k may have no error and no object list, and the handler traps with nothing saved for it. Page k may fail, and the pass completes (false, that error) with nothing saved for page k. Or page k is short: it is saved and the pass completes (true, nil). |
| AnchoredPass.NonPositiveLimitNeverSucceeds | Sources/HDSQueryObserver.swift:282-329 | With a batch size of zero or less every page counts as full, so the pass never completes with (true, nil). It can only fail with an error, trap, or keep querying. |
| AnchoredPass.PaginationLaw | Sources/HDSQueryObserver.swift:318-329 | After a page that synchronized: if it was full (objects plus deletions at least `limit`), the next query runs from the new anchor with the same limit. Otherwise the pass completes (true, nil). Either way the page is saved. |
| AnchoredPass.FailedPageWritesNothing | Sources/HDSQueryObserver.swift:290-313 | A query error or a synchronize error completes the pass with (false, that error) and writes neither the anchor nor the date. |
| AnchoredPass.CrashedPageWritesNothing | Sources/HDSQueryObserver.swift:298-302 | An answer with no error and no object list traps at the force-unwrap. Nothing is synchronized or saved, neither the completion nor the delegate is called, and no further query runs. |
| AnchoredPass.PassFinishesOnce | Sources/HDSQueryObserver.swift:290-329 | A pass only appends to the trace. It tells the delegate it finished exactly once, last, with the completion's error, and only when it completed and there is a delegate. A pass that trapped or is still waiting has not told it. |
| Observer.JoinLaw | Sources/HDSQueryObserver.swift:336-375 | The join succeeds exactly when no type replied unsuccessful with an error. It collects one error per such type. An unsuccessful reply without an error does not count. |
| Observer.StartLaw | Sources/HDSQueryObserver.swift:62-98 | `start()` does nothing when health data is unavailable, the observer cannot start or it already observes. Otherwise it enables every type, observes exactly when the join succeeded and executes the observer query only then. Starting again changes nothing. |
| Observer.StopLaw | Sources/HDSQueryObserver.swift:103-138 | `stop()` does nothing when health data is unavailable or nothing is observed. Otherwise it disables every type, stops the query, removes exactly the type's three keys and stops observing, whatever the disable replies were. Stopping again changes nothing. |
| Observer.QueryObserver.constructor | Sources/HDSQueryObserver.swift:51-58 | A new observer has no delegate, does not observe, has no cached query and nothing queued. |
| Observer.QueryObserver.SetConverter | Sources/HDSQueryObserver.swift:17 | The converter is the synchronizer's: setting it sets the synchronizer's. |
| Observer.QueryObserver.SetQueryPredicate | Sources/HDSQueryObserver.swift:491-509 | Setting the predicate stores it under the predicate key. A nil predicate removes the key. |
| Observer.QueryObserver.DeletePredicate | Sources/HDSQueryObserver.swift:511-517 | Removes the predicate key, if the type has one. |
| Observer.QueryObserver.SaveAnchor | Sources/HDSQueryObserver.swift:445-463 | Stores the anchor under the anchor key. A nil anchor removes the key. |
| Observer.QueryObserver.DeleteAnchor | Sources/HDSQueryObserver.swift:465-471 | Removes the anchor key, if the type has one. |
| Observer.QueryObserver.SaveLastExecutionDate | Sources/HDSQueryObserver.swift:419-425 | Stores the time under the execution-date key. |
| Observer.QueryObserver.DeleteLastExecutionDate | Sources/HDSQueryObserver.swift:427-433 | Removes the execution-date key, if the type has one. |
| Observer.QueryObserver.CanStartObserving | Sources/HDSQueryObserver.swift:22-38 | False when there are no authorization types or any of them is not determined. True otherwise, sharing denied included. |
| Observer.QueryObserver.JoinReplies | Sources/HDSQueryObserver.swift:338-373 | The fold of the replies gives exactly the join's success flag and errors. |
| Observer.QueryObserver.EnableBackgroundDelivery | Sources/HDSQueryObserver.swift:336-375 | One enable request per type, in order. The result is the join of their replies. |
| Observer.QueryObserver.DisableBackgroundDelivery | Sources/HDSQueryObserver.swift:377-415 | One disable request per type, in order. The result is the join of their replies. |
| Observer.QueryObserver.Query | Sources/HDSQueryObserver.swift:177-205 | The observer query is built once and cached, with the stored predicate. A type that is not a sample type has none. |
| Observer.QueryObserver.Start | Sources/HDSQueryObserver.swift:62-98 | The new lifecycle (flag, cached query, calls) is the `start()` step, whose laws are proved. |
| Observer.QueryObserver.Stop | Sources/HDSQueryObserver.swift:103-138 | The new lifecycle and user defaults are the `stop()` step, whose laws are proved. |
| Observer.QueryObserver.ExecuteAnchorQuery | Sources/HDSQueryObserver.swift:280-334 | The first query from the stored anchor, then the answers page by page, give exactly the pass's completion, calls, user defaults and units. |
| Observer.QueryObserver.AnswerPage | Sources/HDSQueryObserver.swift:288-331 | One query's completion handler has exactly the effect of one pass step: a query error; a trap when there is no object list, which changes nothing; else synchronize, then a synchronize error, or save and continue or finish. |
| Observer.QueryObserver.Execute | Sources/HDSQueryObserver.swift:146-175 | Gives (false, noSpecifiedTypes) for a type that is not a sample type and (false, operationCancelled) when the delegate declines, both with nothing else changed. Otherwise it runs an anchored pass. |
| Observer.QueryObserver.HandleObservedQuery | Sources/HDSQueryObserver.swift:207-261 | Changes the queue and the calls exactly as the as-written handle step does. |
| Observer.QueryObserver.CompleteObservedQuery | Sources/HDSQueryObserver.swift:263-278 | Changes the queue and the calls exactly as the as-written completion step does. |
| Observer.QueryObserver.ObserverQueryUpdate | Sources/HDSQueryObserver.swift:186-200 | A notification with an error is dropped without acknowledgement, and so is one from another query. One from the current query is handled. |
| Permissions.SetOf | Sources/HDSPermissionsManager.swift:45-46 | The set holds exactly the listed types. |
| Permissions.GuardLaw | Sources/HDSPermissionsManager.swift:26-50 | Unavailable health data is refused first, then two empty lists. Any other input is one request for exactly the listed types, unaffected by the order of the lists or repeats in them. |
| Permissions.DuplicatesCollapse | Sources/HDSPermissionsManager.swift:45-46 | A repeated type asks for the same set as the list without the repeat. |
| Permissions.Authorize | Sources/HDSPermissionsManager.swift:26-63 | (false, unavailable) or (false, noSpecifiedTypes) with no request. Otherwise exactly one request for the listed types, and HealthKit's (success, error) passed on unchanged. |
| Permissions.PermissionsManager.constructor | Sources/HDSPermissionsManager.swift:16-24 | A new permissions manager has empty read and share lists. |
| Permissions.PermissionsManager.AuthorizeHealthKit | Sources/HDSPermissionsManager.swift:26-63 | The completion's values and the request made are those of the authorization decision. |
| Coordinator.KeptLaw | Sources/HDSManager.swift:98-105 | A synchronizer is kept exactly when no observer already in the list has its type, and the kept ones stay in input order. |
| Coordinator.KeptNone | Sources/HDSManager.swift:76-105 | Nothing is added exactly when every given type already has an observer, empty input included. |
| Coordinator.AddTwiceAddsOnce | Sources/HDSManager.swift:84-103 | Adding the same types a second time adds nothing. |
| Coordinator.DuplicatesInOneCall | Sources/HDSManager.swift:79-103 | Two equal new types in one call both get an observer, because only the list as it was before the call is consulted. |
| Coordinator.FlattenLaw | Sources/HDSManager.swift:176-193 | The read types of two groups of observers are the first group's followed by the second's. A type is in the list exactly when some observer's type lists it. |
| Coordinator.FlattenMembers | Sources/HDSManager.swift:176-193 | A type is among the read types exactly when some observer's authorization types include it. |
| Coordinator.StopAllLaw | Sources/HDSManager.swift:118-127 | After stopping all: an observer still observes exactly when it did and could not be stopped. The shared defaults have lost exactly the keys of the stopped observers. |
| Coordinator.StopStepEffect | Sources/HDSQueryObserver.swift:103-138 | One `stop()` stops the observer exactly when it can, and then removes exactly its three keys. |
| Coordinator.Manager.constructor | Sources/HDSManager.swift:49-61 | A new manager has no observers, no delegate and no converter. |
| Coordinator.Manager.HasObserver | Sources/HDSManager.swift:197-200 | True exactly when some observer in the list has equal authorization types and an equal HealthKit type. |
| Coordinator.Manager.SetObserverDelegate | Sources/HDSManager.swift:16-28 | Every observer in the list gets the new delegate. Nothing else about them changes. |
| Coordinator.Manager.SetConverter | Sources/HDSManager.swift:29-41 | Every observer's synchronizer gets the new converter. Its units are untouched. |
| Coordinator.Manager.NewObserver | Sources/HDSManager.swift:101-102 | A fresh observer of the synchronizer, on the manager's store and defaults, carrying the manager's delegate and not yet observing. |
| Coordinator.Manager.NewObserverOf | Sources/HDSManager.swift:86-88 | A fresh synchronizer of the type, with no converter and no units, and a fresh observer of it as above. |
| Coordinator.Manager.ObserversFor | Sources/HDSManager.swift:101-102 | One new, distinct observer per synchronizer whose type has none in the list, in input order. |
| Coordinator.Manager.AddSynchronizers | Sources/HDSManager.swift:98-105 | The list only grows at its end, and the old entries keep their order. What is appended is one new observer per synchronizer whose type had none, in order, each with the current delegate. |
| Coordinator.Manager.ObserversOf | Sources/HDSManager.swift:79-93 | One new, distinct observer and synchronizer per type that has none in the list, in input order. |
| Coordinator.Manager.AddObjectTypes | Sources/HDSManager.swift:76-96 | The list only grows at its end, and the old entries keep their order. What is appended is, for each type that had none, a new synchronizer of it with a new observer carrying the current delegate, in order. |
| Coordinator.Manager.StartObserving | Sources/HDSManager.swift:107-116 | Each observer has taken exactly one `start()` step. Its queue and delegate are untouched. |
| Coordinator.Manager.StopObserving | Sources/HDSManager.swift:118-127 | The observers and the shared defaults are those of one `stop()` per observer, in list order. Each observer keeps its notification queue and its delegate. |
| Coordinator.Manager.AuthorizationTypes | Sources/HDSManager.swift:176-193 | The nested loops give each observer's authorization types in order. Nils are skipped and repeats kept. |
| Coordinator.Manager.RequestPermissions | Sources/HDSManager.swift:70-74 | The read types become the observers' authorization types, and the result is the permission manager's decision over them. |
| Coordinator.Manager.RequestPermissionsForAllObservers | Sources/HDSManager.swift:63-68 | The same, over every observer in the list. |

## Left out

- I/O, concurrency and locks: `objc_sync` sections, dispatch groups and the global queue are left out. The per-type enable and disable replies are joined in list order.
- Callbacks are sequential steps. The delegate's `shouldExecute` and `batchSize` answers are fields of the delegate value. HealthKit's answers are values:
  - a `HealthStore`, whose replies are one fixed function of the type;
  - one `PageAnswer` per anchored query;
  - one `Replies` per synchronize pass.
- `Date()` is a parameter: each page answer carries the time at which its execution date is saved.
- NSKeyedArchiver encoding and decoding are left out. Anchors and predicates are stored as opaque values, and archiving never fails. A stored value of the wrong kind reads as absent, as a failed unarchive does.
- `HDSManager.sources(for:)` is not part of this model. It is a concurrent fan-out of source queries with no bearing on synchronization.
- `HDSManagerFactory`, `HDSQueryObserverFactory` and the store and user-defaults proxies are not part of this model. The proxies are pass-throughs; the user defaults are a map. The factory's `observers(with:)` is inlined as `Coordinator.Manager.NewObserver`.
- Print logging, and watchOS availability annotations.
- Subclass overrides of the synchronizer hooks: the default hooks are modelled and appear in the calls.
- Observer.QueryObserver.AnswerPage: an answer with no error and no object list traps in the source, which ends the process. The model stops the pass with the `Crashed` completion and leaves the observer's state as it was before that answer; what happens after the process dies is not modelled.
- Observer.QueryObserver.Query: the force-unwrap in `query()` crashes for a type that is not a sample type. The model returns no query, so `Start` executes nothing and `Stop` returns after the disable requests, with the flag and the keys unchanged.
- Observer.QueryObserver.HandleObservedQuery: launching a pass is recorded as a call, not run. The pass is `ExecuteAnchorQuery`; its completion is `CompleteObservedQuery`, a separate step. The model therefore does not chain a pass's answers to the notification that started it.
- Observer.QueryObserver.HandleObservedQuery: the class follows the queue as written. The corrected discipline is stated and proved as the `TriggerQueue` functions `HandleFixed`, `ServeFront` and `CompleteFixed`.
- Reconciler.ObjectSynchronizer.ExternalObjects: `update(with:)` mutates the fetched record objects in place. The model builds merged values instead, so aliasing between the fetched list and the update set is not captured. This matters when two objects in one batch share a uuid with a fetched record e. The source then sends that one record twice, with both updates applied, as [e'', e''] where e'' is e updated by the first object and then by the second. The model sends [merge(e, o1), merge(e, o2)].
- AnchoredPass.Limit: the delegate's batch size is used as given, as in the source. A batch size of zero or less is not rejected. Every page then reaches the limit and another query follows, so the pass never completes successfully (`NonPositiveLimitNeverSucceeds`). The model runs only as many queries as answers are supplied, so it does not show the unbounded re-querying itself.
- Coordinator.Manager.AddObjectTypes: the external store passed in is not stored. The store's answers come with each pass as `Replies`, so the new synchronizers need none.
- Coordinator.Manager.SetObserverDelegate: the observers' `delegate` is a weak reference in the source. The model holds it as a value and cannot lose it.
- The observer query's notifications are only as many as the caller feeds to `ObserverQueryUpdate`. Whether every notification is eventually acknowledged is proved only for one waiting notification in the code as written, and in general for the corrected queue.

## Findings

| source | as written | input that shows it | evidently intended | confidence | as-written member | corrected member |
|---|---|---|---|---|---|---|
| Sources/HDSQueryObserver.swift:263-278 | `completeObservedQuery` acknowledges the front entry and removes it. It then removes the next entry and hands it to `handleObservedQuery`. That appends it again behind the entries still queued, and returns without serving because the queue holds more than one. | Three observer-query notifications for a sample type, the first one's pass running. When it finishes, the first is acknowledged and the queue is left as [third, second]. No pass runs, and later notifications only pile up. | When a pass finishes, serve the new front entry in place: launch its pass, or acknowledge it and go on. A pass is then in flight exactly while something is queued. | not executed | TriggerQueue.CompleteStallsAsWritten | TriggerQueue.CompleteFixedHealthy |
