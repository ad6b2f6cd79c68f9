/**
 * HDSQueryObserver: watches one HealthKit type. `Start` enables background
 * delivery and executes the observer query; `Stop` undoes both and forgets
 * the stored cursor; `Execute` and observer-query notifications run anchored
 * passes that feed the synchronizer. HealthKit's answers come from the
 * `HealthStore` value and from the page answers handed to each pass; every
 * call the observer makes is appended to `trace`.
 */
module Observer {
  import opened Common
  import opened CursorStore
  import opened Reconciler
  import opened ObserverEvents
  import opened TriggerQueue
  import opened AnchoredPass

  /** `canStartObserving`: the type lists its authorization types and none is undetermined. */
  predicate CanStart(store: HealthStore, t: ExternalObjectType)
  {
    t.authorizationTypes.Some? &&
    forall i :: 0 <= i < |t.authorizationTypes.value| ==> store.status(t.authorizationTypes.value[i]) != NotDetermined
  }

  /** A reply the enable/disable join counts as a failure: unsuccessful and carrying an error. */
  predicate Fails(r: StoreReply)
  {
    !r.success && r.error.Some?
  }

  /** The errors the join collects, in order. */
  function FailureErrors(rs: seq<StoreReply>): seq<Error>
  {
    if rs == [] then []
    else FailureErrors(rs[..|rs| - 1]) + (if Fails(rs[|rs| - 1]) then [rs[|rs| - 1].error.value] else [])
  }

  /** HealthKit's reply for each type, in order. */
  function RepliesFor(reply: ObjectType -> StoreReply, types: seq<ObjectType>): (r: seq<StoreReply>)
    ensures |r| == |types| && forall i :: 0 <= i < |types| ==> r[i] == reply(types[i])
  {
    seq(|types|, i requires 0 <= i < |types| => reply(types[i]))
  }

  /** One enable (or disable) request per type, in order. */
  function DeliveryEvents(types: seq<ObjectType>, enable: bool): (r: seq<ObserverEvent>)
    ensures |r| == |types|
    ensures forall i :: 0 <= i < |types| ==>
      r[i] == if enable then EnableBackgroundDelivery(types[i]) else DisableBackgroundDelivery(types[i])
  {
    seq(|types|, i requires 0 <= i < |types| =>
      if enable then EnableBackgroundDelivery(types[i]) else DisableBackgroundDelivery(types[i]))
  }

  /**
   * `query()`: the cached query, else a new one over the sample type with
   * the stored predicate; for a type that is not a sample type there is
   * none (the force-unwrap fails).
   */
  function CachedQuery(cached: Option<ObserverQuery>, t: ExternalObjectType, e: Entries): Option<ObserverQuery>
  {
    if cached.Some? then cached
    else if t.healthKitObjectType.Some? && t.healthKitObjectType.value.isSample then
      Some(ObserverQuery(t.healthKitObjectType.value, ReadPredicate(e, IdOf(t))))
    else None
  }

  /** The observer's lifecycle fields. */
  datatype Lifecycle = Lifecycle(isObserving: bool, query: Option<ObserverQuery>, trace: seq<ObserverEvent>)

  /** `start()` from lifecycle `s` with stored entries `e`. */
  function StartStep(store: HealthStore, t: ExternalObjectType, e: Entries, s: Lifecycle): Lifecycle
  {
    if !store.available || !CanStart(store, t) || s.isObserving
       || t.authorizationTypes.None? || t.healthKitObjectType.None? then s
    else
      var types := t.authorizationTypes.value;
      var ok := FailureErrors(RepliesFor(store.enableReply, types)) == [];
      var ev := s.trace + DeliveryEvents(types, true);
      if !ok then Lifecycle(false, s.query, ev)
      else
        var q := CachedQuery(s.query, t, e);
        Lifecycle(true, if q.Some? then q else s.query, ev + (if q.Some? then [ExecuteObserverQuery(q.value)] else []))
  }

  /** `stop()` from lifecycle `s` with stored entries `e`: the new lifecycle and entries. */
  function StopStep(store: HealthStore, t: ExternalObjectType, s: Lifecycle, e: Entries): (Lifecycle, Entries)
  {
    if !store.available || !s.isObserving || t.authorizationTypes.None? || t.healthKitObjectType.None? then (s, e)
    else
      var ev := s.trace + DeliveryEvents(t.authorizationTypes.value, false);
      var q := CachedQuery(s.query, t, e);
      if q.None? then (Lifecycle(s.isObserving, s.query, ev), e)
      else
        var id := IdOf(t);
        (Lifecycle(false, q, ev + [StopObserverQuery(q.value)]),
         DeletePredicate(DeleteLastExecutionDate(DeleteAnchor(e, id), id), id))
  }

  // ---------------------------------------------------------------------
  // Laws

  /**
   * The join succeeds exactly when no type failed with an error, and the
   * errors are those of the failing types, one each, in order.
   */
  lemma {:induction false} JoinLaw(rs: seq<StoreReply>)
    ensures FailureErrors(rs) == [] <==> forall i :: 0 <= i < |rs| ==> !Fails(rs[i])
    ensures |FailureErrors(rs)| <= |rs|
    ensures (forall i :: 0 <= i < |rs| ==> Fails(rs[i])) ==> |FailureErrors(rs)| == |rs|
    ensures forall i :: 0 <= i < |rs| && Fails(rs[i]) ==> rs[i].error.value in FailureErrors(rs)
    ensures forall x :: x in FailureErrors(rs) ==> exists i :: 0 <= i < |rs| && Fails(rs[i]) && rs[i].error == Some(x)
  {
    if rs != [] {
      var init := rs[..|rs| - 1];
      JoinLaw(init);
      assert forall i :: 0 <= i < |init| ==> init[i] == rs[i];
    }
  }

  /**
   * `start()` does nothing when health data is unavailable, the observer
   * cannot start or it is already observing; otherwise it observes exactly
   * when every enable request succeeded, and executes the observer query
   * only then. Once observing, starting again changes nothing.
   */
  lemma StartLaw(store: HealthStore, t: ExternalObjectType, e: Entries, s: Lifecycle)
    ensures !store.available || !CanStart(store, t) || s.isObserving ==> StartStep(store, t, e, s) == s
    ensures store.available && CanStart(store, t) && !s.isObserving && t.healthKitObjectType.Some? ==>
      var types := t.authorizationTypes.value;
      var s' := StartStep(store, t, e, s);
      && (s'.isObserving <==> forall i :: 0 <= i < |types| ==> !Fails(store.enableReply(types[i])))
      && s'.trace[..|s.trace| + |types|] == s.trace + DeliveryEvents(types, true)
      && (s'.isObserving && CachedQuery(s.query, t, e).Some? <==> |s'.trace| == |s.trace| + |types| + 1)
      && |s'.trace| <= |s.trace| + |types| + 1
      && (|s'.trace| == |s.trace| + |types| + 1 ==>
            s'.trace[|s'.trace| - 1] == ExecuteObserverQuery(CachedQuery(s.query, t, e).value))
    ensures StartStep(store, t, e, s).isObserving ==>
      StartStep(store, t, e, StartStep(store, t, e, s)) == StartStep(store, t, e, s)
  {
    if t.authorizationTypes.Some? {
      var rs := RepliesFor(store.enableReply, t.authorizationTypes.value);
      JoinLaw(rs);
    }
  }

  /**
   * `stop()` does nothing when health data is unavailable or the observer is
   * not observing. Otherwise, for a sample type, it stops the observer query,
   * removes exactly the type's three cursor keys and stops observing,
   * whatever the disable requests answered; stopping again changes nothing.
   */
  lemma StopLaw(store: HealthStore, t: ExternalObjectType, s: Lifecycle, e: Entries)
    ensures !store.available || !s.isObserving ==> StopStep(store, t, s, e) == (s, e)
    ensures store.available && s.isObserving && t.authorizationTypes.Some? && t.healthKitObjectType.Some?
            && CachedQuery(s.query, t, e).Some? ==>
      var (s', e') := StopStep(store, t, s, e);
      var id := t.healthKitObjectType.value.identifier;
      && !s'.isObserving
      && s'.query == CachedQuery(s.query, t, e)
      && s'.trace == s.trace + DeliveryEvents(t.authorizationTypes.value, false) + [StopObserverQuery(s'.query.value)]
      && e' == e - CursorKeys(id)
      && ReadAnchor(e', Some(id)).None? && ReadPredicate(e', Some(id)).None?
      && ReadLastExecutionDate(e', Some(id)).None?
      && StopStep(store, t, s', e') == (s', e')
    ensures forall f: ObjectType -> StoreReply ::
      StopStep(store.(disableReply := f), t, s, e) == StopStep(store, t, s, e)
  {
    if t.healthKitObjectType.Some? {
      var id := t.healthKitObjectType.value.identifier;
      var e' := DeletePredicate(DeleteLastExecutionDate(DeleteAnchor(e, Some(id)), Some(id)), Some(id));
      assert e' == e - CursorKeys(id);
    }
  }

  // ---------------------------------------------------------------------
  // The observer

  class QueryObserver {
    const store: HealthStore
    const defaults: UserDefaults
    const synchronizer: ObjectSynchronizer
    var delegate: Option<Delegate>
    var isObserving: bool
    var observerQuery: Option<ObserverQuery>
    var handlerCompletions: seq<HandlerEntry>
    var trace: seq<ObserverEvent>

    constructor (store: HealthStore, defaults: UserDefaults, synchronizer: ObjectSynchronizer)
      ensures this.store == store && this.defaults == defaults && this.synchronizer == synchronizer
      ensures delegate == None && !isObserving && observerQuery == None
      ensures handlerCompletions == [] && trace == []
    {
      this.store := store;
      this.defaults := defaults;
      this.synchronizer := synchronizer;
      delegate := None;
      isObserving := false;
      observerQuery := None;
      handlerCompletions := [];
      trace := [];
    }

    /** `externalObjectType`: the synchronizer's. */
    function ObjectType(): ExternalObjectType
    {
      synchronizer.externalObjectType
    }

    function Id(): Option<string>
    {
      IdOf(ObjectType())
    }

    function State(): Lifecycle
      reads this
    {
      Lifecycle(isObserving, observerQuery, trace)
    }

    /** `converter`: forwarded to the synchronizer. */
    method SetConverter(c: Option<Converter>)
      modifies synchronizer`converter
      ensures synchronizer.converter == c
    {
      synchronizer.converter := c;
    }

    /** `queryPredicate`: read from the user defaults. */
    function QueryPredicate(): Option<Predicate>
      reads defaults
    {
      ReadPredicate(defaults.entries, Id())
    }

    function StoredAnchor(): Option<Anchor>
      reads defaults
    {
      ReadAnchor(defaults.entries, Id())
    }

    /** `lastSuccessfulExecutionDate`. */
    function LastSuccessfulExecutionDate(): Option<Date>
      reads defaults
    {
      ReadLastExecutionDate(defaults.entries, Id())
    }

    /** Setting `queryPredicate`: a nil predicate removes the key. */
    method SetQueryPredicate(p: Option<Predicate>)
      modifies defaults
      ensures defaults.entries == SavePredicate(old(defaults.entries), Id(), p)
    {
      if Id().Some? && p.Some? {
        defaults.Set(PredicateKey(Id().value), PredicateData(p.value));
      } else {
        DeletePredicate();
      }
    }

    method DeletePredicate()
      modifies defaults
      ensures defaults.entries == CursorStore.DeletePredicate(old(defaults.entries), Id())
    {
      if Id().Some? {
        defaults.RemoveObject(PredicateKey(Id().value));
      }
    }

    /** `saveAnchor(anchor:)`: a nil anchor removes the key. */
    method SaveAnchor(a: Option<Anchor>)
      modifies defaults
      ensures defaults.entries == CursorStore.SaveAnchor(old(defaults.entries), Id(), a)
    {
      if Id().Some? && a.Some? {
        defaults.Set(AnchorKey(Id().value), AnchorData(a.value));
        return;
      }
      DeleteAnchor();
    }

    method DeleteAnchor()
      modifies defaults
      ensures defaults.entries == CursorStore.DeleteAnchor(old(defaults.entries), Id())
    {
      if Id().Some? {
        defaults.RemoveObject(AnchorKey(Id().value));
      }
    }

    /** `saveLastExecutionDate()`, with the clock reading `now`. */
    method SaveLastExecutionDate(now: Date)
      modifies defaults
      ensures defaults.entries == CursorStore.SaveLastExecutionDate(old(defaults.entries), Id(), now)
    {
      if Id().Some? {
        defaults.Set(LastExecutionKey(Id().value), DateValue(now));
      }
    }

    method DeleteLastExecutionDate()
      modifies defaults
      ensures defaults.entries == CursorStore.DeleteLastExecutionDate(old(defaults.entries), Id())
    {
      if Id().Some? {
        defaults.RemoveObject(LastExecutionKey(Id().value));
      }
    }

    /** The loop of `canStartObserving`. */
    method CanStartObserving() returns (b: bool)
      ensures b == CanStart(store, ObjectType())
    {
      var types := ObjectType().authorizationTypes;
      if types.None? {
        return false;
      }
      var i := 0;
      while i < |types.value|
        invariant 0 <= i <= |types.value|
        invariant forall j :: 0 <= j < i ==> store.status(types.value[j]) != NotDetermined
      {
        if store.status(types.value[i]) == NotDetermined {
          return false;
        }
        i := i + 1;
      }
      return true;
    }

    /** The dispatch-group join of the per-type replies, as a fold in reply order. */
    static method JoinReplies(rs: seq<StoreReply>) returns (success: bool, errors: seq<Error>)
      ensures errors == FailureErrors(rs)
      ensures success <==> forall i :: 0 <= i < |rs| ==> !Fails(rs[i])
    {
      success := true;
      errors := [];
      var i := 0;
      while i < |rs|
        invariant 0 <= i <= |rs|
        invariant errors == FailureErrors(rs[..i])
        invariant success <==> forall j :: 0 <= j < i ==> !Fails(rs[j])
      {
        assert rs[..i + 1][..i] == rs[..i];
        if rs[i].success {
        } else if rs[i].error.Some? {
          success := false;
          errors := errors + [rs[i].error.value];
        }
        i := i + 1;
      }
      assert rs[..i] == rs;
    }

    method EnableBackgroundDelivery(types: seq<ObjectType>) returns (success: bool, errors: seq<Error>)
      modifies this`trace
      ensures trace == old(trace) + DeliveryEvents(types, true)
      ensures errors == FailureErrors(RepliesFor(store.enableReply, types))
      ensures success <==> errors == []
    {
      var replies: seq<StoreReply> := [];
      var i := 0;
      while i < |types|
        invariant 0 <= i <= |types|
        invariant replies == RepliesFor(store.enableReply, types[..i])
        invariant trace == old(trace) + DeliveryEvents(types[..i], true)
      {
        trace := trace + [ObserverEvent.EnableBackgroundDelivery(types[i])];
        replies := replies + [store.enableReply(types[i])];
        assert types[..i + 1][..i] == types[..i];
        i := i + 1;
      }
      assert types[..i] == types;
      success, errors := JoinReplies(replies);
      JoinLaw(replies);
    }

    method DisableBackgroundDelivery(types: seq<ObjectType>) returns (success: bool, errors: seq<Error>)
      modifies this`trace
      ensures trace == old(trace) + DeliveryEvents(types, false)
      ensures errors == FailureErrors(RepliesFor(store.disableReply, types))
      ensures success <==> errors == []
    {
      var replies: seq<StoreReply> := [];
      var i := 0;
      while i < |types|
        invariant 0 <= i <= |types|
        invariant replies == RepliesFor(store.disableReply, types[..i])
        invariant trace == old(trace) + DeliveryEvents(types[..i], false)
      {
        trace := trace + [ObserverEvent.DisableBackgroundDelivery(types[i])];
        replies := replies + [store.disableReply(types[i])];
        assert types[..i + 1][..i] == types[..i];
        i := i + 1;
      }
      assert types[..i] == types;
      success, errors := JoinReplies(replies);
      JoinLaw(replies);
    }

    /** `query()`: built once and cached; none for a non-sample type. */
    method Query() returns (q: Option<ObserverQuery>)
      modifies this`observerQuery
      ensures q == CachedQuery(old(observerQuery), ObjectType(), defaults.entries)
      ensures observerQuery == if q.Some? then q else old(observerQuery)
    {
      if observerQuery.Some? {
        return observerQuery;
      }
      var t := ObjectType().healthKitObjectType;
      if t.Some? && t.value.isSample {
        observerQuery := Some(ObserverQuery(t.value, QueryPredicate()));
      }
      return observerQuery;
    }

    method Start()
      modifies this`isObserving, this`observerQuery, this`trace
      ensures State() == StartStep(store, ObjectType(), defaults.entries, old(State()))
    {
      var can := CanStartObserving();
      if !store.available || !can {
        return;
      }
      if isObserving {
        return;
      }
      var t := ObjectType();
      if t.authorizationTypes.Some? && t.healthKitObjectType.Some? {
        var success, errors := EnableBackgroundDelivery(t.authorizationTypes.value);
        isObserving := success;
        if success {
          var q := Query();
          if q.Some? {
            trace := trace + [ExecuteObserverQuery(q.value)];
          }
        }
      }
    }

    method Stop()
      modifies this`isObserving, this`observerQuery, this`trace, defaults
      ensures (State(), defaults.entries) == StopStep(store, ObjectType(), old(State()), old(defaults.entries))
    {
      if !store.available {
        return;
      }
      if !isObserving {
        return;
      }
      var t := ObjectType();
      if t.authorizationTypes.Some? && t.healthKitObjectType.Some? {
        var success, errors := DisableBackgroundDelivery(t.authorizationTypes.value);
        var q := Query();
        if q.None? {
          return;
        }
        trace := trace + [StopObserverQuery(q.value)];
        DeleteAnchor();
        DeleteLastExecutionDate();
        DeletePredicate();
        isObserving := false;
      }
    }

    /** The environment of the passes this observer runs on `sampleType`. */
    function Env(sampleType: ObjectType): PassEnv
      reads this, synchronizer
    {
      SynchronizerEnv(ObjectType(), synchronizer.converter, delegate, sampleType)
    }

    /** `executeAnchorQuery(type:completion:)`: the query, then the pages as they come back. */
    method ExecuteAnchorQuery(sampleType: ObjectType, pages: seq<PageAnswer>) returns (c: Completion)
      modifies this`trace, defaults, synchronizer`unitsDictionary
      ensures var env := Env(sampleType);
        var first := ExecuteAnchoredQuery(QueryFor(env, old(defaults.entries)));
        (c, PassState(defaults.entries, trace, synchronizer.unitsDictionary))
          == Pass(env, PassState(old(defaults.entries), old(trace) + [first], old(synchronizer.unitsDictionary)), pages)
    {
      ghost var env := Env(sampleType);
      ghost var goal := Pass(env, PassState(defaults.entries, trace + [ExecuteAnchoredQuery(QueryFor(env, defaults.entries))],
                                            synchronizer.unitsDictionary), pages);
      var limit := Limit(delegate);
      trace := trace + [ExecuteAnchoredQuery(AnchoredQuery(sampleType, QueryPredicate(), StoredAnchor(), limit))];
      c := Pending;
      var i := 0;
      while i < |pages| && c.Pending?
        invariant 0 <= i <= |pages|
        invariant env == Env(sampleType)
        invariant c.Pending? ==> Pass(env, PassState(defaults.entries, trace, synchronizer.unitsDictionary), pages[i..]) == goal
        invariant !c.Pending? ==> (c, PassState(defaults.entries, trace, synchronizer.unitsDictionary)) == goal
        decreases |pages| - i
      {
        assert pages[i..][0] == pages[i] && pages[i..][1..] == pages[i + 1..];
        c := AnswerPage(sampleType, pages[i]);
        i := i + 1;
      }
    }

    /** The completion handler of one anchored query. */
    method AnswerPage(sampleType: ObjectType, page: PageAnswer) returns (c: Completion)
      modifies this`trace, defaults, synchronizer`unitsDictionary
      ensures (c, PassState(defaults.entries, trace, synchronizer.unitsDictionary))
        == PageStep(Env(sampleType), PassState(old(defaults.entries), old(trace), old(synchronizer.unitsDictionary)), page)
    {
      ghost var env := Env(sampleType);
      ghost var r := PageStep(env, PassState(defaults.entries, trace, synchronizer.unitsDictionary), page);
      var limit := Limit(delegate);
      assert env.delegate == delegate;
      if page.queryError.Some? {
        c := Completed(false, page.queryError);
        ghost var ev0 := trace;
        if delegate.Some? {
          trace := trace + [DidFinishExecution(page.queryError)];
        }
        assert trace == ev0 + Finish(env, page.queryError);
        assert r.0 == c;
        assert r.1.events == trace;
        assert (c, PassState(defaults.entries, trace, synchronizer.unitsDictionary)) == r;
        return;
      }
      if page.objects.None? {
        // the log line force-unwraps the object list
        c := Crashed;
        return;
      }
      trace := trace + [Synchronize(page.objects, page.deleted)];
      ghost var sync := SyncOf(env, page);
      assert sync == SyncSpec(ObjectType(), synchronizer.converter, page.objects, page.deleted, page.replies);
      var error, _ := synchronizer.Synchronize(page.objects, page.deleted, page.replies);
      assert error == sync.error;
      assert synchronizer.unitsDictionary == if sync.assignsUnits then sync.units else old(synchronizer.unitsDictionary);
      assert env == Env(sampleType);
      assert r.1.units == synchronizer.unitsDictionary;
      ghost var ev1 := trace;
      assert ev1 == old(trace) + [Synchronize(page.objects, page.deleted)];
      if error.Some? {
        c := Completed(false, error);
        if delegate.Some? {
          trace := trace + [DidFinishExecution(error)];
        }
        assert trace == ev1 + Finish(env, error);
        assert r.0 == c;
        assert r.1.events == trace;
        assert r.1.entries == defaults.entries;
        assert (c, PassState(defaults.entries, trace, synchronizer.unitsDictionary)) == r;
        return;
      }
      SaveAnchor(page.anchor);
      SaveLastExecutionDate(page.now);
      assert defaults.entries == SavePage(old(defaults.entries), IdOf(env.t), page);
      assert r.1.entries == defaults.entries;
      var count := |OrEmpty(page.objects)| + |OrEmpty(page.deleted)|;
      assert Full(env, page) <==> !(count < limit);
      if count < limit {
        c := Completed(true, None);
        if delegate.Some? {
          trace := trace + [DidFinishExecution(None)];
        }
        assert trace == ev1 + Finish(env, None);
      } else {
        c := Pending;
        assert QueryFor(env, defaults.entries) == AnchoredQuery(sampleType, QueryPredicate(), StoredAnchor(), limit);
        trace := trace + [ExecuteAnchoredQuery(AnchoredQuery(sampleType, QueryPredicate(), StoredAnchor(), limit))];
      }
      assert r.0 == c;
      assert r.1.events == trace;
      assert (c, PassState(defaults.entries, trace, synchronizer.unitsDictionary)) == r;
    }

    /**
     * `execute(completion:)`: (false, noSpecifiedTypes) for a type that is not
     * a sample type, (false, operationCancelled) when the delegate declines,
     * otherwise an anchored pass.
     */
    method Execute(pages: seq<PageAnswer>) returns (c: Completion)
      modifies this`trace, defaults, synchronizer`unitsDictionary
      ensures var t := ObjectType().healthKitObjectType;
        if t.None? || !t.value.isSample then
          c == Completed(false, Some(NoSpecifiedTypes)) && trace == old(trace)
          && defaults.entries == old(defaults.entries) && synchronizer.unitsDictionary == old(synchronizer.unitsDictionary)
        else if delegate.Some? && !delegate.value.shouldExecute then
          c == Completed(false, Some(OperationCancelled)) && trace == old(trace)
          && defaults.entries == old(defaults.entries) && synchronizer.unitsDictionary == old(synchronizer.unitsDictionary)
        else
          var env := Env(t.value);
          var first := ExecuteAnchoredQuery(QueryFor(env, old(defaults.entries)));
          (c, PassState(defaults.entries, trace, synchronizer.unitsDictionary))
            == Pass(env, PassState(old(defaults.entries), old(trace) + [first], old(synchronizer.unitsDictionary)), pages)
    {
      var t := ObjectType().healthKitObjectType;
      if t.Some? && t.value.isSample {
        if delegate.Some? && !delegate.value.shouldExecute {
          return Completed(false, Some(OperationCancelled));
        }
        c := ExecuteAnchorQuery(t.value, pages);
      } else {
        c := Completed(false, Some(NoSpecifiedTypes));
      }
    }

    /** `handleObservedQuery(query:completion:)`, as written. */
    method HandleObservedQuery(e: HandlerEntry)
      modifies this`handlerCompletions, this`trace
      ensures var s := Handle(delegate, old(handlerCompletions), e);
        handlerCompletions == s.queue && trace == old(trace) + s.events
      decreases 2 * |handlerCompletions| + 3
    {
      handlerCompletions := handlerCompletions + [e];
      if |handlerCompletions| > 1 {
        return;
      }
      match ModeOf(delegate, e)
      case Dispatch =>
        trace := trace + [PassStarted(e.trigger)];
      case Declined =>
        CompleteObservedQuery();
      case NotSample =>
        trace := trace + [Acknowledge(e.trigger)];
        CompleteObservedQuery();
        assert trace == old(trace) + Handle(delegate, old(handlerCompletions), e).events;
    }

    /** `completeObservedQuery()`, as written. */
    method CompleteObservedQuery()
      modifies this`handlerCompletions, this`trace
      ensures var s := Complete(delegate, old(handlerCompletions));
        handlerCompletions == s.queue && trace == old(trace) + s.events
      decreases 2 * |handlerCompletions|
    {
      if |handlerCompletions| > 0 {
        var front := handlerCompletions[0];
        handlerCompletions := handlerCompletions[1..];
        trace := trace + [Acknowledge(front.trigger)];
      }
      if |handlerCompletions| > 0 {
        var next := handlerCompletions[0];
        handlerCompletions := handlerCompletions[1..];
        HandleObservedQuery(next);
      }
    }

    /**
     * The observer query's update handler: a notification with an error is
     * dropped without calling its completion handler; one from the current
     * observer query is handled.
     */
    method ObserverQueryUpdate(query: ObserverQuery, trigger: nat, error: Option<Error>)
      modifies this`handlerCompletions, this`trace
      ensures if error.None? && observerQuery == Some(query) then
          var s := Handle(delegate, old(handlerCompletions), HandlerEntry(query, trigger));
          handlerCompletions == s.queue && trace == old(trace) + s.events
        else handlerCompletions == old(handlerCompletions) && trace == old(trace)
    {
      if error.Some? {
        return;
      }
      if observerQuery == Some(query) {
        HandleObservedQuery(HandlerEntry(query, trigger));
      }
    }
  }
}
