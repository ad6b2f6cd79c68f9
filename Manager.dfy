/**
 * HDSManager: owns the list of observers, one per external object type,
 * hands its delegate and converter to each of them, starts and stops them
 * all, and builds the read-type list of a permission request from them.
 * A type gets no new observer when an observer already in the list has the
 * same authorization types and the same HealthKit type; the list is only
 * consulted as it was before the call, so two equal types in one call both
 * get an observer.
 */
module Coordinator {
  import opened Common
  import opened CursorStore
  import opened Reconciler
  import opened ObserverEvents
  import opened AnchoredPass
  import opened Observer
  import opened Permissions

  /** What `hasObserver(for:)` compares. */
  datatype TypeKey = TypeKey(authorizationTypes: Option<seq<ObjectType>>, healthKitObjectType: Option<ObjectType>)

  function KeyOf(t: ExternalObjectType): TypeKey
  {
    TypeKey(t.authorizationTypes, t.healthKitObjectType)
  }

  function KeysOf(ts: seq<ExternalObjectType>): (r: seq<TypeKey>)
    ensures |r| == |ts| && forall i :: 0 <= i < |ts| ==> r[i] == KeyOf(ts[i])
  {
    seq(|ts|, i requires 0 <= i < |ts| => KeyOf(ts[i]))
  }

  /** The external object types of some observers, in order. */
  function TypesOf(obs: seq<QueryObserver>): (r: seq<ExternalObjectType>)
    ensures |r| == |obs| && forall i :: 0 <= i < |obs| ==> r[i] == obs[i].ObjectType()
  {
    seq(|obs|, i requires 0 <= i < |obs| => obs[i].ObjectType())
  }

  function SynchronizerTypes(ss: seq<ObjectSynchronizer>): (r: seq<ExternalObjectType>)
    ensures |r| == |ss| && forall i :: 0 <= i < |ss| ==> r[i] == ss[i].externalObjectType
  {
    seq(|ss|, i requires 0 <= i < |ss| => ss[i].externalObjectType)
  }

  /** The positions in `keys` whose key is not among `existing`, in order. */
  function Kept(existing: seq<TypeKey>, keys: seq<TypeKey>): (r: seq<nat>)
    ensures forall k :: 0 <= k < |r| ==> r[k] < |keys|
  {
    if keys == [] then []
    else Kept(existing, keys[..|keys| - 1]) + (if keys[|keys| - 1] !in existing then [|keys| - 1] else [])
  }

  function Select(keys: seq<TypeKey>, idx: seq<nat>): (r: seq<TypeKey>)
    requires forall k :: 0 <= k < |idx| ==> idx[k] < |keys|
    ensures |r| == |idx| && forall k :: 0 <= k < |idx| ==> r[k] == keys[idx[k]]
  {
    seq(|idx|, k requires 0 <= k < |idx| => keys[idx[k]])
  }

  /**
   * The kept positions are increasing, and a position is kept exactly when
   * its key is not among the existing ones.
   */
  lemma {:induction false} KeptLaw(existing: seq<TypeKey>, keys: seq<TypeKey>)
    ensures forall k, m :: 0 <= k < m < |Kept(existing, keys)| ==> Kept(existing, keys)[k] < Kept(existing, keys)[m]
    ensures forall i :: 0 <= i < |keys| ==> (i in Kept(existing, keys) <==> keys[i] !in existing)
    decreases |keys|
  {
    if keys != [] {
      var init := keys[..|keys| - 1];
      KeptLaw(existing, init);
      assert forall i :: 0 <= i < |init| ==> init[i] == keys[i];
    }
  }

  /** Nothing is kept from an empty input, nor when every key already exists. */
  lemma {:induction false} KeptNone(existing: seq<TypeKey>, keys: seq<TypeKey>)
    ensures (forall i :: 0 <= i < |keys| ==> keys[i] in existing) <==> Kept(existing, keys) == []
    decreases |keys|
  {
    if keys != [] {
      var init := keys[..|keys| - 1];
      KeptNone(existing, init);
      assert forall i :: 0 <= i < |init| ==> init[i] == keys[i];
    }
  }

  /**
   * Adding the same types a second time adds nothing: each was either
   * already there or has just been added.
   */
  lemma AddTwiceAddsOnce(existing: seq<TypeKey>, keys: seq<TypeKey>)
    ensures Kept(existing + Select(keys, Kept(existing, keys)), keys) == []
  {
    KeptLaw(existing, keys);
    var added := Select(keys, Kept(existing, keys));
    forall i | 0 <= i < |keys|
      ensures keys[i] in existing + added
    {
      if keys[i] !in existing {
        var k :| 0 <= k < |Kept(existing, keys)| && Kept(existing, keys)[k] == i;
        assert added[k] == keys[i];
      }
    }
    KeptNone(existing + added, keys);
  }

  /** Two equal new types in one call are both kept. */
  lemma DuplicatesInOneCall(existing: seq<TypeKey>, k: TypeKey)
    requires k !in existing
    ensures Kept(existing, [k, k]) == [0, 1]
  {
    assert Kept(existing, []) == [];
    assert Kept(existing, [k]) == [0];
    assert [k, k][..1] == [k];
    assert [k][..0] == [];
  }

  /** The read types of a permission request: each type's list, in order, duplicates kept. */
  function FlattenTypes(ts: seq<ExternalObjectType>): seq<ObjectType>
  {
    if ts == [] then [] else FlattenTypes(ts[..|ts| - 1]) + OrEmpty(ts[|ts| - 1].authorizationTypes)
  }

  /**
   * The list is the concatenation of the parts, and a type is in it exactly
   * when some observer's type lists it.
   */
  lemma {:induction false} FlattenLaw(a: seq<ExternalObjectType>, b: seq<ExternalObjectType>)
    ensures FlattenTypes(a + b) == FlattenTypes(a) + FlattenTypes(b)
    ensures forall x :: x in FlattenTypes(a) <==>
      exists i :: 0 <= i < |a| && a[i].authorizationTypes.Some? && x in a[i].authorizationTypes.value
    decreases |b|
  {
    if b == [] {
      assert a + b == a;
    } else {
      var b' := b[..|b| - 1];
      FlattenLaw(a, b');
      assert (a + b)[..|a + b| - 1] == a + b';
      assert (a + b)[|a + b| - 1] == b[|b| - 1];
    }
    FlattenMembers(a);
  }

  lemma {:induction false} FlattenMembers(a: seq<ExternalObjectType>)
    ensures forall x :: x in FlattenTypes(a) <==>
      exists i :: 0 <= i < |a| && a[i].authorizationTypes.Some? && x in a[i].authorizationTypes.value
    decreases |a|
  {
    if a != [] {
      var init := a[..|a| - 1];
      FlattenMembers(init);
      forall x | x in FlattenTypes(a)
        ensures exists i :: 0 <= i < |a| && a[i].authorizationTypes.Some? && x in a[i].authorizationTypes.value
      {
        if x in FlattenTypes(init) {
          var i :| 0 <= i < |init| && init[i].authorizationTypes.Some? && x in init[i].authorizationTypes.value;
          assert a[i] == init[i];
        }
      }
      forall x, i | 0 <= i < |a| && a[i].authorizationTypes.Some? && x in a[i].authorizationTypes.value
        ensures x in FlattenTypes(a)
      {
        if i < |init| {
          assert init[i] == a[i];
        }
      }
    }
  }

  /**
   * `stopObserving()`: each observer's `stop()` in list order, the user
   * defaults they share threaded through.
   */
  function StopAll(store: HealthStore, ts: seq<ExternalObjectType>, ss: seq<Lifecycle>, e: Entries): (r: (seq<Lifecycle>, Entries))
    requires |ts| == |ss|
    ensures |r.0| == |ts|
  {
    if ts == [] then ([], e)
    else
      var n := |ts| - 1;
      var (ls, e1) := StopAll(store, ts[..n], ss[..n], e);
      var (l, e2) := StopStep(store, ts[n], ss[n], e1);
      (ls + [l], e2)
  }

  lemma StopAllSnoc(store: HealthStore, ts: seq<ExternalObjectType>, ss: seq<Lifecycle>, e: Entries, i: nat)
    requires |ts| == |ss| && i < |ts|
    ensures var (ls, e1) := StopAll(store, ts[..i], ss[..i], e);
      var (l, e2) := StopStep(store, ts[i], ss[i], e1);
      StopAll(store, ts[..i + 1], ss[..i + 1], e) == (ls + [l], e2)
  {
    assert ts[..i + 1][..i] == ts[..i] && ss[..i + 1][..i] == ss[..i];
  }

  /** Whether `stop()` stops an observer of type `t` in lifecycle `s`: it does not depend on the entries. */
  predicate Stops(store: HealthStore, t: ExternalObjectType, s: Lifecycle)
  {
    store.available && s.isObserving && t.authorizationTypes.Some? && t.healthKitObjectType.Some? &&
    (s.query.Some? || t.healthKitObjectType.value.isSample)
  }

  /** The cursor keys of the observers that `stopObserving()` stops. */
  function StoppedKeys(store: HealthStore, ts: seq<ExternalObjectType>, ss: seq<Lifecycle>): set<string>
    requires |ts| == |ss|
  {
    if ts == [] then {}
    else
      var n := |ts| - 1;
      StoppedKeys(store, ts[..n], ss[..n]) +
      (if Stops(store, ts[n], ss[n]) then CursorKeys(ts[n].healthKitObjectType.value.identifier) else {})
  }

  /** One `stop()`: whether it stops the observer, and the cursor keys it removes. */
  lemma StopStepEffect(store: HealthStore, t: ExternalObjectType, s: Lifecycle, e: Entries)
    ensures var (s', e') := StopStep(store, t, s, e);
      && (s'.isObserving <==> s.isObserving && !Stops(store, t, s))
      && e' == e - (if Stops(store, t, s) then CursorKeys(t.healthKitObjectType.value.identifier) else {})
  {
    StopLaw(store, t, s, e);
  }

  /**
   * After `stopObserving()` an observer is still observing exactly when it
   * was observing and could not be stopped, and the shared defaults have
   * lost exactly the cursor keys of the observers that were stopped.
   */
  lemma StopAllLaw(store: HealthStore, ts: seq<ExternalObjectType>, ss: seq<Lifecycle>, e: Entries)
    requires |ts| == |ss|
    ensures var (ls, e') := StopAll(store, ts, ss, e);
      && |ls| == |ss|
      && (forall i :: 0 <= i < |ls| ==> (ls[i].isObserving <==> ss[i].isObserving && !Stops(store, ts[i], ss[i])))
      && e' == e - StoppedKeys(store, ts, ss)
  {
    StopAllObserving(store, ts, ss, e);
    StopAllEntries(store, ts, ss, e);
  }

  lemma {:induction false} StopAllObserving(store: HealthStore, ts: seq<ExternalObjectType>, ss: seq<Lifecycle>, e: Entries)
    requires |ts| == |ss|
    ensures var ls := StopAll(store, ts, ss, e).0;
      forall i :: 0 <= i < |ls| ==> (ls[i].isObserving <==> ss[i].isObserving && !Stops(store, ts[i], ss[i]))
    decreases |ts|
  {
    if ts != [] {
      var n := |ts| - 1;
      StopAllObserving(store, ts[..n], ss[..n], e);
      var (ls, e1) := StopAll(store, ts[..n], ss[..n], e);
      StopStepEffect(store, ts[n], ss[n], e1);
      assert forall i :: 0 <= i < n ==> ts[..n][i] == ts[i] && ss[..n][i] == ss[i];
    }
  }

  lemma {:induction false} StopAllEntries(store: HealthStore, ts: seq<ExternalObjectType>, ss: seq<Lifecycle>, e: Entries)
    requires |ts| == |ss|
    ensures StopAll(store, ts, ss, e).1 == e - StoppedKeys(store, ts, ss)
    decreases |ts|
  {
    if ts != [] {
      var n := |ts| - 1;
      StopAllEntries(store, ts[..n], ss[..n], e);
      var (ls, e1) := StopAll(store, ts[..n], ss[..n], e);
      StopStepEffect(store, ts[n], ss[n], e1);
    }
  }

  /** No observer is listed twice. */
  predicate Distinct(obs: seq<QueryObserver>)
  {
    forall i, j :: 0 <= i < j < |obs| ==> obs[i] != obs[j]
  }

  lemma DistinctAppend(a: seq<QueryObserver>, b: seq<QueryObserver>)
    requires Distinct(a) && Distinct(b)
    requires forall x :: x in b ==> x !in a
    ensures Distinct(a + b)
  {
    var c := a + b;
    forall i, j | 0 <= i < j < |c| ensures c[i] != c[j] {
      if j < |a| {
        assert c[i] == a[i] && c[j] == a[j];
      } else if i < |a| {
        assert c[i] == a[i] && c[j] == b[j - |a|] && b[j - |a|] in b;
      } else {
        assert c[i] == b[i - |a|] && c[j] == b[j - |a|];
      }
    }
  }

  class Manager {
    var observerDelegate: Option<Delegate>
    var converter: Option<Converter>
    var allObservers: seq<QueryObserver>
    const store: HealthStore
    const defaults: UserDefaults
    const permissions: PermissionsManager

    /** The observers are distinct and share the manager's store and user defaults. */
    ghost predicate Valid()
      reads this
    {
      && Distinct(allObservers)
      && (forall i :: 0 <= i < |allObservers| ==> allObservers[i].store == store && allObservers[i].defaults == defaults)
    }

    constructor (store: HealthStore, defaults: UserDefaults, permissions: PermissionsManager)
      ensures Valid()
      ensures this.store == store && this.defaults == defaults && this.permissions == permissions
      ensures observerDelegate == None && converter == None && allObservers == []
    {
      this.store := store;
      this.defaults := defaults;
      this.permissions := permissions;
      observerDelegate := None;
      converter := None;
      allObservers := [];
    }

    function Keys(): (r: seq<TypeKey>)
      reads this
      ensures |r| == |allObservers|
      ensures forall i :: 0 <= i < |allObservers| ==> r[i] == KeyOf(allObservers[i].ObjectType())
    {
      KeysOf(TypesOf(allObservers))
    }

    /** `hasObserver(for:)`: some observer in the list has the same key. */
    function HasObserver(t: ExternalObjectType): (r: bool)
      reads this
      ensures r <==> exists i :: 0 <= i < |allObservers| && KeyOf(allObservers[i].ObjectType()) == KeyOf(t)
    {
      KeyOf(t) in Keys()
    }

    /** Setting `observerDelegate`: every observer gets it. */
    method SetObserverDelegate(d: Option<Delegate>)
      modifies this`observerDelegate, allObservers
      ensures observerDelegate == d
      ensures forall i :: 0 <= i < |allObservers| ==> allObservers[i].delegate == d
      ensures forall i :: 0 <= i < |allObservers| ==>
        allObservers[i].State() == old(allObservers[i].State())
        && allObservers[i].handlerCompletions == old(allObservers[i].handlerCompletions)
    {
      observerDelegate := d;
      var i := 0;
      while i < |allObservers|
        invariant 0 <= i <= |allObservers|
        invariant observerDelegate == d
        invariant forall j :: 0 <= j < i ==> allObservers[j].delegate == d
        invariant forall j :: 0 <= j < |allObservers| ==>
          allObservers[j].State() == old(allObservers[j].State())
          && allObservers[j].handlerCompletions == old(allObservers[j].handlerCompletions)
      {
        allObservers[i].delegate := d;
        i := i + 1;
      }
    }

    /** Setting `converter`: every observer's synchronizer gets it. */
    method SetConverter(c: Option<Converter>)
      modifies this`converter, set o | o in allObservers :: o.synchronizer
      ensures converter == c
      ensures forall i :: 0 <= i < |allObservers| ==> allObservers[i].synchronizer.converter == c
      ensures forall i :: 0 <= i < |allObservers| ==>
        allObservers[i].synchronizer.unitsDictionary == old(allObservers[i].synchronizer.unitsDictionary)
    {
      converter := c;
      var i := 0;
      while i < |allObservers|
        invariant 0 <= i <= |allObservers|
        invariant converter == c
        invariant forall j :: 0 <= j < i ==> allObservers[j].synchronizer.converter == c
        invariant forall j :: 0 <= j < |allObservers| ==>
          allObservers[j].synchronizer.unitsDictionary == old(allObservers[j].synchronizer.unitsDictionary)
      {
        allObservers[i].SetConverter(c);
        i := i + 1;
      }
    }

    /** A just-built observer of `s`, given the manager's store, defaults and delegate. */
    ghost predicate Initial(o: QueryObserver, s: ObjectSynchronizer, d: Option<Delegate>)
      reads o
    {
      && o.synchronizer == s && o.store == store && o.defaults == defaults && o.delegate == d
      && !o.isObserving && o.observerQuery == None && o.handlerCompletions == [] && o.trace == []
    }

    /** `added[k]` is a just-built observer of `syncs[kept[k]]`, for every `k`. */
    ghost predicate BuiltFor(added: seq<QueryObserver>, syncs: seq<ObjectSynchronizer>, kept: seq<nat>, d: Option<Delegate>)
      reads set o | o in added
    {
      |added| == |kept| && forall k :: 0 <= k < |added| ==> kept[k] < |syncs| && Initial(added[k], syncs[kept[k]], d)
    }

    /**
     * `added[k]` is a just-built observer of a just-built synchronizer of
     * `types[kept[k]]`, with no converter and no preferred units, for every `k`.
     */
    ghost predicate BuiltOf(added: seq<QueryObserver>, types: seq<ExternalObjectType>, kept: seq<nat>, d: Option<Delegate>)
      reads set o | o in added, set o | o in added :: o.synchronizer
    {
      |added| == |kept| && forall k :: 0 <= k < |added| ==>
        && kept[k] < |types| && Initial(added[k], added[k].synchronizer, d)
        && added[k].ObjectType() == types[kept[k]]
        && added[k].synchronizer.converter == None && added[k].synchronizer.unitsDictionary == None
    }

    /** A new observer of `s` on the manager's store and defaults, with its delegate. */
    method NewObserver(s: ObjectSynchronizer) returns (o: QueryObserver)
      ensures fresh(o) && Initial(o, s, observerDelegate)
    {
      o := new QueryObserver(store, defaults, s);
      o.delegate := observerDelegate;
    }

    /** A new synchronizer of `t` and a new observer of it, as `NewObserver` builds it. */
    method NewObserverOf(t: ExternalObjectType) returns (o: QueryObserver)
      ensures fresh(o) && fresh(o.synchronizer) && Initial(o, o.synchronizer, observerDelegate)
      ensures o.ObjectType() == t && o.synchronizer.converter == None && o.synchronizer.unitsDictionary == None
    {
      var s := new ObjectSynchronizer(t);
      o := NewObserver(s);
    }

    /**
     * The observers `addSynchronizers(_:)` builds: one for each synchronizer
     * whose type has none in the list, in order.
     */
    method ObserversFor(syncs: seq<ObjectSynchronizer>) returns (added: seq<QueryObserver>)
      ensures BuiltFor(added, syncs, Kept(Keys(), KeysOf(SynchronizerTypes(syncs))), observerDelegate)
      ensures Distinct(added) && forall o :: o in added ==> fresh(o)
    {
      ghost var existing := Keys();
      ghost var keys := KeysOf(SynchronizerTypes(syncs));
      ghost var kept: seq<nat> := [];
      added := [];
      var i := 0;
      while i < |syncs|
        invariant 0 <= i <= |syncs|
        invariant kept == Kept(existing, keys[..i])
        invariant BuiltFor(added, syncs, kept, observerDelegate)
        invariant Distinct(added) && forall o :: o in added ==> fresh(o)
      {
        assert keys[..i + 1][..i] == keys[..i];
        if !HasObserver(syncs[i].externalObjectType) {
          var o := NewObserver(syncs[i]);
          added := added + [o];
          kept := kept + [i];
        }
        i := i + 1;
      }
      assert keys[..i] == keys;
    }

    /** `addSynchronizers(_:)`: the new observers are appended in order. */
    method AddSynchronizers(syncs: seq<ObjectSynchronizer>)
      requires Valid()
      modifies this`allObservers
      ensures Valid()
      ensures |old(allObservers)| <= |allObservers| && allObservers[..|old(allObservers)|] == old(allObservers)
      ensures var added := allObservers[|old(allObservers)|..];
        && BuiltFor(added, syncs, Kept(old(Keys()), KeysOf(SynchronizerTypes(syncs))), observerDelegate)
        && forall o :: o in added ==> fresh(o)
    {
      var added := ObserversFor(syncs);
      DistinctAppend(allObservers, added);
      allObservers := allObservers + added;
      assert allObservers[|old(allObservers)|..] == added;
      assert allObservers[..|old(allObservers)|] == old(allObservers);
    }

    /**
     * The observers `addObjectTypes(_:externalStore:)` builds: a new
     * synchronizer and observer for each type that has none in the list, in order.
     */
    method ObserversOf(types: seq<ExternalObjectType>) returns (added: seq<QueryObserver>)
      ensures BuiltOf(added, types, Kept(Keys(), KeysOf(types)), observerDelegate)
      ensures Distinct(added) && forall o :: o in added ==> fresh(o) && fresh(o.synchronizer)
    {
      ghost var existing := Keys();
      ghost var keys := KeysOf(types);
      ghost var kept: seq<nat> := [];
      added := [];
      var i := 0;
      while i < |types|
        invariant 0 <= i <= |types|
        invariant kept == Kept(existing, keys[..i])
        invariant BuiltOf(added, types, kept, observerDelegate)
        invariant Distinct(added) && forall o :: o in added ==> fresh(o) && fresh(o.synchronizer)
      {
        assert keys[..i + 1][..i] == keys[..i];
        if !HasObserver(types[i]) {
          var o := NewObserverOf(types[i]);
          added := added + [o];
          kept := kept + [i];
        }
        i := i + 1;
      }
      assert keys[..i] == keys;
    }

    /** `addObjectTypes(_:externalStore:)`: the new observers are appended in order. */
    method AddObjectTypes(types: seq<ExternalObjectType>)
      requires Valid()
      modifies this`allObservers
      ensures Valid()
      ensures |old(allObservers)| <= |allObservers| && allObservers[..|old(allObservers)|] == old(allObservers)
      ensures var added := allObservers[|old(allObservers)|..];
        && BuiltOf(added, types, Kept(old(Keys()), KeysOf(types)), observerDelegate)
        && forall o :: o in added ==> fresh(o) && fresh(o.synchronizer)
    {
      var added := ObserversOf(types);
      DistinctAppend(allObservers, added);
      allObservers := allObservers + added;
      assert allObservers[|old(allObservers)|..] == added;
      assert allObservers[..|old(allObservers)|] == old(allObservers);
    }

    /** `startObserving()`: `start()` on every observer. */
    method StartObserving()
      requires Valid()
      modifies allObservers
      ensures forall i :: 0 <= i < |allObservers| ==>
        var o := allObservers[i];
        o.State() == StartStep(store, o.ObjectType(), defaults.entries, old(o.State()))
        && o.handlerCompletions == old(o.handlerCompletions) && o.delegate == old(o.delegate)
    {
      var i := 0;
      while i < |allObservers|
        invariant 0 <= i <= |allObservers|
        invariant forall j :: 0 <= j < i ==>
          var o := allObservers[j];
          o.State() == StartStep(store, o.ObjectType(), defaults.entries, old(o.State()))
        invariant forall j :: i <= j < |allObservers| ==> allObservers[j].State() == old(allObservers[j].State())
        invariant forall j :: 0 <= j < |allObservers| ==>
          allObservers[j].handlerCompletions == old(allObservers[j].handlerCompletions)
          && allObservers[j].delegate == old(allObservers[j].delegate)
      {
        allObservers[i].Start();
        i := i + 1;
      }
    }

    function States(obs: seq<QueryObserver>): (r: seq<Lifecycle>)
      reads set o | o in obs
      ensures |r| == |obs| && forall i :: 0 <= i < |obs| ==> r[i] == obs[i].State()
    {
      seq(|obs|, i requires 0 <= i < |obs| reads obs => obs[i].State())
    }

    /** `stopObserving()`: `stop()` on every observer, in list order. */
    method StopObserving()
      requires Valid()
      modifies allObservers`isObserving, allObservers`observerQuery, allObservers`trace, defaults
      ensures (States(allObservers), defaults.entries)
        == StopAll(store, TypesOf(allObservers), old(States(allObservers)), old(defaults.entries))
      ensures unchanged(allObservers`handlerCompletions, allObservers`delegate)
    {
      ghost var ts := TypesOf(allObservers);
      ghost var before := States(allObservers);
      ghost var ls: seq<Lifecycle> := [];
      var i := 0;
      while i < |allObservers|
        invariant 0 <= i <= |allObservers|
        invariant (ls, defaults.entries) == StopAll(store, ts[..i], before[..i], old(defaults.entries))
        invariant |ls| == i
        invariant forall j :: 0 <= j < i ==> allObservers[j].State() == ls[j]
        invariant forall j :: i <= j < |allObservers| ==> allObservers[j].State() == before[j]
      {
        ghost var e1 := defaults.entries;
        StopAllSnoc(store, ts, before, old(defaults.entries), i);
        assert forall j :: 0 <= j < |allObservers| && j != i ==> allObservers[j] != allObservers[i];
        allObservers[i].Stop();
        ls := ls + [allObservers[i].State()];
        i := i + 1;
      }
      assert ts[..i] == ts && before[..i] == before;
      assert States(allObservers) == ls;
    }

    /** `authorizationTypes(from:)`: each observer's authorization types, in order. */
    method AuthorizationTypes(observers: seq<QueryObserver>) returns (types: seq<ObjectType>)
      ensures types == FlattenTypes(TypesOf(observers))
    {
      types := [];
      var i := 0;
      while i < |observers|
        invariant 0 <= i <= |observers|
        invariant types == FlattenTypes(TypesOf(observers[..i]))
      {
        assert TypesOf(observers[..i + 1])[..i] == TypesOf(observers[..i]);
        var ats := observers[i].ObjectType().authorizationTypes;
        if ats.Some? {
          var j := 0;
          while j < |ats.value|
            invariant 0 <= j <= |ats.value|
            invariant types == FlattenTypes(TypesOf(observers[..i])) + ats.value[..j]
          {
            types := types + [ats.value[j]];
            assert ats.value[..j + 1] == ats.value[..j] + [ats.value[j]];
            j := j + 1;
          }
          assert ats.value[..j] == ats.value;
        }
        i := i + 1;
      }
      assert observers[..i] == observers;
    }

    /** `requestPermissions(with:_:)`: the observers' read types, then the permission request. */
    method RequestPermissions(observers: seq<QueryObserver>)
      returns (success: bool, error: Option<Error>, request: Option<AuthorizationRequest>)
      modifies permissions`readTypes
      ensures permissions.readTypes == FlattenTypes(TypesOf(observers))
      ensures AuthorizationOutcome(success, error, request)
        == Authorize(permissions.store, permissions.readTypes, permissions.shareTypes)
    {
      var types := AuthorizationTypes(observers);
      permissions.readTypes := types;
      success, error, request := permissions.AuthorizeHealthKit();
    }

    /** `requestPermissionsForAllObservers(completion:)`. */
    method RequestPermissionsForAllObservers()
      returns (success: bool, error: Option<Error>, request: Option<AuthorizationRequest>)
      modifies permissions`readTypes
      ensures permissions.readTypes == FlattenTypes(TypesOf(allObservers))
      ensures AuthorizationOutcome(success, error, request)
        == Authorize(permissions.store, permissions.readTypes, permissions.shareTypes)
    {
      success, error, request := RequestPermissions(allObservers);
    }
  }
}
