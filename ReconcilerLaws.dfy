/**
 * What a synchronize pass promises: the partition law, the fixed order of
 * the stages and the points where an error stops the pass.
 */
module ReconcilerLaws {
  import opened Common
  import opened Reconciler

  function Ids(rs: seq<ExternalRecord>): set<UUID>
  {
    set r | r in rs :: r.uuid
  }

  /** The external store holds at most one record per uuid. */
  predicate DistinctIds(rs: seq<ExternalRecord>)
  {
    forall i, j :: 0 <= i < j < |rs| ==> rs[i].uuid != rs[j].uuid
  }

  /** How many of `objects` have a uuid in `ids`. */
  function CountIn(objects: seq<HealthObject>, ids: set<UUID>): nat
  {
    if objects == [] then 0
    else CountIn(objects[..|objects| - 1], ids) + (if objects[|objects| - 1].uuid in ids then 1 else 0)
  }

  /** How many events satisfy `p`. */
  function Count(ev: seq<SyncEvent>, p: SyncEvent -> bool): nat
  {
    if ev == [] then 0 else (if p(ev[0]) then 1 else 0) + Count(ev[1..], p)
  }

  lemma {:induction false} CountAppend(a: seq<SyncEvent>, b: seq<SyncEvent>, p: SyncEvent -> bool)
    ensures Count(a + b, p) == Count(a, p) + Count(b, p)
  {
    if a == [] {
      assert a + b == b;
    } else {
      assert (a + b)[0] == a[0] && (a + b)[1..] == a[1..] + b;
      CountAppend(a[1..], b, p);
    }
  }

  /** Counting in a list of at most two events. */
  lemma CountShort(ev: seq<SyncEvent>, p: SyncEvent -> bool)
    requires |ev| <= 2
    ensures Count(ev, p) == (if |ev| > 0 && p(ev[0]) then 1 else 0) + (if |ev| > 1 && p(ev[1]) then 1 else 0)
  {
    if |ev| == 1 {
      assert ev[1..] == [];
    } else if |ev| == 2 {
      assert ev[1..][0] == ev[1] && ev[1..][1..] == [];
    }
  }

  lemma {:induction false} CountZero(ev: seq<SyncEvent>, p: SyncEvent -> bool)
    ensures Count(ev, p) == 0 <==> forall i :: 0 <= i < |ev| ==> !p(ev[i])
  {
    if ev != [] {
      CountZero(ev[1..], p);
      assert forall i :: 1 <= i < |ev| ==> ev[i] == ev[1..][i - 1];
    }
  }

  predicate IsFetch(e: SyncEvent) { e.Fetch? }
  predicate IsDelete(e: SyncEvent) { e.Delete? }
  predicate IsAdd(e: SyncEvent) { e.Add? }
  predicate IsUpdate(e: SyncEvent) { e.Update? }
  /** A call that belongs to the upsert stage. */
  predicate IsUpsertCall(e: SyncEvent) { e.PreferredUnits? || e.Add? || e.Update? }

  // ---------------------------------------------------------------------
  // Partition law

  /**
   * The matches of `o` are the fetched records of its uuid, merged with it:
   * there are some exactly when its uuid was fetched, and exactly one when
   * the store holds one record per uuid.
   */
  lemma MatchesLaw(t: ExternalObjectType, existing: seq<ExternalRecord>, o: HealthObject)
    ensures |Matches(t, existing, o)| > 0 <==> o.uuid in Ids(existing)
    ensures forall x :: x in Matches(t, existing, o) ==>
      exists e :: e in existing && e.uuid == o.uuid && x == t.merge(e, o)
    ensures forall e :: e in existing && e.uuid == o.uuid ==> t.merge(e, o) in Matches(t, existing, o)
    ensures DistinctIds(existing) ==> |Matches(t, existing, o)| == if o.uuid in Ids(existing) then 1 else 0
  {
    MatchesFound(t, existing, o);
    MatchesSound(t, existing, o);
    MatchesComplete(t, existing, o);
    if DistinctIds(existing) {
      MatchesUnique(t, existing, o);
    }
  }

  lemma SplitLast(existing: seq<ExternalRecord>)
    requires existing != []
    ensures var init, last := existing[..|existing| - 1], existing[|existing| - 1];
      && existing == init + [last]
      && Ids(existing) == Ids(init) + {last.uuid}
      && (forall e :: e in existing <==> e in init || e == last)
  {
    var init, last := existing[..|existing| - 1], existing[|existing| - 1];
    assert existing == init + [last];
  }

  lemma {:induction false} MatchesFound(t: ExternalObjectType, existing: seq<ExternalRecord>, o: HealthObject)
    ensures |Matches(t, existing, o)| > 0 <==> o.uuid in Ids(existing)
  {
    if existing != [] {
      SplitLast(existing);
      MatchesFound(t, existing[..|existing| - 1], o);
    }
  }

  lemma {:induction false} MatchesSound(t: ExternalObjectType, existing: seq<ExternalRecord>, o: HealthObject)
    ensures forall x :: x in Matches(t, existing, o) ==>
      exists e :: e in existing && e.uuid == o.uuid && x == t.merge(e, o)
  {
    if existing != [] {
      SplitLast(existing);
      MatchesSound(t, existing[..|existing| - 1], o);
    }
  }

  lemma {:induction false} MatchesComplete(t: ExternalObjectType, existing: seq<ExternalRecord>, o: HealthObject)
    ensures forall e :: e in existing && e.uuid == o.uuid ==> t.merge(e, o) in Matches(t, existing, o)
  {
    if existing != [] {
      SplitLast(existing);
      MatchesComplete(t, existing[..|existing| - 1], o);
    }
  }

  lemma {:induction false} MatchesUnique(t: ExternalObjectType, existing: seq<ExternalRecord>, o: HealthObject)
    requires DistinctIds(existing)
    ensures |Matches(t, existing, o)| == if o.uuid in Ids(existing) then 1 else 0
  {
    if existing != [] {
      var init, last := existing[..|existing| - 1], existing[|existing| - 1];
      SplitLast(existing);
      assert DistinctIds(init);
      MatchesUnique(t, init, o);
      if last.uuid == o.uuid {
        assert o.uuid !in Ids(init) by {
          forall e | e in init ensures e.uuid != last.uuid {
            var k :| 0 <= k < |init| && init[k] == e;
            assert existing[k] == e;
          }
        }
      }
    }
  }

  /**
   * Partition law, membership: a record is in the update set exactly when it is
   * a fetched record merged with an incoming object of the same uuid, and in the
   * add set only when it converts an object that no fetched record matches;
   * every such conversion is there.
   */
  lemma PartitionMembership(t: ExternalObjectType, c: Option<Converter>,
                            objects: seq<HealthObject>, existing: seq<ExternalRecord>)
    ensures var p := PartitionOf(t, c, objects, existing);
      && (forall x :: x in p.update ==>
            exists o, e :: o in objects && e in existing && e.uuid == o.uuid && x == t.merge(e, o))
      && (forall o, e :: o in objects && e in existing && e.uuid == o.uuid ==> t.merge(e, o) in p.update)
      && (forall x :: x in p.add ==>
            exists o :: o in objects && o.uuid !in Ids(existing) && t.fromObject(o, c) == Some(x))
      && (forall o :: o in objects && o.uuid !in Ids(existing) && t.fromObject(o, c).Some? ==>
            t.fromObject(o, c).value in p.add)
  {
    UpdatesSound(t, c, objects, existing);
    UpdatesComplete(t, c, objects, existing);
    AddsSound(t, c, objects, existing);
    AddsComplete(t, c, objects, existing);
  }

  lemma SplitLastObject(objects: seq<HealthObject>)
    requires objects != []
    ensures var init, o := objects[..|objects| - 1], objects[|objects| - 1];
      && objects == init + [o]
      && (forall x :: x in objects <==> x in init || x == o)
  {
    var init, o := objects[..|objects| - 1], objects[|objects| - 1];
    assert objects == init + [o];
  }

  lemma {:induction false} UpdatesSound(t: ExternalObjectType, c: Option<Converter>,
                                      objects: seq<HealthObject>, existing: seq<ExternalRecord>)
    ensures forall x :: x in PartitionOf(t, c, objects, existing).update ==>
      exists o, e :: o in objects && e in existing && e.uuid == o.uuid && x == t.merge(e, o)
  {
    if objects != [] {
      SplitLastObject(objects);
      UpdatesSound(t, c, objects[..|objects| - 1], existing);
      MatchesSound(t, existing, objects[|objects| - 1]);
    }
  }

  lemma {:induction false} UpdatesComplete(t: ExternalObjectType, c: Option<Converter>,
                                         objects: seq<HealthObject>, existing: seq<ExternalRecord>)
    ensures forall o, e :: o in objects && e in existing && e.uuid == o.uuid ==>
      t.merge(e, o) in PartitionOf(t, c, objects, existing).update
  {
    if objects != [] {
      SplitLastObject(objects);
      UpdatesComplete(t, c, objects[..|objects| - 1], existing);
      MatchesComplete(t, existing, objects[|objects| - 1]);
    }
  }

  lemma {:induction false} AddsSound(t: ExternalObjectType, c: Option<Converter>,
                                   objects: seq<HealthObject>, existing: seq<ExternalRecord>)
    ensures forall x :: x in PartitionOf(t, c, objects, existing).add ==>
      exists o :: o in objects && o.uuid !in Ids(existing) && t.fromObject(o, c) == Some(x)
  {
    if objects != [] {
      SplitLastObject(objects);
      AddsSound(t, c, objects[..|objects| - 1], existing);
      MatchesFound(t, existing, objects[|objects| - 1]);
    }
  }

  lemma {:induction false} AddsComplete(t: ExternalObjectType, c: Option<Converter>,
                                      objects: seq<HealthObject>, existing: seq<ExternalRecord>)
    ensures forall o :: o in objects && o.uuid !in Ids(existing) && t.fromObject(o, c).Some? ==>
      t.fromObject(o, c).value in PartitionOf(t, c, objects, existing).add
  {
    if objects != [] {
      SplitLastObject(objects);
      AddsComplete(t, c, objects[..|objects| - 1], existing);
      MatchesFound(t, existing, objects[|objects| - 1]);
    }
  }

  /**
   * Partition law, counts: against a store with one record per uuid, as many
   * updates as objects with a fetched uuid; when every object converts, the
   * rest are adds.
   */
  lemma {:induction false} PartitionCounts(t: ExternalObjectType, c: Option<Converter>,
                                         objects: seq<HealthObject>, existing: seq<ExternalRecord>)
    requires DistinctIds(existing)
    ensures |PartitionOf(t, c, objects, existing).update| == CountIn(objects, Ids(existing))
    ensures (forall i :: 0 <= i < |objects| ==> t.fromObject(objects[i], c).Some?) ==>
      |PartitionOf(t, c, objects, existing).add| == |objects| - CountIn(objects, Ids(existing))
  {
    if objects != [] {
      var init, o := objects[..|objects| - 1], objects[|objects| - 1];
      PartitionCounts(t, c, init, existing);
      MatchesUnique(t, existing, o);
      assert CountIn(init, Ids(existing)) <= |init| by { CountInBound(init, Ids(existing)); }
      assert forall i :: 0 <= i < |init| ==> init[i] == objects[i];
    }
  }

  lemma {:induction false} CountInBound(objects: seq<HealthObject>, ids: set<UUID>)
    ensures CountIn(objects, ids) <= |objects|
  {
    if objects != [] {
      CountInBound(objects[..|objects| - 1], ids);
    }
  }

  /** With uuid-keeping conversions, add and update sets are split by the fetched uuids. */
  lemma PartitionSeparatesIds(t: ExternalObjectType, c: Option<Converter>,
                              objects: seq<HealthObject>, existing: seq<ExternalRecord>)
    requires KeepsUuids(t)
    ensures forall x :: x in PartitionOf(t, c, objects, existing).update ==> x.uuid in Ids(existing)
    ensures forall x :: x in PartitionOf(t, c, objects, existing).add ==> x.uuid !in Ids(existing)
  {
    PartitionMembership(t, c, objects, existing);
  }

  /** Objects whose uuid equals their position. */
  function Numbered(n: nat): seq<HealthObject>
  {
    seq(n, (i: int) requires 0 <= i => HealthObject(i, 0))
  }

  function NumberedRecords(n: nat): seq<ExternalRecord>
  {
    seq(n, (i: int) requires 0 <= i => ExternalRecord(i, 0))
  }

  lemma {:induction false} CountNumbered(k: nat, m: nat)
    ensures CountIn(Numbered(k), Ids(NumberedRecords(m))) == if k <= m then k else m
  {
    if k > 0 {
      assert Numbered(k)[..k - 1] == Numbered(k - 1);
      CountNumbered(k - 1, m);
      var last := Numbered(k)[k - 1];
      assert last.uuid == k - 1;
      if k - 1 < m {
        assert NumberedRecords(m)[k - 1].uuid == k - 1;
      } else {
        assert k - 1 !in Ids(NumberedRecords(m));
      }
    }
  }

  /** The partition of `n` numbered objects against `m <= n` numbered records. */
  lemma NumberedPartition(t: ExternalObjectType, c: Option<Converter>, n: nat, m: nat)
    requires m <= n
    requires forall o: HealthObject :: t.fromObject(o, c).Some?
    ensures var p := PartitionOf(t, c, Numbered(n), NumberedRecords(m));
      |UpsertRequest(t, c, Numbered(n))| == n && |p.add| == n - m && |p.update| == m
  {
    var existing := NumberedRecords(m);
    assert DistinctIds(existing);
    PartitionCounts(t, c, Numbered(n), existing);
    CountNumbered(n, m);
  }

  /**
   * `n` objects, `m` of which the store already holds (uuids 0..m-1, with
   * 0 < m < n): one fetch carrying all `n`, one add of `n - m`, one update
   * of `m`, and the update's result.
   */
  lemma SomeObjectsExisting(t: ExternalObjectType, c: Option<Converter>, r: Replies, n: nat, m: nat)
    requires 0 < m < n
    requires forall o: HealthObject :: t.fromObject(o, c).Some?
    requires r.upsertFetch == FetchReply(Some(NumberedRecords(m)), None)
    requires r.addResult.None?
    ensures var s := SyncSpec(t, c, Some(Numbered(n)), None, r);
      var req := UpsertRequest(t, c, Numbered(n));
      var p := PartitionOf(t, c, Numbered(n), NumberedRecords(m));
      && s.error == r.updateResult
      && |req| == n && |p.add| == n - m && |p.update| == m
      && s.events == [WillSynchronize, Fetch(req)]
                     + (if WantsUnits(t) then [PreferredUnits(UnitTypes(t))] else [])
                     + [Add(p.add), Update(p.update), WillFinishSynchronizing]
  {
    NumberedPartition(t, c, n, m);
    var objects, existing := Numbered(n), NumberedRecords(m);
    var p := PartitionOf(t, c, objects, existing);
    assert |objects| == n;
    assert ExternalObjectsOf(t, c, objects, Some(existing)) == Some(p);
    assert ApplyStage(Some(p), r) == Outcome(r.updateResult, [Add(p.add), Update(p.update)]);
  }

  /**
   * `n > 0` objects, none of which the store holds (the fetch finds nothing):
   * one fetch carrying all `n`, one add of `n`, no update, and the add's result.
   */
  lemma NoObjectsExisting(t: ExternalObjectType, c: Option<Converter>, r: Replies, n: nat)
    requires 0 < n
    requires forall o: HealthObject :: t.fromObject(o, c).Some?
    requires r.upsertFetch.error.None? && OrEmpty(r.upsertFetch.records) == []
    ensures var s := SyncSpec(t, c, Some(Numbered(n)), None, r);
      var req := UpsertRequest(t, c, Numbered(n));
      var p := PartitionOf(t, c, Numbered(n), []);
      && s.error == r.addResult
      && |req| == n && |p.add| == n && p.update == []
      && s.events == [WillSynchronize, Fetch(req)]
                     + (if WantsUnits(t) then [PreferredUnits(UnitTypes(t))] else [])
                     + [Add(p.add), WillFinishSynchronizing]
  {
    NumberedPartition(t, c, n, 0);
    var objects := Numbered(n);
    assert NumberedRecords(0) == [];
    var p := PartitionOf(t, c, objects, []);
    assert |objects| == n;
    assert ExternalObjectsOf(t, c, objects, r.upsertFetch.records) == Some(p);
    assert ApplyStage(Some(p), r) == Outcome(r.addResult, [Add(p.add)]);
  }

  /** Ten objects, none of which the store holds: one fetch, one add of ten, no update. */
  lemma TenObjectsNoneExisting(t: ExternalObjectType, c: Option<Converter>, r: Replies)
    requires forall o: HealthObject :: t.fromObject(o, c).Some?
    requires r.upsertFetch == FetchReply(Some([]), None)
    requires r.addResult.None?
    ensures var s := SyncSpec(t, c, Some(Numbered(10)), None, r);
      var req := UpsertRequest(t, c, Numbered(10));
      var p := PartitionOf(t, c, Numbered(10), []);
      && s.error.None?
      && |req| == 10 && |p.add| == 10 && p.update == []
      && s.events == [WillSynchronize, Fetch(req)]
                     + (if WantsUnits(t) then [PreferredUnits(UnitTypes(t))] else [])
                     + [Add(p.add), WillFinishSynchronizing]
  {
    NoObjectsExisting(t, c, r, 10);
  }

  /**
   * Ten objects, five of which the store already holds (uuids 0..4): one fetch
   * carrying all ten, one add of five, one update of five, no error.
   */
  lemma TenObjectsFiveExisting(t: ExternalObjectType, c: Option<Converter>, r: Replies)
    requires forall o: HealthObject :: t.fromObject(o, c).Some?
    requires r.upsertFetch == FetchReply(Some(NumberedRecords(5)), None)
    requires r.addResult.None? && r.updateResult.None?
    ensures var s := SyncSpec(t, c, Some(Numbered(10)), None, r);
      var req := UpsertRequest(t, c, Numbered(10));
      var p := PartitionOf(t, c, Numbered(10), NumberedRecords(5));
      && s.error.None?
      && |req| == 10 && |p.add| == 5 && |p.update| == 5
      && s.events == [WillSynchronize, Fetch(req)]
                     + (if WantsUnits(t) then [PreferredUnits(UnitTypes(t))] else [])
                     + [Add(p.add), Update(p.update), WillFinishSynchronizing]
  {
    SomeObjectsExisting(t, c, r, 10, 5);
  }

  // ---------------------------------------------------------------------
  // Stage order and short-circuits

  /** Nothing to delete and nothing to upsert: success, and only the two hooks run. */
  lemma EmptyInputsAreNoOp(t: ExternalObjectType, c: Option<Converter>, objects: Option<seq<HealthObject>>,
                           deleted: Option<seq<DeletedObject>>, r: Replies)
    requires !NonEmpty(objects) && !NonEmpty(deleted)
    ensures SyncSpec(t, c, objects, deleted, r) ==
      SyncOutcome(None, [WillSynchronize, WillFinishSynchronizing], false, None)
  {
  }

  /**
   * The deletion stage makes at most a fetch and a delete; `delete` is called
   * exactly when the fetch found records, and then its result is the stage's
   * error (a fetch error is then not reported); otherwise the fetch's error is.
   */
  lemma DeleteStageLaw(t: ExternalObjectType, c: Option<Converter>, deleted: Option<seq<DeletedObject>>, r: Replies)
    ensures var d := DeleteStage(t, c, deleted, r);
      var request := CompactMap(OrEmpty(deleted), (x: DeletedObject) => t.fromDeleted(x, c));
      && (forall i :: 0 <= i < |d.events| ==> d.events[i].Fetch? || d.events[i].Delete?)
      && (Count(d.events, IsDelete) > 0 <==>
            NonEmpty(deleted) && |request| > 0 && NonEmpty(r.deletionFetch.records))
      && (Count(d.events, IsDelete) > 0 ==> d.error == r.deleteResult)
      && (Count(d.events, IsDelete) == 0 ==> d.error == (if NonEmpty(deleted) && |request| > 0
                                                         then r.deletionFetch.error else None))
      && Count(d.events, IsFetch) <= 1 && Count(d.events, IsDelete) <= 1
  {
    var d := DeleteStage(t, c, deleted, r);
    CountShort(d.events, IsFetch);
    CountShort(d.events, IsDelete);
  }

  /** No deletion, and at most one fetch, one add and one update. */
  predicate UpsertShaped(ev: seq<SyncEvent>)
  {
    && (forall i :: 0 <= i < |ev| ==> !ev[i].Delete?)
    && Count(ev, IsFetch) <= 1 && Count(ev, IsAdd) <= 1 && Count(ev, IsUpdate) <= 1
  }

  /** The upsert stage never deletes, and makes one fetch at most. */
  lemma UpsertStageShape(t: ExternalObjectType, c: Option<Converter>, objects: Option<seq<HealthObject>>, r: Replies)
    ensures UpsertShaped(UpsertStage(t, c, objects, r).events)
  {
    var u := UpsertStage(t, c, objects, r);
    if !NonEmpty(objects) {
      assert u.events == [];
    } else {
      var (reply, ev) := FetchStage(UpsertRequest(t, c, objects.value), r.upsertFetch);
      if reply.error.Some? {
        UpsertPartsShape(ev, [], []);
        assert u.events == ev + [] + [];
      } else {
        var plan := ExternalObjectsOf(t, c, objects.value, reply.records);
        var applied := ApplyStage(plan, r);
        AddsBeforeUpdates(plan, r);
        if WantsUnits(t) {
          UpsertPartsShape(ev, [PreferredUnits(UnitTypes(t))], applied.events);
        } else {
          UpsertPartsShape(ev, [], applied.events);
          assert u.events == ev + [] + applied.events;
        }
      }
    }
  }

  /** The fetch, the units call and the apply calls, put together. */
  lemma UpsertPartsShape(fetch: seq<SyncEvent>, units: seq<SyncEvent>, applied: seq<SyncEvent>)
    requires |fetch| <= 1 && (forall i :: 0 <= i < |fetch| ==> fetch[i].Fetch?)
    requires forall i :: 0 <= i < |units| ==> units[i].PreferredUnits?
    requires (forall i :: 0 <= i < |applied| ==> applied[i].Add? || applied[i].Update?)
    requires Count(applied, IsAdd) <= 1 && Count(applied, IsUpdate) <= 1
    ensures UpsertShaped(fetch + units + applied)
  {
    var all := fetch + units + applied;
    forall i | 0 <= i < |all| ensures !all[i].Delete? {
      if i < |fetch| {
        assert all[i] == fetch[i];
      } else if i < |fetch| + |units| {
        assert all[i] == units[i - |fetch|];
      } else {
        assert all[i] == applied[i - |fetch| - |units|];
      }
    }
    CountAppend(fetch + units, applied, IsFetch);
    CountAppend(fetch + units, applied, IsAdd);
    CountAppend(fetch + units, applied, IsUpdate);
    CountAppend(fetch, units, IsFetch);
    CountAppend(fetch, units, IsAdd);
    CountAppend(fetch, units, IsUpdate);
    CountShort(fetch, IsFetch);
    CountZero(fetch, IsAdd);
    CountZero(fetch, IsUpdate);
    CountZero(units, IsFetch);
    CountZero(units, IsAdd);
    CountZero(units, IsUpdate);
    CountZero(applied, IsFetch);
  }

  /**
   * Deletions run before upserts: every deletion-stage call comes before every
   * upsert-stage call, and the pre-hook runs first.
   */
  lemma DeletionsBeforeUpserts(t: ExternalObjectType, c: Option<Converter>, objects: Option<seq<HealthObject>>,
                               deleted: Option<seq<DeletedObject>>, r: Replies)
    ensures var ev := SyncSpec(t, c, objects, deleted, r).events;
      && ev[0] == WillSynchronize
      && forall i, j :: 0 <= i < j < |ev| && IsUpsertCall(ev[i]) ==> !ev[j].Delete?
  {
    DeleteStageLaw(t, c, deleted, r);
    UpsertStageShape(t, c, objects, r);
  }

  /**
   * A deletion-stage error is the pass's error: no upsert fetch, preferredUnits,
   * add or update follows, and the post-hook does not run.
   */
  lemma DeleteErrorStopsPass(t: ExternalObjectType, c: Option<Converter>, objects: Option<seq<HealthObject>>,
                             deleted: Option<seq<DeletedObject>>, r: Replies)
    requires DeleteStage(t, c, deleted, r).error.Some?
    ensures var s := SyncSpec(t, c, objects, deleted, r);
      && s.error == DeleteStage(t, c, deleted, r).error
      && (forall i :: 0 <= i < |s.events| ==> !IsUpsertCall(s.events[i]) && !s.events[i].WillFinishSynchronizing?)
      && Count(s.events, IsFetch) <= 1
      && !s.assignsUnits
  {
    DeleteStageLaw(t, c, deleted, r);
    var d := DeleteStage(t, c, deleted, r);
    CountAppend([WillSynchronize], d.events, IsFetch);
  }

  /** An upsert-fetch error is returned before preferredUnits, add or update. */
  lemma UpsertFetchErrorStopsPass(t: ExternalObjectType, c: Option<Converter>, objects: seq<HealthObject>,
                                  deleted: Option<seq<DeletedObject>>, r: Replies)
    requires DeleteStage(t, c, deleted, r).error.None?
    requires |objects| > 0 && |UpsertRequest(t, c, objects)| > 0
    requires r.upsertFetch.error.Some?
    ensures var s := SyncSpec(t, c, Some(objects), deleted, r);
      && s.error == r.upsertFetch.error
      && s.events == [WillSynchronize] + DeleteStage(t, c, deleted, r).events
                     + [Fetch(UpsertRequest(t, c, objects)), WillFinishSynchronizing]
      && (forall i :: 0 <= i < |s.events| ==> !IsUpsertCall(s.events[i]))
      && !s.assignsUnits
  {
    DeleteStageLaw(t, c, deleted, r);
  }

  /**
   * The upsert fetch is one call carrying every converted object (all of them
   * when each converts), made once the deletion stage succeeded.
   */
  lemma SingleUpsertFetch(t: ExternalObjectType, c: Option<Converter>, objects: seq<HealthObject>,
                          deleted: Option<seq<DeletedObject>>, r: Replies)
    requires DeleteStage(t, c, deleted, r).error.None?
    requires |objects| > 0 && |UpsertRequest(t, c, objects)| > 0
    ensures var u := UpsertStage(t, c, Some(objects), r);
      && Count(u.events, IsFetch) == 1 && u.events[0] == Fetch(UpsertRequest(t, c, objects))
    ensures (forall i :: 0 <= i < |objects| ==> t.fromObject(objects[i], c).Some?) ==>
      |UpsertRequest(t, c, objects)| == |objects|
  {
    var u := UpsertStage(t, c, Some(objects), r);
    UpsertStageShape(t, c, Some(objects), r);
    assert Count([u.events[0]], IsFetch) == 1;
    CountAppend([u.events[0]], u.events[1..], IsFetch);
    assert u.events == [u.events[0]] + u.events[1..];
  }

  /**
   * A failing preferredUnits lookup does not fail the pass: its answer changes
   * neither the error nor the calls, only the stored units.
   */
  lemma PreferredUnitsFailureIgnored(t: ExternalObjectType, c: Option<Converter>, objects: Option<seq<HealthObject>>,
                                     deleted: Option<seq<DeletedObject>>, r: Replies, units: UnitsReply)
    ensures var s, s' := SyncSpec(t, c, objects, deleted, r), SyncSpec(t, c, objects, deleted, r.(preferredUnits := units));
      s.error == s'.error && s.events == s'.events && s.assignsUnits == s'.assignsUnits
  {
    var r' := r.(preferredUnits := units);
    assert DeleteStage(t, c, deleted, r') == DeleteStage(t, c, deleted, r) by {
      assert r'.deletionFetch == r.deletionFetch && r'.deleteResult == r.deleteResult;
    }
    UpsertIgnoresUnits(t, c, objects, r, units);
  }

  lemma UpsertIgnoresUnits(t: ExternalObjectType, c: Option<Converter>, objects: Option<seq<HealthObject>>,
                           r: Replies, units: UnitsReply)
    ensures var u, u' := UpsertStage(t, c, objects, r), UpsertStage(t, c, objects, r.(preferredUnits := units));
      u.error == u'.error && u.events == u'.events && u.assignsUnits == u'.assignsUnits
  {
    var r' := r.(preferredUnits := units);
    if NonEmpty(objects) {
      var (reply, ev) := FetchStage(UpsertRequest(t, c, objects.value), r.upsertFetch);
      assert r'.upsertFetch == r.upsertFetch;
      if reply.error.None? {
        var plan := ExternalObjectsOf(t, c, objects.value, reply.records);
        assert ApplyStage(plan, r') == ApplyStage(plan, r) by {
          assert r'.addResult == r.addResult && r'.updateResult == r.updateResult;
        }
      }
    }
  }

  /**
   * Adds go before updates, each non-empty set in exactly one call; an add
   * error is returned and update is never called.
   */
  lemma AddsBeforeUpdates(plan: Option<Plan>, r: Replies)
    ensures var a := ApplyStage(plan, r);
      && Count(a.events, IsAdd) == (if plan.Some? && |plan.value.add| > 0 then 1 else 0)
      && (plan.Some? && |plan.value.add| > 0 ==> a.events[0] == Add(plan.value.add))
      && (Count(a.events, IsUpdate) == 1 <==>
            plan.Some? && |plan.value.update| > 0 && (|plan.value.add| == 0 || r.addResult.None?))
      && Count(a.events, IsUpdate) <= 1
      && (plan.Some? && |plan.value.add| > 0 && r.addResult.Some? ==> a.error == r.addResult)
      && (Count(a.events, IsUpdate) == 1 ==> a.error == r.updateResult && a.events[|a.events| - 1] == Update(plan.value.update))
      && (Count(a.events, IsAdd) + Count(a.events, IsUpdate) == 0 ==> a.error.None?)
      && |a.events| <= 2
      && (forall i :: 0 <= i < |a.events| ==> a.events[i].Add? || a.events[i].Update?)
  {
    var a := ApplyStage(plan, r);
    CountShort(a.events, IsAdd);
    CountShort(a.events, IsUpdate);
  }
}
