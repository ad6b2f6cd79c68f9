/**
 * HDSObjectSynchronizer: one synchronize pass turns a page of HealthKit
 * objects and deletions into calls on the external store. The pass runs the
 * pre-hook, deletes, creates or updates, then the post-hook. The external
 * store and HealthKit's `preferredUnits` are collaborators: the pass records
 * every call it makes to them (`SyncEvent`) and takes their answers from a
 * `Replies` value. Each call site is reached at most once per pass, so one
 * answer per call site covers every behaviour a collaborator can show.
 */
module Reconciler {
  import opened Common

  type Unit = nat
  type UnitMap = map<ObjectType, Unit>

  /** A call the pass makes to a collaborator, or a hook it runs. */
  datatype SyncEvent =
    | WillSynchronize
    | Fetch(records: seq<ExternalRecord>)
    | Delete(records: seq<ExternalRecord>)
    | PreferredUnits(types: set<ObjectType>)
    | Add(records: seq<ExternalRecord>)
    | Update(records: seq<ExternalRecord>)
    | WillFinishSynchronizing

  datatype FetchReply = FetchReply(records: Option<seq<ExternalRecord>>, error: Option<Error>)
  datatype UnitsReply = UnitsReply(units: Option<UnitMap>, error: Option<Error>)

  /** The collaborators' answers to the calls of one pass, one per call site. */
  datatype Replies = Replies(
    deletionFetch: FetchReply,
    deleteResult: Option<Error>,
    upsertFetch: FetchReply,
    preferredUnits: UnitsReply,
    addResult: Option<Error>,
    updateResult: Option<Error>)

  /** The reconciliation plan: records to add and (already merged) records to update. */
  datatype Plan = Plan(add: seq<ExternalRecord>, update: seq<ExternalRecord>)

  /** The error a stage hands to its completion and the calls it made. */
  datatype Outcome = Outcome(error: Option<Error>, events: seq<SyncEvent>)

  /** The outcome of the upsert stage, with the value it assigned to `unitsDictionary`, if any. */
  datatype UpsertOutcome = UpsertOutcome(
    error: Option<Error>, events: seq<SyncEvent>, assignsUnits: bool, units: Option<UnitMap>)

  // ---------------------------------------------------------------------
  // Specification of the stages

  /** `fetchExternalObjects`: an empty request is answered (nil, nil) without a call. */
  function FetchStage(request: seq<ExternalRecord>, reply: FetchReply): (FetchReply, seq<SyncEvent>)
  {
    if |request| > 0 then (reply, [Fetch(request)]) else (FetchReply(None, None), [])
  }

  /** An optional list that is present and not empty. */
  predicate NonEmpty<T>(s: Option<seq<T>>)
  {
    s.Some? && |s.value| > 0
  }

  /** `delete(deletedObjects:)`. */
  function DeleteStage(t: ExternalObjectType, c: Option<Converter>,
                       deleted: Option<seq<DeletedObject>>, r: Replies): Outcome
  {
    if !NonEmpty(deleted) then Outcome(None, [])
    else
      var request := CompactMap(deleted.value, (d: DeletedObject) => t.fromDeleted(d, c));
      var (reply, ev) := FetchStage(request, r.deletionFetch);
      if NonEmpty(reply.records) then Outcome(r.deleteResult, ev + [Delete(reply.records.value)])
      else Outcome(reply.error, ev)
  }

  /** The existing records that match `o` by uuid, each merged with `o`, in order. */
  function Matches(t: ExternalObjectType, existing: seq<ExternalRecord>, o: HealthObject): seq<ExternalRecord>
  {
    if existing == [] then []
    else
      var last := existing[|existing| - 1];
      Matches(t, existing[..|existing| - 1], o) + (if last.uuid == o.uuid then [t.merge(last, o)] else [])
  }

  /** The partition of `objects` against the fetched records, object by object. */
  function PartitionOf(t: ExternalObjectType, c: Option<Converter>,
                       objects: seq<HealthObject>, existing: seq<ExternalRecord>): Plan
  {
    if objects == [] then Plan([], [])
    else
      var p := PartitionOf(t, c, objects[..|objects| - 1], existing);
      var o := objects[|objects| - 1];
      var m := Matches(t, existing, o);
      if |m| > 0 then Plan(p.add, p.update + m)
      else match t.fromObject(o, c)
        case Some(x) => Plan(p.add + [x], p.update)
        case None => p
  }

  lemma MatchesSnoc(t: ExternalObjectType, existing: seq<ExternalRecord>, o: HealthObject, j: nat)
    requires j < |existing|
    ensures Matches(t, existing[..j + 1], o)
      == Matches(t, existing[..j], o) + (if existing[j].uuid == o.uuid then [t.merge(existing[j], o)] else [])
  {
    assert existing[..j + 1][..j] == existing[..j];
  }

  lemma PartitionSnoc(t: ExternalObjectType, c: Option<Converter>, objects: seq<HealthObject>,
                      existing: seq<ExternalRecord>, i: nat)
    requires i < |objects|
    ensures var p, m := PartitionOf(t, c, objects[..i], existing), Matches(t, existing, objects[i]);
      PartitionOf(t, c, objects[..i + 1], existing)
        == if |m| > 0 then Plan(p.add, p.update + m)
           else if t.fromObject(objects[i], c).Some? then Plan(p.add + [t.fromObject(objects[i], c).value], p.update)
           else p
  {
    assert objects[..i + 1][..i] == objects[..i];
  }

  function OrEmpty<T>(s: Option<seq<T>>): seq<T>
  {
    if s.Some? then s.value else []
  }

  /** `externalObjects(from:existingObjects:)`: nothing when both lists are empty. */
  function ExternalObjectsOf(t: ExternalObjectType, c: Option<Converter>,
                             objects: seq<HealthObject>, existing: Option<seq<ExternalRecord>>): Option<Plan>
  {
    var p := PartitionOf(t, c, objects, OrEmpty(existing));
    if |p.add| < 1 && |p.update| < 1 then None else Some(p)
  }

  /** `applyUpdates`: adds in one call, then updates in one call, stopping on an add error. */
  function ApplyStage(plan: Option<Plan>, r: Replies): Outcome
  {
    match plan
    case None => Outcome(None, [])
    case Some(p) =>
      if |p.add| > 0 then
        if r.addResult.Some? then Outcome(r.addResult, [Add(p.add)])
        else if |p.update| > 0 then Outcome(r.updateResult, [Add(p.add), Update(p.update)])
        else Outcome(None, [Add(p.add)])
      else if |p.update| > 0 then Outcome(r.updateResult, [Update(p.update)])
      else Outcome(None, [])
  }

  /** `authorizationTypes() as? [HKQuantityType]` succeeds. */
  predicate WantsUnits(t: ExternalObjectType)
  {
    t.authorizationTypes.Some? &&
    forall i :: 0 <= i < |t.authorizationTypes.value| ==> t.authorizationTypes.value[i].isQuantity
  }

  function UnitTypes(t: ExternalObjectType): set<ObjectType>
  {
    set x | x in OrEmpty(t.authorizationTypes)
  }

  /** The records sent in the upsert fetch: every object that converts. */
  function UpsertRequest(t: ExternalObjectType, c: Option<Converter>, objects: seq<HealthObject>): seq<ExternalRecord>
  {
    CompactMap(objects, (o: HealthObject) => t.fromObject(o, c))
  }

  /** `createOrUpdate(objects:)`. */
  function UpsertStage(t: ExternalObjectType, c: Option<Converter>,
                       objects: Option<seq<HealthObject>>, r: Replies): UpsertOutcome
  {
    if !NonEmpty(objects) then UpsertOutcome(None, [], false, None)
    else
      var (reply, ev) := FetchStage(UpsertRequest(t, c, objects.value), r.upsertFetch);
      if reply.error.Some? then UpsertOutcome(reply.error, ev, false, None)
      else
        var applied := ApplyStage(ExternalObjectsOf(t, c, objects.value, reply.records), r);
        if WantsUnits(t) then
          UpsertOutcome(applied.error, ev + [PreferredUnits(UnitTypes(t))] + applied.events,
                        true, r.preferredUnits.units)
        else UpsertOutcome(applied.error, ev + applied.events, false, None)
  }

  datatype SyncOutcome = SyncOutcome(
    error: Option<Error>, events: seq<SyncEvent>, assignsUnits: bool, units: Option<UnitMap>)

  /** `synchronize(objects:deletedObjects:)`: hooks around deletions then upserts. */
  function SyncSpec(t: ExternalObjectType, c: Option<Converter>, objects: Option<seq<HealthObject>>,
                    deleted: Option<seq<DeletedObject>>, r: Replies): SyncOutcome
  {
    var d := DeleteStage(t, c, deleted, r);
    if d.error.Some? then SyncOutcome(d.error, [WillSynchronize] + d.events, false, None)
    else
      var u := UpsertStage(t, c, objects, r);
      SyncOutcome(u.error, [WillSynchronize] + d.events + u.events + [WillFinishSynchronizing],
                  u.assignsUnits, u.units)
  }

  // ---------------------------------------------------------------------
  // The synchronizer

  class ObjectSynchronizer {
    const externalObjectType: ExternalObjectType
    var unitsDictionary: Option<UnitMap>
    var converter: Option<Converter>

    constructor (t: ExternalObjectType)
      ensures externalObjectType == t && unitsDictionary == None && converter == None
    {
      externalObjectType := t;
      unitsDictionary := None;
      converter := None;
    }

    /** The pass; the default hooks do nothing but are recorded where they run. */
    method Synchronize(objects: Option<seq<HealthObject>>, deleted: Option<seq<DeletedObject>>, r: Replies)
      returns (error: Option<Error>, events: seq<SyncEvent>)
      modifies this`unitsDictionary
      ensures var s := SyncSpec(externalObjectType, converter, objects, deleted, r);
        && error == s.error && events == s.events
        && unitsDictionary == (if s.assignsUnits then s.units else old(unitsDictionary))
    {
      events := [WillSynchronize];
      var d := Delete(deleted, r);
      events := events + d.events;
      if d.error.Some? {
        error := d.error;
        return;
      }
      var u := CreateOrUpdate(objects, r);
      error := u.error;
      events := events + u.events + [WillFinishSynchronizing];
    }

    method Delete(deleted: Option<seq<DeletedObject>>, r: Replies) returns (out: Outcome)
      ensures out == DeleteStage(externalObjectType, converter, deleted, r)
    {
      if !NonEmpty(deleted) {
        return Outcome(None, []);
      }
      var t, c := externalObjectType, converter;
      var request := CompactMap(deleted.value, (d: DeletedObject) => t.fromDeleted(d, c));
      var reply, ev := FetchExternalObjects(request, r.deletionFetch);
      if NonEmpty(reply.records) {
        out := Outcome(r.deleteResult, ev + [SyncEvent.Delete(reply.records.value)]);
      } else {
        out := Outcome(reply.error, ev);
      }
    }

    method CreateOrUpdate(objects: Option<seq<HealthObject>>, r: Replies) returns (out: Outcome)
      modifies this`unitsDictionary
      ensures var u := UpsertStage(externalObjectType, converter, objects, r);
        && out == Outcome(u.error, u.events)
        && unitsDictionary == (if u.assignsUnits then u.units else old(unitsDictionary))
    {
      if !NonEmpty(objects) {
        return Outcome(None, []);
      }
      var reply, ev := FetchExternalObjects(UpsertRequest(externalObjectType, converter, objects.value), r.upsertFetch);
      if reply.error.Some? {
        return Outcome(reply.error, ev);
      }
      if WantsUnits(externalObjectType) {
        ev := ev + [PreferredUnits(UnitTypes(externalObjectType))];
        unitsDictionary := r.preferredUnits.units;
      }
      var applied := ApplyUpdates(objects.value, reply.records, r);
      out := Outcome(applied.error, ev + applied.events);
    }

    method ApplyUpdates(objects: seq<HealthObject>, existing: Option<seq<ExternalRecord>>, r: Replies)
      returns (out: Outcome)
      ensures out == ApplyStage(ExternalObjectsOf(externalObjectType, converter, objects, existing), r)
    {
      var plan := ExternalObjects(objects, existing);
      if plan.Some? {
        var p := plan.value;
        if |p.add| > 0 {
          if r.addResult.Some? {
            return Outcome(r.addResult, [Add(p.add)]);
          }
          if |p.update| > 0 {
            return Outcome(r.updateResult, [Add(p.add), Update(p.update)]);
          }
          return Outcome(r.addResult, [Add(p.add)]);
        } else if |p.update| > 0 {
          return Outcome(r.updateResult, [Update(p.update)]);
        }
      }
      out := Outcome(None, []);
    }

    static method FetchExternalObjects(request: seq<ExternalRecord>, reply: FetchReply)
      returns (fetched: FetchReply, events: seq<SyncEvent>)
      ensures (fetched, events) == FetchStage(request, reply)
    {
      if |request| > 0 {
        return reply, [Fetch(request)];
      }
      return FetchReply(None, None), [];
    }

    /** The nested loops of `externalObjects(from:existingObjects:)`. */
    method ExternalObjects(objects: seq<HealthObject>, existing: Option<seq<ExternalRecord>>)
      returns (plan: Option<Plan>)
      ensures plan == ExternalObjectsOf(externalObjectType, converter, objects, existing)
    {
      var t, c := externalObjectType, converter;
      var fetched := OrEmpty(existing);
      var add: seq<ExternalRecord> := [];
      var update: seq<ExternalRecord> := [];
      var i := 0;
      while i < |objects|
        invariant 0 <= i <= |objects|
        invariant Plan(add, update) == PartitionOf(t, c, objects[..i], fetched)
      {
        var o := objects[i];
        var isUpdate := false;
        ghost var before := update;
        var j := 0;
        while j < |fetched|
          invariant 0 <= j <= |fetched|
          invariant update == before + Matches(t, fetched[..j], o)
          invariant isUpdate <==> |Matches(t, fetched[..j], o)| > 0
        {
          MatchesSnoc(t, fetched, o, j);
          if o.uuid == fetched[j].uuid {
            isUpdate := true;
            update := update + [t.merge(fetched[j], o)];
          }
          j := j + 1;
        }
        assert fetched[..j] == fetched;
        PartitionSnoc(t, c, objects, fetched, i);
        if !isUpdate {
          var created := t.fromObject(o, c);
          if created.Some? {
            add := add + [created.value];
          }
        }
        i := i + 1;
      }
      assert objects[..i] == objects;
      plan := if |add| < 1 && |update| < 1 then None else Some(Plan(add, update));
    }
  }
}
