/**
 * Shared vocabulary of the sync engine: HealthKit objects and types, the
 * external-object type descriptor, the observer delegate, errors and the
 * values kept in the user-defaults store. HealthKit itself, HKUnit, dates,
 * anchors and predicates are opaque here.
 */
module Common {

  datatype Option<+T> = None | Some(value: T)

  /** The library's own errors plus an opaque error passed through from a collaborator. */
  datatype Error =
    | Unavailable
    | NoSpecifiedTypes
    | NotSupported
    | OperationCancelled
    | Underlying(code: nat)

  type UUID = nat

  /** An HKObjectType: its identifier and whether it is a sample type / quantity type. */
  datatype ObjectType = ObjectType(identifier: string, isSample: bool, isQuantity: bool)

  /** An HKObject (a sample) and an HKDeletedObject (a deletion marker). */
  datatype HealthObject = HealthObject(uuid: UUID, payload: nat)
  datatype DeletedObject = DeletedObject(uuid: UUID)

  /** One record of the external store; `uuid` is the correlation key with HealthKit. */
  datatype ExternalRecord = ExternalRecord(uuid: UUID, payload: nat)

  /** An opaque converter handed to the external-object conversions. */
  datatype Converter = Converter(id: nat)

  /**
   * An HDSExternalObjectProtocol type: its static members. `fromObject` and
   * `fromDeleted` are the two `externalObject(...)` factories (either may
   * yield nothing), `merge` is the instance method `update(with:)`.
   */
  datatype ExternalObjectType = ExternalObjectType(
    authorizationTypes: Option<seq<ObjectType>>,
    healthKitObjectType: Option<ObjectType>,
    fromObject: (HealthObject, Option<Converter>) -> Option<ExternalRecord>,
    fromDeleted: (DeletedObject, Option<Converter>) -> Option<ExternalRecord>,
    merge: (ExternalRecord, HealthObject) -> ExternalRecord)

  /**
   * The conversions carry the HealthKit uuid into the record and `update(with:)`
   * keeps it, as every sample conformer does. Hypothesis of some lemmas only.
   */
  ghost predicate KeepsUuids(t: ExternalObjectType)
  {
    && (forall o: HealthObject, c: Option<Converter> ::
          t.fromObject(o, c).Some? ==> t.fromObject(o, c).value.uuid == o.uuid)
    && (forall e: ExternalRecord, o: HealthObject :: t.merge(e, o).uuid == e.uuid)
  }

  /** The observer delegate: its batch size, its shouldExecute answer and its identity. */
  datatype Delegate = Delegate(id: nat, batchSize: Option<int>, shouldExecute: bool)

  /** `Constants.defaultBatchSize`. */
  const DefaultBatchSize: int := 25

  datatype AuthorizationStatus = NotDetermined | SharingDenied | SharingAuthorized

  /** The (success, error) pair HealthKit hands to a completion handler. */
  datatype StoreReply = StoreReply(success: bool, error: Option<Error>)

  /**
   * The HealthKit store as the sync engine sees it: availability, the
   * authorization status of each type, its answer to enabling or disabling
   * background delivery for a type, and its answer to an authorization
   * request for the given share and read sets.
   */
  datatype HealthStore = HealthStore(
    available: bool,
    status: ObjectType -> AuthorizationStatus,
    enableReply: ObjectType -> StoreReply,
    disableReply: ObjectType -> StoreReply,
    authorizeReply: (set<ObjectType>, set<ObjectType>) -> StoreReply)

  /** Opaque values persisted by an observer. */
  datatype Anchor = Anchor(token: nat)
  datatype Predicate = Predicate(filter: nat)
  datatype Date = Date(instant: nat)

  /** What an observer keeps under its keys in the user defaults. */
  datatype StoredValue =
    | AnchorData(anchor: Anchor)
    | PredicateData(pred: Predicate)
    | DateValue(date: Date)

  /** `compactMap`: apply `f` and keep the results that exist, in order. */
  function CompactMap<A, B>(s: seq<A>, f: A -> Option<B>): (r: seq<B>)
    ensures |r| <= |s|
    ensures (forall i :: 0 <= i < |s| ==> f(s[i]).Some?) ==> |r| == |s|
    ensures forall y :: y in r ==> exists i :: 0 <= i < |s| && f(s[i]) == Some(y)
  {
    if s == [] then []
    else
      var rest := CompactMap(s[1..], f);
      assert forall i :: 0 <= i < |s| - 1 ==> s[1..][i] == s[i + 1];
      match f(s[0])
      case Some(y) => [y] + rest
      case None => rest
  }

  /** Every result that exists is kept. */
  lemma {:induction false} CompactMapKeeps<A, B>(s: seq<A>, f: A -> Option<B>)
    ensures forall i :: 0 <= i < |s| && f(s[i]).Some? ==> f(s[i]).value in CompactMap(s, f)
  {
    if s != [] {
      CompactMapKeeps(s[1..], f);
      assert forall i :: 1 <= i < |s| ==> s[i] == s[1..][i - 1];
    }
  }

  /** When every conversion succeeds, the results line up with the input. */
  lemma {:induction false} CompactMapTotal<A, B>(s: seq<A>, f: A -> Option<B>)
    requires forall i :: 0 <= i < |s| ==> f(s[i]).Some?
    ensures |CompactMap(s, f)| == |s|
    ensures forall i :: 0 <= i < |s| ==> CompactMap(s, f)[i] == f(s[i]).value
  {
    if s != [] {
      assert forall i :: 1 <= i < |s| ==> s[i] == s[1..][i - 1];
      CompactMapTotal(s[1..], f);
    }
  }

  /** The kept results of a concatenation are those of each part, in order. */
  lemma {:induction false} CompactMapConcat<A, B>(a: seq<A>, b: seq<A>, f: A -> Option<B>)
    ensures CompactMap(a + b, f) == CompactMap(a, f) + CompactMap(b, f)
  {
    if a == [] {
      assert a + b == b;
    } else {
      assert (a + b)[1..] == a[1..] + b;
      CompactMapConcat(a[1..], b, f);
    }
  }
}
