/**
 * HDSPermissionsManager: asks HealthKit to authorize the types in its
 * `readTypes` and `shareTypes` lists. Two guards come first (health data
 * unavailable, nothing to ask for); past them exactly one authorization
 * request is made, with the lists turned into sets, and HealthKit's
 * (success, error) is handed on as it came.
 */
module Permissions {
  import opened Common

  /** The one authorization request: the types to share and the types to read. */
  datatype AuthorizationRequest = AuthorizationRequest(share: set<ObjectType>, read: set<ObjectType>)

  /** The guard decision: an error, or the request to make. */
  datatype Decision = Refuse(error: Error) | Request(request: AuthorizationRequest)

  function SetOf(ts: seq<ObjectType>): (r: set<ObjectType>)
    ensures forall x :: x in r <==> x in ts
  {
    set x | x in ts
  }

  /** The two guards of `authorizeHealthKit`, then the sets built from the lists. */
  function Guard(available: bool, readTypes: seq<ObjectType>, shareTypes: seq<ObjectType>): Decision
  {
    if !available then Refuse(Unavailable)
    else if readTypes == [] && shareTypes == [] then Refuse(NoSpecifiedTypes)
    else Request(AuthorizationRequest(SetOf(shareTypes), SetOf(readTypes)))
  }

  /**
   * Unavailable health data is refused first, then empty lists; any other
   * input is a request holding exactly the listed types, so the order of the
   * lists and repeated entries in them make no difference.
   */
  lemma GuardLaw(available: bool, readTypes: seq<ObjectType>, shareTypes: seq<ObjectType>)
    ensures !available ==> Guard(available, readTypes, shareTypes) == Refuse(Unavailable)
    ensures available && readTypes == [] && shareTypes == [] ==>
      Guard(available, readTypes, shareTypes) == Refuse(NoSpecifiedTypes)
    ensures Guard(available, readTypes, shareTypes).Request? <==>
      available && (readTypes != [] || shareTypes != [])
    ensures Guard(available, readTypes, shareTypes).Request? ==>
      var q := Guard(available, readTypes, shareTypes).request;
      && (forall x :: x in q.read <==> x in readTypes)
      && (forall x :: x in q.share <==> x in shareTypes)
    ensures forall r2: seq<ObjectType>, s2: seq<ObjectType> ::
      (forall x :: x in r2 <==> x in readTypes) && (forall x :: x in s2 <==> x in shareTypes)
      && (r2 == [] <==> readTypes == []) && (s2 == [] <==> shareTypes == []) ==>
      Guard(available, r2, s2) == Guard(available, readTypes, shareTypes)
  {
    forall r2: seq<ObjectType>, s2: seq<ObjectType> |
      (forall x :: x in r2 <==> x in readTypes) && (forall x :: x in s2 <==> x in shareTypes)
      && (r2 == [] <==> readTypes == []) && (s2 == [] <==> shareTypes == [])
      ensures Guard(available, r2, s2) == Guard(available, readTypes, shareTypes)
    {
      assert SetOf(r2) == SetOf(readTypes);
      assert SetOf(s2) == SetOf(shareTypes);
    }
  }

  /** A list with a repeated entry asks for the same set as the list without it. */
  lemma DuplicatesCollapse(x: ObjectType, y: ObjectType)
    ensures Guard(true, [x, y, x], []) == Guard(true, [x, y], [])
    ensures Guard(true, [], [y, y]) == Request(AuthorizationRequest({y}, {}))
  {
    assert SetOf([x, y, x]) == SetOf([x, y]);
    assert SetOf([y, y]) == {y};
    assert SetOf([]) == {};
  }

  /** What the completion receives, and the request made on the way, if any. */
  datatype AuthorizationOutcome = AuthorizationOutcome(
    success: bool, error: Option<Error>, request: Option<AuthorizationRequest>)

  /**
   * `authorizeHealthKit(_:)` over `readTypes` and `shareTypes`: (false,
   * unavailable) or (false, noSpecifiedTypes) with no request; otherwise one
   * request for the listed types and HealthKit's reply, unchanged.
   */
  function Authorize(store: HealthStore, readTypes: seq<ObjectType>, shareTypes: seq<ObjectType>): (r: AuthorizationOutcome)
    ensures !store.available ==> r == AuthorizationOutcome(false, Some(Unavailable), None)
    ensures store.available && readTypes == [] && shareTypes == [] ==>
      r == AuthorizationOutcome(false, Some(NoSpecifiedTypes), None)
    ensures r.request.Some? <==> store.available && (readTypes != [] || shareTypes != [])
    ensures r.request.Some? ==>
      && (forall x :: x in r.request.value.read <==> x in readTypes)
      && (forall x :: x in r.request.value.share <==> x in shareTypes)
      && var reply := store.authorizeReply(r.request.value.share, r.request.value.read);
         r.success == reply.success && r.error == reply.error
  {
    GuardLaw(store.available, readTypes, shareTypes);
    match Guard(store.available, readTypes, shareTypes)
    case Refuse(e) => AuthorizationOutcome(false, Some(e), None)
    case Request(q) =>
      var reply := store.authorizeReply(q.share, q.read);
      AuthorizationOutcome(reply.success, reply.error, Some(q))
  }

  class PermissionsManager {
    var readTypes: seq<ObjectType>
    var shareTypes: seq<ObjectType>
    const store: HealthStore

    constructor (store: HealthStore)
      ensures this.store == store && readTypes == [] && shareTypes == []
    {
      this.store := store;
      readTypes := [];
      shareTypes := [];
    }

    /** `authorizeHealthKit(_:)`: the two guards, then the one store call. */
    method AuthorizeHealthKit() returns (success: bool, error: Option<Error>, request: Option<AuthorizationRequest>)
      ensures AuthorizationOutcome(success, error, request) == Authorize(store, readTypes, shareTypes)
    {
      if !store.available {
        return false, Some(Unavailable), None;
      }
      if readTypes == [] && shareTypes == [] {
        return false, Some(NoSpecifiedTypes), None;
      }
      var q := AuthorizationRequest(SetOf(shareTypes), SetOf(readTypes));
      var reply := store.authorizeReply(q.share, q.read);
      return reply.success, reply.error, Some(q);
    }
  }
}
