/**
 * The per-type cursor kept in the user defaults: the anchor, the predicate
 * and the last successful execution date of one HealthKit type, each under a
 * key made of the type's identifier and a fixed suffix.
 */
module CursorStore {
  import opened Common

  const AnchorSuffix: string := "-Anchor"
  const PredicateSuffix: string := "-Predicate"
  const LastExecutionSuffix: string := "-Last-Execution-Date"

  function AnchorKey(id: string): string { id + AnchorSuffix }
  function PredicateKey(id: string): string { id + PredicateSuffix }
  function LastExecutionKey(id: string): string { id + LastExecutionSuffix }

  /** The three keys an observer of the type `id` owns. */
  function CursorKeys(id: string): set<string>
  {
    {AnchorKey(id), PredicateKey(id), LastExecutionKey(id)}
  }

  type Entries = map<string, StoredValue>

  /** The user-defaults proxy: a key/value store the observers write into. */
  class UserDefaults {
    var entries: Entries

    constructor (initial: Entries)
      ensures entries == initial
    {
      entries := initial;
    }

    method Set(key: string, value: StoredValue)
      modifies this
      ensures entries == old(entries)[key := value]
    {
      entries := entries[key := value];
    }

    method RemoveObject(key: string)
      modifies this
      ensures entries == old(entries) - {key}
    {
      entries := entries - {key};
    }
  }

  // Readers: a value of the wrong kind reads as absent, as a failed unarchive does.

  function ReadAnchor(e: Entries, id: Option<string>): Option<Anchor>
  {
    if id.Some? && AnchorKey(id.value) in e && e[AnchorKey(id.value)].AnchorData?
    then Some(e[AnchorKey(id.value)].anchor) else None
  }

  function ReadPredicate(e: Entries, id: Option<string>): Option<Predicate>
  {
    if id.Some? && PredicateKey(id.value) in e && e[PredicateKey(id.value)].PredicateData?
    then Some(e[PredicateKey(id.value)].pred) else None
  }

  function ReadLastExecutionDate(e: Entries, id: Option<string>): Option<Date>
  {
    if id.Some? && LastExecutionKey(id.value) in e && e[LastExecutionKey(id.value)].DateValue?
    then Some(e[LastExecutionKey(id.value)].date) else None
  }

  // Writers: the effect of the observer's save/delete helpers on the entries.

  /** `saveAnchor`: write the anchor, or remove the key when there is none. */
  function SaveAnchor(e: Entries, id: Option<string>, a: Option<Anchor>): Entries
  {
    if id.Some? && a.Some? then e[AnchorKey(id.value) := AnchorData(a.value)]
    else DeleteAnchor(e, id)
  }

  function DeleteAnchor(e: Entries, id: Option<string>): Entries
  {
    if id.Some? then e - {AnchorKey(id.value)} else e
  }

  /** `savePredicate`: write the predicate, or remove the key when there is none. */
  function SavePredicate(e: Entries, id: Option<string>, p: Option<Predicate>): Entries
  {
    if id.Some? && p.Some? then e[PredicateKey(id.value) := PredicateData(p.value)]
    else DeletePredicate(e, id)
  }

  function DeletePredicate(e: Entries, id: Option<string>): Entries
  {
    if id.Some? then e - {PredicateKey(id.value)} else e
  }

  function SaveLastExecutionDate(e: Entries, id: Option<string>, now: Date): Entries
  {
    if id.Some? then e[LastExecutionKey(id.value) := DateValue(now)] else e
  }

  function DeleteLastExecutionDate(e: Entries, id: Option<string>): Entries
  {
    if id.Some? then e - {LastExecutionKey(id.value)} else e
  }

  /** Two entries agree everywhere except possibly on the keys in `ks`. */
  ghost predicate AgreeOutside(e: Entries, e': Entries, ks: set<string>)
  {
    forall k :: k !in ks ==> (k in e <==> k in e') && (k in e ==> e[k] == e'[k])
  }

  // Key scheme

  /** The three suffixes end in different characters or differ near the end. */
  lemma {:induction false} SuffixesDistinct(a: string, b: string)
    ensures a + AnchorSuffix != b + PredicateSuffix
    ensures a + AnchorSuffix != b + LastExecutionSuffix
    ensures a + PredicateSuffix != b + LastExecutionSuffix
  {
    var x, y := a + AnchorSuffix, b + PredicateSuffix;
    assert x[|x| - 1] == 'r' && y[|y| - 1] == 'e';
    var z := b + LastExecutionSuffix;
    assert z[|z| - 1] == 'e';
    var w := a + PredicateSuffix;
    assert w[|w| - 5] == 'i' && z[|z| - 5] == '-';
  }

  /** Keys of one kind are equal exactly when the identifiers are. */
  lemma {:induction false} KeyInjective(a: string, b: string, suffix: string)
    ensures a + suffix == b + suffix <==> a == b
  {
    if a + suffix == b + suffix {
      assert |a| == |b|;
      assert forall i :: 0 <= i < |a| ==> a[i] == (a + suffix)[i] && b[i] == (b + suffix)[i];
    }
  }

  /**
   * Key scheme law: the three keys of a type are pairwise distinct, and the
   * cursor keys of two different types never collide.
   */
  lemma CursorKeysLaw(a: string, b: string)
    ensures |CursorKeys(a)| == 3
    ensures a != b ==> CursorKeys(a) !! CursorKeys(b)
  {
    SuffixesDistinct(a, a);
    SuffixesDistinct(a, b);
    SuffixesDistinct(b, a);
    KeyInjective(a, b, AnchorSuffix);
    KeyInjective(a, b, PredicateSuffix);
    KeyInjective(a, b, LastExecutionSuffix);
  }

  // Round trips and frames

  /** What was saved is what is read back; saving nothing reads back as nothing. */
  lemma AnchorRoundTrip(e: Entries, id: string, a: Option<Anchor>)
    ensures ReadAnchor(SaveAnchor(e, Some(id), a), Some(id)) == a
    ensures AgreeOutside(e, SaveAnchor(e, Some(id), a), {AnchorKey(id)})
  {
  }

  lemma PredicateRoundTrip(e: Entries, id: string, p: Option<Predicate>)
    ensures ReadPredicate(SavePredicate(e, Some(id), p), Some(id)) == p
    ensures AgreeOutside(e, SavePredicate(e, Some(id), p), {PredicateKey(id)})
  {
  }

  lemma LastExecutionRoundTrip(e: Entries, id: string, now: Date)
    ensures ReadLastExecutionDate(SaveLastExecutionDate(e, Some(id), now), Some(id)) == Some(now)
    ensures AgreeOutside(e, SaveLastExecutionDate(e, Some(id), now), {LastExecutionKey(id)})
  {
  }

  /** Saving an anchor leaves the predicate and the last-execution date as they were. */
  lemma SaveAnchorKeepsOthers(e: Entries, id: string, a: Option<Anchor>, now: Date)
    ensures ReadPredicate(SaveAnchor(e, Some(id), a), Some(id)) == ReadPredicate(e, Some(id))
    ensures ReadLastExecutionDate(SaveAnchor(e, Some(id), a), Some(id)) == ReadLastExecutionDate(e, Some(id))
    ensures ReadAnchor(SaveLastExecutionDate(e, Some(id), now), Some(id)) == ReadAnchor(e, Some(id))
  {
    SuffixesDistinct(id, id);
  }
}
