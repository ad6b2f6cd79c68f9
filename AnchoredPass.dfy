/**
 * One catch-up pass of an observer (`executeAnchorQuery`): an anchored query
 * from the stored anchor, a synchronize of the page it returns, then the
 * anchor and the execution date are saved and, while pages come back full,
 * the next query runs from the new anchor.
 *
 * HealthKit's answers are a list of `PageAnswer`s, one per query in the
 * order the queries are made; when the list runs out, the query just made
 * has not been answered and the pass is `Pending`.
 */
module AnchoredPass {
  import opened Common
  import opened CursorStore
  import opened Reconciler
  import opened ObserverEvents

  /**
   * HealthKit's answer to one anchored query (error, objects, deleted objects,
   * new anchor), the collaborators' replies to the synchronize pass it feeds,
   * and the clock reading taken when the execution date is saved.
   */
  datatype PageAnswer = PageAnswer(
    queryError: Option<Error>,
    objects: Option<seq<HealthObject>>,
    deleted: Option<seq<DeletedObject>>,
    anchor: Option<Anchor>,
    replies: Replies,
    now: Date)

  /**
   * The pass's completion: not called yet, called with (success, error), or
   * never to be called because the completion handler trapped.
   */
  datatype Completion = Pending | Completed(success: bool, error: Option<Error>) | Crashed

  /**
   * What a pass depends on besides the stored cursor: the synchronizer's
   * type, what its synchronize pass makes of a page, the delegate and the
   * queried sample type.
   */
  datatype PassEnv = PassEnv(t: ExternalObjectType, sync: PageAnswer -> SyncOutcome,
                             delegate: Option<Delegate>, sampleType: ObjectType)

  /** The environment of a pass run by an `ObjectSynchronizer` with converter `c`. */
  function SynchronizerEnv(t: ExternalObjectType, c: Option<Converter>, d: Option<Delegate>, sampleType: ObjectType): PassEnv
  {
    PassEnv(t, (p: PageAnswer) => SyncSpec(t, c, p.objects, p.deleted, p.replies), d, sampleType)
  }

  /** The stored entries, the calls made so far and the synchronizer's units. */
  datatype PassState = PassState(entries: Entries, events: seq<ObserverEvent>, units: Option<UnitMap>)

  /** The identifier the observer's keys are built from. */
  function IdOf(t: ExternalObjectType): Option<string>
  {
    if t.healthKitObjectType.Some? then Some(t.healthKitObjectType.value.identifier) else None
  }

  /** The page size: the delegate's batch size, or the default when it has none. */
  function Limit(d: Option<Delegate>): int
  {
    if d.Some? && d.value.batchSize.Some? then d.value.batchSize.value else DefaultBatchSize
  }

  /** The anchored query made against the stored cursor. */
  function QueryFor(env: PassEnv, e: Entries): AnchoredQuery
  {
    AnchoredQuery(env.sampleType, ReadPredicate(e, IdOf(env.t)), ReadAnchor(e, IdOf(env.t)), Limit(env.delegate))
  }

  /** `delegate?.didFinishExecution(for:error:)`. */
  function Finish(env: PassEnv, error: Option<Error>): seq<ObserverEvent>
  {
    if env.delegate.Some? then [DidFinishExecution(error)] else []
  }

  function PageCount(p: PageAnswer): nat
  {
    |OrEmpty(p.objects)| + |OrEmpty(p.deleted)|
  }

  predicate Full(env: PassEnv, p: PageAnswer)
  {
    PageCount(p) >= Limit(env.delegate)
  }

  function SyncOf(env: PassEnv, p: PageAnswer): SyncOutcome
  {
    env.sync(p)
  }

  /**
   * An answer without an error and without an object list: the handler
   * force-unwraps the list before anything else and traps.
   */
  predicate Crashes(p: PageAnswer)
  {
    p.queryError.None? && p.objects.None?
  }

  /** The error that ends the pass at this page: the query's, else the synchronizer's. */
  function PageError(env: PassEnv, p: PageAnswer): Option<Error>
  {
    if p.queryError.Some? then p.queryError else SyncOf(env, p).error
  }

  /** What a successful page writes: its anchor, then the execution date. */
  function SavePage(e: Entries, id: Option<string>, p: PageAnswer): Entries
  {
    SaveLastExecutionDate(SaveAnchor(e, id, p.anchor), id, p.now)
  }

  /**
   * One answered query: on an error the pass completes with (false, error);
   * without an object list the handler traps and nothing more happens;
   * otherwise the page is synchronized and saved, and the pass completes
   * with (true, nil) when the page is short, or is still `Pending` with the
   * next query made.
   */
  function PageStep(env: PassEnv, s: PassState, p: PageAnswer): (Completion, PassState)
  {
    if p.queryError.Some? then
      (Completed(false, p.queryError), s.(events := s.events + Finish(env, p.queryError)))
    else if Crashes(p) then (Crashed, s)
    else
      var sync := SyncOf(env, p);
      var units := if sync.assignsUnits then sync.units else s.units;
      var ev := s.events + [Synchronize(p.objects, p.deleted)];
      if sync.error.Some? then
        (Completed(false, sync.error), PassState(s.entries, ev + Finish(env, sync.error), units))
      else
        var e := SavePage(s.entries, IdOf(env.t), p);
        if !Full(env, p) then (Completed(true, None), PassState(e, ev + Finish(env, None), units))
        else (Pending, PassState(e, ev + [ExecuteAnchoredQuery(QueryFor(env, e))], units))
  }

  /** The pass from the moment a query has been made, answered by `pages`. */
  function Pass(env: PassEnv, s: PassState, pages: seq<PageAnswer>): (Completion, PassState)
    decreases |pages|
  {
    if pages == [] then (Pending, s)
    else
      var r := PageStep(env, s, pages[0]);
      if r.0.Pending? then Pass(env, r.1, pages[1..]) else r
  }

  /** The entries after saving each page in turn. */
  function ApplyPages(e: Entries, id: Option<string>, ps: seq<PageAnswer>): Entries
    decreases |ps|
  {
    if ps == [] then e else ApplyPages(SavePage(e, id, ps[0]), id, ps[1..])
  }

  // ---------------------------------------------------------------------
  // Laws

  /**
   * Saving pages writes only the anchor and execution-date keys; afterwards
   * they hold the last page's anchor (or are absent when it has none) and
   * its date, and the predicate is untouched.
   */
  lemma {:induction false} ApplyPagesLaw(e: Entries, id: string, ps: seq<PageAnswer>)
    ensures AgreeOutside(e, ApplyPages(e, Some(id), ps), {AnchorKey(id), LastExecutionKey(id)})
    ensures ReadPredicate(ApplyPages(e, Some(id), ps), Some(id)) == ReadPredicate(e, Some(id))
    ensures ps != [] ==>
      && ReadAnchor(ApplyPages(e, Some(id), ps), Some(id)) == ps[|ps| - 1].anchor
      && ReadLastExecutionDate(ApplyPages(e, Some(id), ps), Some(id)) == Some(ps[|ps| - 1].now)
    decreases |ps|
  {
    if ps != [] {
      var e1 := SavePage(e, Some(id), ps[0]);
      SavedPageReads(e, id, ps[0]);
      ApplyPagesLaw(e1, id, ps[1..]);
      if |ps| > 1 {
        assert ps[1..][|ps| - 2] == ps[|ps| - 1];
      }
    }
  }

  /** One saved page, read back. */
  lemma SavedPageReads(e: Entries, id: string, p: PageAnswer)
    ensures var e' := SavePage(e, Some(id), p);
      && AgreeOutside(e, e', {AnchorKey(id), LastExecutionKey(id)})
      && ReadAnchor(e', Some(id)) == p.anchor
      && ReadLastExecutionDate(e', Some(id)) == Some(p.now)
      && ReadPredicate(e', Some(id)) == ReadPredicate(e, Some(id))
  {
    var e1 := SaveAnchor(e, Some(id), p.anchor);
    AnchorRoundTrip(e, id, p.anchor);
    SaveAnchorKeepsOthers(e, id, p.anchor, p.now);
    SaveAnchorKeepsOthers(e1, id, p.anchor, p.now);
    LastExecutionRoundTrip(e1, id, p.now);
  }

  /** Without an identifier nothing is written. */
  lemma {:induction false} ApplyPagesWithoutId(e: Entries, ps: seq<PageAnswer>)
    ensures ApplyPages(e, None, ps) == e
    decreases |ps|
  {
    if ps != [] {
      ApplyPagesWithoutId(e, ps[1..]);
    }
  }

  /**
   * How a pass ended, given that pages[..k] came back full and without error:
   * the answers ran out, or page k trapped, or page k failed, or page k was
   * the short last page.
   */
  predicate EndsAt(env: PassEnv, e0: Entries, pages: seq<PageAnswer>, k: nat, c: Completion, e: Entries)
  {
    var id := IdOf(env.t);
    && k <= |pages|
    && (forall j :: 0 <= j < k ==> !Crashes(pages[j]) && PageError(env, pages[j]).None? && Full(env, pages[j]))
    && (if k == |pages| then c.Pending? && e == ApplyPages(e0, id, pages)
        else if Crashes(pages[k]) then c == Crashed && e == ApplyPages(e0, id, pages[..k])
        else if PageError(env, pages[k]).Some? then
          c == Completed(false, PageError(env, pages[k])) && e == ApplyPages(e0, id, pages[..k])
        else !Full(env, pages[k]) && c == Completed(true, None) && e == ApplyPages(e0, id, pages[..k + 1]))
  }

  /**
   * The whole pass. Some number k of pages come back without error and
   * full, and each is saved; then either the answers run out (the pass is
   * pending), or page k fails and the pass completes with (false, its
   * error) having written nothing for it, or page k succeeds with fewer
   * than `limit` objects, is saved, and the pass completes with (true, nil).
   */
  lemma {:induction false} PassLaw(env: PassEnv, s: PassState, pages: seq<PageAnswer>)
    ensures exists k: nat :: EndsAt(env, s.entries, pages, k, Pass(env, s, pages).0, Pass(env, s, pages).1.entries)
    decreases |pages|
  {
    var id := IdOf(env.t);
    var r := Pass(env, s, pages);
    if pages == [] {
      assert EndsAt(env, s.entries, pages, 0, r.0, r.1.entries);
    } else {
      var p := pages[0];
      assert pages[..0] == [];
      assert pages[..1][1..] == [];
      if Crashes(p) || PageError(env, p).Some? || !Full(env, p) {
        assert EndsAt(env, s.entries, pages, 0, r.0, r.1.entries);
      } else {
        var sync := SyncOf(env, p);
        var units := if sync.assignsUnits then sync.units else s.units;
        var e := SavePage(s.entries, id, p);
        var s1 := PassState(e, s.events + [Synchronize(p.objects, p.deleted)] + [ExecuteAnchoredQuery(QueryFor(env, e))], units);
        var rest := pages[1..];
        assert r == Pass(env, s1, rest);
        PassLaw(env, s1, rest);
        var k' :| EndsAt(env, e, rest, k', r.0, r.1.entries);
        EndsAtShift(env, s.entries, pages, k', r.0, r.1.entries);
      }
    }
  }

  /** A full, successful first page adds one to where the pass ends. */
  lemma EndsAtShift(env: PassEnv, e0: Entries, pages: seq<PageAnswer>, k: nat, c: Completion, e: Entries)
    requires pages != [] && !Crashes(pages[0]) && PageError(env, pages[0]).None? && Full(env, pages[0])
    requires EndsAt(env, SavePage(e0, IdOf(env.t), pages[0]), pages[1..], k, c, e)
    ensures EndsAt(env, e0, pages, k + 1, c, e)
  {
    var id := IdOf(env.t);
    var rest := pages[1..];
    var e1 := SavePage(e0, id, pages[0]);
    assert pages[..k + 1][0] == pages[0] && pages[..k + 1][1..] == rest[..k];
    assert ApplyPages(e0, id, pages[..k + 1]) == ApplyPages(e1, id, rest[..k]);
    assert ApplyPages(e0, id, pages) == ApplyPages(e1, id, rest);
    if k < |rest| {
      assert pages[k + 1] == rest[k];
      assert pages[..k + 2][0] == pages[0] && pages[..k + 2][1..] == rest[..k + 1];
      assert ApplyPages(e0, id, pages[..k + 2]) == ApplyPages(e1, id, rest[..k + 1]);
    }
    assert forall j :: 1 <= j < k + 1 ==> pages[j] == rest[j - 1];
    if k < |rest| && Crashes(rest[k]) {
      assert pages[k + 1] == rest[k];
    }
  }

  /**
   * A batch size of zero or less is used as given: every page is then full,
   * so however many answers come back the pass never completes with
   * (true, nil); it only ends on an error or a trap, or keeps querying.
   */
  lemma {:induction false} NonPositiveLimitNeverSucceeds(env: PassEnv, s: PassState, pages: seq<PageAnswer>)
    requires Limit(env.delegate) <= 0
    ensures var c := Pass(env, s, pages).0;
      !(c.Completed? && c.success) && (c.Completed? ==> c.error.Some?)
    decreases |pages|
  {
    if pages != [] {
      var r := PageStep(env, s, pages[0]);
      assert Full(env, pages[0]);
      if r.0.Pending? {
        NonPositiveLimitNeverSucceeds(env, r.1, pages[1..]);
      }
    }
  }

  /**
   * Pagination: after a page that succeeded, another query runs exactly when
   * the page was full, and it starts from the anchor just saved; otherwise
   * the pass completes with (true, nil).
   */
  lemma PaginationLaw(env: PassEnv, s: PassState, pages: seq<PageAnswer>)
    requires pages != [] && !Crashes(pages[0]) && PageError(env, pages[0]).None?
    requires IdOf(env.t).Some?
    ensures var p := pages[0];
      var e := SavePage(s.entries, IdOf(env.t), p);
      var sync := SyncOf(env, p);
      var units := if sync.assignsUnits then sync.units else s.units;
      var next := AnchoredQuery(env.sampleType, ReadPredicate(s.entries, IdOf(env.t)), p.anchor, Limit(env.delegate));
      && (Full(env, p) ==>
            Pass(env, s, pages) ==
              Pass(env, PassState(e, s.events + [Synchronize(p.objects, p.deleted), ExecuteAnchoredQuery(next)], units), pages[1..]))
      && (!Full(env, p) ==>
            Pass(env, s, pages) ==
              (Completed(true, None), PassState(e, s.events + [Synchronize(p.objects, p.deleted)] + Finish(env, None), units)))
  {
    var p := pages[0];
    var id := IdOf(env.t).value;
    SavedPageReads(s.entries, id, p);
    var e := SavePage(s.entries, IdOf(env.t), p);
    assert QueryFor(env, e).anchor == p.anchor;
    assert s.events + [Synchronize(p.objects, p.deleted)] + [ExecuteAnchoredQuery(QueryFor(env, e))]
        == s.events + [Synchronize(p.objects, p.deleted), ExecuteAnchoredQuery(QueryFor(env, e))];
  }

  /**
   * A failing first page ends the pass with (false, error) and writes
   * nothing; a query error also skips the synchronizer.
   */
  lemma FailedPageWritesNothing(env: PassEnv, s: PassState, pages: seq<PageAnswer>)
    requires pages != [] && !Crashes(pages[0]) && PageError(env, pages[0]).Some?
    ensures var (c, s') := Pass(env, s, pages);
      && c == Completed(false, PageError(env, pages[0]))
      && s'.entries == s.entries
      && (pages[0].queryError.Some? ==> s'.events == s.events + Finish(env, pages[0].queryError))
  {
  }

  /**
   * A first answer without an error and without an object list traps in
   * the handler: nothing is synchronized, nothing is saved, the delegate and
   * the completion are never told, and no later page is asked for.
   */
  lemma CrashedPageWritesNothing(env: PassEnv, s: PassState, pages: seq<PageAnswer>)
    requires pages != [] && Crashes(pages[0])
    ensures Pass(env, s, pages) == (Crashed, s)
  {
  }

  /**
   * The delegate hears of the pass's end once, as the last call, with the
   * completion's error; a pending pass has not told it anything.
   */
  lemma {:induction false} PassFinishesOnce(env: PassEnv, s: PassState, pages: seq<PageAnswer>)
    ensures var (c, s') := Pass(env, s, pages);
      && |s.events| <= |s'.events| && s'.events[..|s.events|] == s.events
      && (forall i :: |s.events| <= i < |s'.events| - 1 ==> !s'.events[i].DidFinishExecution?)
      && (c.Completed? && env.delegate.Some? <==>
            |s'.events| > |s.events| && s'.events[|s'.events| - 1].DidFinishExecution?)
      && (c.Completed? && env.delegate.Some? ==> s'.events[|s'.events| - 1] == DidFinishExecution(c.error))
    decreases |pages|
  {
    if pages != [] {
      var p := pages[0];
      if p.queryError.None? && !Crashes(p) && SyncOf(env, p).error.None? && Full(env, p) {
        var sync := SyncOf(env, p);
        var units := if sync.assignsUnits then sync.units else s.units;
        var e := SavePage(s.entries, IdOf(env.t), p);
        var s1 := PassState(e, s.events + [Synchronize(p.objects, p.deleted)] + [ExecuteAnchoredQuery(QueryFor(env, e))], units);
        PassFinishesOnce(env, s1, pages[1..]);
        var s' := Pass(env, s1, pages[1..]).1;
        assert s'.events[..|s1.events|] == s1.events;
        assert s'.events[..|s.events|] == s1.events[..|s.events|];
        assert forall i :: |s.events| <= i < |s1.events| ==> s'.events[i] == s1.events[i];
      }
    }
  }
}
