/**
 * The serial handling of observer-query notifications (`handlerCompletions`
 * in HDSQueryObserver). Each notification is queued; only the one at the
 * front is served, by launching an anchored pass; when that pass finishes,
 * its completion handler is called and the next one is served.
 *
 * `Handle` and `Complete` state what `handleObservedQuery` and
 * `completeObservedQuery` do as written. `HandleFixed`, `ServeFront` and
 * `CompleteFixed` state the evidently intended discipline: the as-written
 * completion re-enqueues the second entry behind the others, so with three
 * or more waiting notifications no pass is launched and the queue stalls.
 */
module TriggerQueue {
  import opened Common
  import opened ObserverEvents

  /** How the front entry is served. */
  datatype Mode =
    | NotSample   // the query's type is not a sample type: acknowledged at once
    | Declined    // the delegate's shouldExecute answered false
    | Dispatch    // an anchored pass is launched

  function ModeOf(d: Option<Delegate>, e: HandlerEntry): Mode
  {
    if !e.query.objectType.isSample then NotSample
    else if d.Some? && !d.value.shouldExecute then Declined
    else Dispatch
  }

  /** The queue after a step and the calls the step made. */
  datatype Step = Step(queue: seq<HandlerEntry>, events: seq<ObserverEvent>)

  // ---------------------------------------------------------------------
  // As written

  /** `handleObservedQuery`: enqueue; serve only if the queue was empty. */
  function Handle(d: Option<Delegate>, q: seq<HandlerEntry>, e: HandlerEntry): Step
    decreases 2 * |q| + 3
  {
    var q' := q + [e];
    if |q'| > 1 then Step(q', [])
    else match ModeOf(d, e)
      case Dispatch => Step(q', [PassStarted(e.trigger)])
      case Declined => Complete(d, q')
      case NotSample =>
        var s := Complete(d, q');
        Step(s.queue, [Acknowledge(e.trigger)] + s.events)
  }

  /**
   * `completeObservedQuery`: acknowledge and drop the front entry, then take
   * the next one off the queue and hand it to `handleObservedQuery`.
   */
  function Complete(d: Option<Delegate>, q: seq<HandlerEntry>): Step
    decreases 2 * |q|
  {
    if |q| == 0 then Step(q, [])
    else
      var rest := q[1..];
      if |rest| == 0 then Step(rest, [Acknowledge(q[0].trigger)])
      else
        var s := Handle(d, rest[1..], rest[0]);
        Step(s.queue, [Acknowledge(q[0].trigger)] + s.events)
  }

  // ---------------------------------------------------------------------
  // Evidently intended

  /** Enqueue; serve the new entry when nothing else is waiting. */
  function HandleFixed(d: Option<Delegate>, q: seq<HandlerEntry>, e: HandlerEntry): Step
    decreases |q| + 1, 2
  {
    if |q| > 0 then Step(q + [e], []) else ServeFront(d, [e])
  }

  /** Serve the front entry: launch its pass, or acknowledge it and go on. */
  function ServeFront(d: Option<Delegate>, q: seq<HandlerEntry>): Step
    decreases |q|, 1
  {
    if q == [] then Step([], [])
    else if ModeOf(d, q[0]) == Dispatch then Step(q, [PassStarted(q[0].trigger)])
    else CompleteFixed(d, q)
  }

  /** Acknowledge and drop the front entry, then serve the new front in place. */
  function CompleteFixed(d: Option<Delegate>, q: seq<HandlerEntry>): Step
    decreases |q|, 0
  {
    if q == [] then Step([], [])
    else
      var s := ServeFront(d, q[1..]);
      Step(s.queue, [Acknowledge(q[0].trigger)] + s.events)
  }

  // ---------------------------------------------------------------------
  // Observations on a list of events

  function Triggers(q: seq<HandlerEntry>): (r: seq<nat>)
    ensures |r| == |q| && forall i :: 0 <= i < |q| ==> r[i] == q[i].trigger
  {
    seq(|q|, i requires 0 <= i < |q| => q[i].trigger)
  }

  /** The notifications acknowledged, in order. */
  function Acked(ev: seq<ObserverEvent>): seq<nat>
  {
    if ev == [] then []
    else (if ev[0].Acknowledge? then [ev[0].trigger] else []) + Acked(ev[1..])
  }

  /** The notifications a pass was launched for, in order. */
  function Started(ev: seq<ObserverEvent>): seq<nat>
  {
    if ev == [] then []
    else (if ev[0].PassStarted? then [ev[0].trigger] else []) + Started(ev[1..])
  }

  lemma AckFirst(x: nat, ev: seq<ObserverEvent>)
    ensures Acked([Acknowledge(x)] + ev) == [x] + Acked(ev)
    ensures Started([Acknowledge(x)] + ev) == Started(ev)
  {
    assert ([Acknowledge(x)] + ev)[1..] == ev;
  }

  /** The notifications of a queue, with the first one moved to the end. */
  lemma RotateTriggers(q: seq<HandlerEntry>)
    requires |q| > 0
    ensures multiset(Triggers(q[1..] + [q[0]])) == multiset(Triggers(q))
  {
    assert Triggers(q[1..] + [q[0]]) == Triggers(q)[1..] + [Triggers(q)[0]];
    assert Triggers(q) == [Triggers(q)[0]] + Triggers(q)[1..];
  }

  /**
   * The system is healthy when a pass is in flight exactly while the queue
   * is not empty, and it serves the front entry.
   */
  predicate Healthy(q: seq<HandlerEntry>, inFlight: Option<nat>)
  {
    (q == [] <==> inFlight.None?) && (q != [] ==> inFlight == Some(q[0].trigger))
  }

  /** The pass in flight after a notification is handled. */
  function AfterTrigger(inFlight: Option<nat>, ev: seq<ObserverEvent>): Option<nat>
  {
    var s := Started(ev);
    if s != [] then Some(s[|s| - 1]) else inFlight
  }

  /** The pass in flight after the current pass finished and the queue advanced. */
  function AfterPass(ev: seq<ObserverEvent>): Option<nat>
  {
    var s := Started(ev);
    if s != [] then Some(s[|s| - 1]) else None
  }

  predicate AllSample(q: seq<HandlerEntry>)
  {
    forall i :: 0 <= i < |q| ==> q[i].query.objectType.isSample
  }

  // ---------------------------------------------------------------------
  // Laws of the as-written queue

  /** A notification that arrives while another is queued waits; nothing is called. */
  lemma HandleWhileBusy(d: Option<Delegate>, q: seq<HandlerEntry>, e: HandlerEntry)
    requires |q| > 0
    ensures Handle(d, q, e) == Step(q + [e], [])
  {
  }

  /**
   * A notification that arrives at an empty queue is served at once: its pass
   * is launched and it stays queued, or it is acknowledged and dropped. A
   * non-sample query is acknowledged twice.
   */
  lemma HandleWhenIdle(d: Option<Delegate>, e: HandlerEntry)
    ensures Handle(d, [], e) == match ModeOf(d, e)
      case Dispatch => Step([e], [PassStarted(e.trigger)])
      case Declined => Step([], [Acknowledge(e.trigger)])
      case NotSample => Step([], [Acknowledge(e.trigger), Acknowledge(e.trigger)])
  {
    assert [] + [e] == [e];
  }

  /**
   * Finishing a pass always acknowledges the finished notification first,
   * however many are waiting, and removes it from the queue.
   */
  lemma CompleteAcksFront(d: Option<Delegate>, q: seq<HandlerEntry>)
    requires q != []
    ensures Complete(d, q).events != [] && Complete(d, q).events[0] == Acknowledge(q[0].trigger)
    ensures |Complete(d, q).queue| < |q|
  {
    if |q| == 2 {
      var e := q[1];
      assert q[1..][1..] == [] && [] + [e] == [e];
      assert |Complete(d, [e]).queue| == 0;
    }
  }

  /** With one notification waiting behind the finished one, that one is served next. */
  lemma CompleteWithOneWaiting(d: Option<Delegate>, q: seq<HandlerEntry>)
    requires |q| == 2 && ModeOf(d, q[1]) == Dispatch
    ensures Complete(d, q) == Step([q[1]], [Acknowledge(q[0].trigger), PassStarted(q[1].trigger)])
    ensures Healthy(Complete(d, q).queue, AfterPass(Complete(d, q).events))
  {
    assert q[1..][1..] == [] && [] + [q[1]] == [q[1]];
    AckFirst(q[0].trigger, [PassStarted(q[1].trigger)]);
  }

  /**
   * With two or more notifications waiting, the second is put back behind
   * the others and no pass is launched: the queue is not empty but nothing
   * serves it.
   */
  lemma CompleteStallsAsWritten(d: Option<Delegate>, q: seq<HandlerEntry>)
    requires |q| >= 3
    ensures Complete(d, q) == Step(q[2..] + [q[1]], [Acknowledge(q[0].trigger)])
    ensures !Healthy(Complete(d, q).queue, AfterPass(Complete(d, q).events))
  {
    assert q[1..][1..] == q[2..];
    AckFirst(q[0].trigger, []);
  }

  /** Three sample-type notifications observed while none is declined. */
  lemma ThreeNotificationsStall(t: ObjectType)
    requires t.isSample
    ensures var q := [HandlerEntry(ObserverQuery(t, None), 0), HandlerEntry(ObserverQuery(t, None), 1),
                      HandlerEntry(ObserverQuery(t, None), 2)];
      && Healthy(q, Some(0))
      && Complete(None, q) == Step([q[2], q[1]], [Acknowledge(0)])
      && Started(Complete(None, q).events) == []
  {
    var q := [HandlerEntry(ObserverQuery(t, None), 0), HandlerEntry(ObserverQuery(t, None), 1),
              HandlerEntry(ObserverQuery(t, None), 2)];
    CompleteStallsAsWritten(None, q);
    assert q[2..] + [q[1]] == [q[2], q[1]];
    AckFirst(0, []);
  }

  /** Handling a list of notifications one after the other. */
  function HandleAll(d: Option<Delegate>, q: seq<HandlerEntry>, es: seq<HandlerEntry>): Step
    decreases |es|
  {
    if es == [] then Step(q, [])
    else
      var s := Handle(d, q, es[0]);
      var rest := HandleAll(d, s.queue, es[1..]);
      Step(rest.queue, s.events + rest.events)
  }

  /**
   * Once the queue is not empty, new notifications only pile up: after a
   * stall, no later notification ever launches a pass.
   */
  lemma {:induction false} StallIsPermanent(d: Option<Delegate>, q: seq<HandlerEntry>, es: seq<HandlerEntry>)
    requires q != []
    ensures HandleAll(d, q, es) == Step(q + es, [])
    decreases |es|
  {
    if es != [] {
      var q' := q + [es[0]];
      HandleAllFirst(d, q, es);
      HandleWhileBusy(d, q, es[0]);
      StallIsPermanent(d, q', es[1..]);
      assert q' + es[1..] == q + es;
    }
  }

  lemma HandleAllFirst(d: Option<Delegate>, q: seq<HandlerEntry>, es: seq<HandlerEntry>)
    requires es != []
    ensures var s := Handle(d, q, es[0]);
      HandleAll(d, q, es) == Step(HandleAll(d, s.queue, es[1..]).queue, s.events + HandleAll(d, s.queue, es[1..]).events)
  {
  }

  /**
   * For sample-type notifications, the as-written queue loses none and
   * acknowledges none twice: what was queued is either still queued or
   * acknowledged.
   */
  lemma {:induction false} HandleConserves(d: Option<Delegate>, q: seq<HandlerEntry>, e: HandlerEntry)
    requires AllSample(q) && e.query.objectType.isSample
    ensures multiset(Triggers(q + [e])) ==
      multiset(Triggers(Handle(d, q, e).queue)) + multiset(Acked(Handle(d, q, e).events))
    decreases 2 * |q| + 3
  {
    if |q| == 0 && ModeOf(d, e) == Declined {
      assert q + [e] == [e];
      CompleteConserves(d, [e]);
    }
  }

  lemma {:induction false} CompleteConserves(d: Option<Delegate>, q: seq<HandlerEntry>)
    requires AllSample(q)
    ensures multiset(Triggers(q)) ==
      multiset(Triggers(Complete(d, q).queue)) + multiset(Acked(Complete(d, q).events))
    decreases 2 * |q|
  {
    if |q| > 0 {
      var rest := q[1..];
      assert Triggers(q) == [q[0].trigger] + Triggers(rest);
      if |rest| == 0 {
        AckFirst(q[0].trigger, []);
      } else {
        var s := Handle(d, rest[1..], rest[0]);
        assert Complete(d, q) == Step(s.queue, [Acknowledge(q[0].trigger)] + s.events);
        HandleConserves(d, rest[1..], rest[0]);
        RotateTriggers(rest);
        AckConserves(q[0].trigger, Triggers(q), Triggers(rest), Triggers(s.queue), s.events);
      }
    }
  }

  /** Acknowledging the front keeps the count when the rest kept it. */
  lemma AckConserves(x: nat, all: seq<nat>, rest: seq<nat>, left: seq<nat>, ev: seq<ObserverEvent>)
    requires all == [x] + rest && multiset(rest) == multiset(left) + multiset(Acked(ev))
    ensures multiset(all) == multiset(left) + multiset(Acked([Acknowledge(x)] + ev))
  {
    AckFirst(x, ev);
  }

  // ---------------------------------------------------------------------
  // Laws of the intended queue

  /**
   * `s` drains `q` front to back: what remains is a suffix of `q`, every
   * entry before it is acknowledged once and in arrival order, and a pass is
   * launched for the new front, if any, and for nothing else.
   */
  predicate Drains(d: Option<Delegate>, q: seq<HandlerEntry>, s: Step)
  {
    LeavesSuffix(q, s) && AcksPrefix(q, s) && StartsFront(s) && FrontDispatches(d, s)
  }

  /** What remains queued is a suffix of `q`. */
  predicate LeavesSuffix(q: seq<HandlerEntry>, s: Step)
  {
    |s.queue| <= |q| && s.queue == q[|q| - |s.queue|..]
  }

  /** The entries no longer queued are acknowledged, once each and in order. */
  predicate AcksPrefix(q: seq<HandlerEntry>, s: Step)
  {
    |s.queue| <= |q| && Acked(s.events) == Triggers(q[..|q| - |s.queue|])
  }

  /** A pass is launched for the front entry, if any, and for nothing else. */
  predicate StartsFront(s: Step)
  {
    Started(s.events) == (if s.queue == [] then [] else [s.queue[0].trigger])
  }

  /** The front entry, if any, is one whose pass can run. */
  predicate FrontDispatches(d: Option<Delegate>, s: Step)
  {
    s.queue != [] ==> ModeOf(d, s.queue[0]) == Dispatch
  }

  /** Serving drains the queue. */
  lemma {:induction false} ServeFrontLaw(d: Option<Delegate>, q: seq<HandlerEntry>)
    ensures Drains(d, q, ServeFront(d, q))
    decreases |q|, 1
  {
    if q != [] {
      if ModeOf(d, q[0]) == Dispatch {
        LaunchDrains(d, q, ServeFront(d, q));
      } else {
        CompleteFixedLaw(d, q);
      }
    }
  }

  /** Launching the pass of a dispatchable front entry drains nothing yet. */
  lemma LaunchDrains(d: Option<Delegate>, q: seq<HandlerEntry>, s: Step)
    requires q != [] && ModeOf(d, q[0]) == Dispatch && s == Step(q, [PassStarted(q[0].trigger)])
    ensures Drains(d, q, s)
  {
    LaunchEvents(q[0].trigger);
    assert q[..0] == [] && q[0..] == q;
    assert |Triggers(q[..0])| == 0;
  }

  lemma LaunchEvents(x: nat)
    ensures Acked([PassStarted(x)]) == [] && Started([PassStarted(x)]) == [x]
  {
    assert [PassStarted(x)][1..] == [];
  }

  /** Finishing a pass drains the queue, and removes at least the front entry. */
  lemma {:induction false} CompleteFixedLaw(d: Option<Delegate>, q: seq<HandlerEntry>)
    requires q != []
    ensures Drains(d, q, CompleteFixed(d, q)) && |CompleteFixed(d, q).queue| < |q|
    decreases |q|, 0
  {
    var s := ServeFront(d, q[1..]);
    ServeFrontLaw(d, q[1..]);
    AckThenServe(d, q, s, CompleteFixed(d, q));
  }

  /** Acknowledging the front and then draining the rest drains the whole queue. */
  lemma AckThenServe(d: Option<Delegate>, q: seq<HandlerEntry>, s: Step, out: Step)
    requires q != [] && out == Step(s.queue, [Acknowledge(q[0].trigger)] + s.events)
    requires Drains(d, q[1..], s)
    ensures Drains(d, q, out) && |out.queue| < |q|
  {
    AckKeepsSuffix(q, s.queue);
    AckExtendsPrefix(q, s.queue, s.events);
    AckFirst(q[0].trigger, s.events);
  }

  lemma AckKeepsSuffix(q: seq<HandlerEntry>, rest: seq<HandlerEntry>)
    requires q != [] && |rest| <= |q| - 1 && rest == q[1..][|q| - 1 - |rest|..]
    ensures rest == q[|q| - |rest|..] && |rest| < |q|
  {
    var k := |q| - 1 - |rest|;
    assert q[1..][k..] == q[k + 1..];
  }

  lemma AckExtendsPrefix(q: seq<HandlerEntry>, rest: seq<HandlerEntry>, ev: seq<ObserverEvent>)
    requires q != [] && |rest| <= |q| - 1 && Acked(ev) == Triggers(q[1..][..|q| - 1 - |rest|])
    ensures Acked([Acknowledge(q[0].trigger)] + ev) == Triggers(q[..|q| - |rest|])
  {
    var k := |q| - 1 - |rest|;
    AckFirst(q[0].trigger, ev);
    assert q[..k + 1] == [q[0]] + q[1..][..k];
  }

  /**
   * The intended queue keeps the system healthy: handling a notification and
   * finishing the pass in flight both leave a pass in flight exactly while
   * something is queued, serving the front entry.
   */
  lemma HandleFixedHealthy(d: Option<Delegate>, q: seq<HandlerEntry>, inFlight: Option<nat>, e: HandlerEntry)
    requires Healthy(q, inFlight)
    ensures Healthy(HandleFixed(d, q, e).queue, AfterTrigger(inFlight, HandleFixed(d, q, e).events))
  {
    if |q| == 0 {
      var s := ServeFront(d, [e]);
      assert HandleFixed(d, q, e) == s;
      ServeFrontLaw(d, [e]);
      StartsFrontHealthy(s);
    } else {
      assert HandleFixed(d, q, e) == Step(q + [e], []);
      assert Started([]) == [];
      assert (q + [e])[0] == q[0];
    }
  }

  lemma CompleteFixedHealthy(d: Option<Delegate>, q: seq<HandlerEntry>, inFlight: Option<nat>)
    requires Healthy(q, inFlight) && inFlight.Some?
    ensures Healthy(CompleteFixed(d, q).queue, AfterPass(CompleteFixed(d, q).events))
  {
    CompleteFixedLaw(d, q);
    StartsFrontHealthy(CompleteFixed(d, q));
  }

  /** A step that launches a pass for its front entry, and only for it, leaves the system healthy. */
  lemma StartsFrontHealthy(s: Step)
    requires StartsFront(s)
    ensures Healthy(s.queue, AfterPass(s.events))
  {
  }

  /** A non-sample notification is acknowledged once by the intended queue. */
  lemma HandleFixedWhenIdle(d: Option<Delegate>, e: HandlerEntry)
    ensures HandleFixed(d, [], e) == match ModeOf(d, e)
      case Dispatch => Step([e], [PassStarted(e.trigger)])
      case Declined => Step([], [Acknowledge(e.trigger)])
      case NotSample => Step([], [Acknowledge(e.trigger)])
  {
    if ModeOf(d, e) != Dispatch {
      assert [e][1..] == [];
      assert ServeFront(d, []) == Step([], []);
      assert CompleteFixed(d, [e]) == Step([], [Acknowledge(e.trigger)] + []);
      assert [Acknowledge(e.trigger)] + [] == [Acknowledge(e.trigger)];
    }
  }
}
