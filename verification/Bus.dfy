/**
 The event bus: publishers that hold the read lock while they offer an event to one subscriber
 after another, subscribers that come and go under the write lock, and consumers that may fall
 behind. Steps of all of them interleave.
 */
module Bus {
  import opened Text
  import Core

  type Event = Core.Event

  const SUBSCRIBER_BUFFER := 256

  /** An event as one subscriber was offered it, and by which publish. */
  datatype Offer = Offer(publish: nat, event: Event)

  /**
   One subscriber. taken, offered and kept are histories: what its consumer has received, every
   offer made to it and which of those went into the buffer; since and until bound the publishes
   that began while it was subscribed.
   */
  datatype Subscriber = Subscriber(
    buffer: seq<Event>, drops: nat, closed: bool,
    taken: seq<Event>, offered: seq<Offer>, kept: seq<nat>, since: nat, until: Option<nat>)

  /**
   One publish: the subscribers it began with and those it has still to offer to. Publishes are
   numbered as they take the read lock; ended says how many had taken it when this one let go.
   */
  datatype Publication = Publication(event: Event, targets: set<nat>, todo: set<nat>, ended: Option<nat>)

  datatype State = State(subs: seq<Subscriber>, live: set<nat>, publishes: seq<Publication>)

  const EMPTY := State([], {}, [])

  datatype Action =
    | Subscribe
    | Begin(event: Event)
    | OfferTo(p: nat, k: nat)
    | End(p: nat)
    | Remove(k: nat)
    | CloseChannel(k: nat)
    | Take(k: nat)

  /** Nobody holds the read lock. */
  predicate Unlocked(s: State) { forall p :: 0 <= p < |s.publishes| ==> s.publishes[p].ended.Some? }

  predicate Enabled(s: State, a: Action) {
    match a
    case Subscribe => Unlocked(s)
    case Begin(_) => true
    case OfferTo(p, k) => p < |s.publishes| && s.publishes[p].ended.None? && k in s.publishes[p].todo && k < |s.subs|
    case End(p) => p < |s.publishes| && s.publishes[p].ended.None? && s.publishes[p].todo == {}
    case Remove(k) => Unlocked(s) && k in s.live && k < |s.subs|
    case CloseChannel(k) => k < |s.subs| && k !in s.live && s.subs[k].until.Some? && !s.subs[k].closed
    case Take(k) => k < |s.subs| && s.subs[k].buffer != []
  }

  /** The non-blocking send: into the buffer if there is room, else counted as a drop. */
  function Offered(x: Subscriber, p: nat, e: Event): Subscriber {
    var y := x.(offered := x.offered + [Offer(p, e)]);
    if |x.buffer| < SUBSCRIBER_BUFFER then y.(buffer := x.buffer + [e], kept := x.kept + [|x.offered|])
    else y.(drops := x.drops + 1)
  }

  function Apply(s: State, a: Action): State
    requires Enabled(s, a)
  {
    match a
    case Subscribe =>
      s.(subs := s.subs + [Subscriber([], 0, false, [], [], [], |s.publishes|, None)], live := s.live + {|s.subs|})
    case Begin(e) => s.(publishes := s.publishes + [Publication(e, s.live, s.live, None)])
    case OfferTo(p, k) =>
      var publish := s.publishes[p];
      s.(subs := s.subs[k := Offered(s.subs[k], p, publish.event)],
         publishes := s.publishes[p := publish.(todo := publish.todo - {k})])
    case End(p) => s.(publishes := s.publishes[p := s.publishes[p].(ended := Some(|s.publishes|))])
    case Remove(k) =>
      s.(live := s.live - {k}, subs := s.subs[k := s.subs[k].(until := Some(|s.publishes|))])
    case CloseChannel(k) => s.(subs := s.subs[k := s.subs[k].(closed := true)])
    case Take(k) =>
      var x := s.subs[k];
      s.(subs := s.subs[k := x.(buffer := x.buffer[1..], taken := x.taken + [x.buffer[0]])])
  }

  predicate Runs(s: State, run: seq<Action>)
    decreases |run|
  {
    run == [] || (Enabled(s, run[0]) && Runs(Apply(s, run[0]), run[1..]))
  }

  function After(s: State, run: seq<Action>): State
    requires Runs(s, run)
    decreases |run|
  {
    if run == [] then s else After(Apply(s, run[0]), run[1..])
  }

  lemma {:induction false} Extend(s: State, run: seq<Action>, a: Action)
    requires Runs(s, run) && Enabled(After(s, run), a)
    ensures Runs(s, run + [a]) && After(s, run + [a]) == Apply(After(s, run), a)
    decreases |run|
  {
    if run == [] {
      assert After(Apply(s, a), []) == Apply(s, a);
    } else {
      Extend(Apply(s, run[0]), run[1..], a);
      assert (run + [a])[1..] == run[1..] + [a];
    }
  }

  ghost predicate Ascending(xs: seq<nat>, bound: nat) {
    && (forall i, j :: 0 <= i < j < |xs| ==> xs[i] < xs[j])
    && (forall i :: 0 <= i < |xs| ==> xs[i] < bound)
  }

  /** The events at the kept positions, in order. */
  ghost function Picked(offered: seq<Offer>, kept: seq<nat>): (es: seq<Event>)
    requires Ascending(kept, |offered|)
    ensures |es| == |kept|
    ensures forall i :: 0 <= i < |kept| ==> es[i] == offered[kept[i]].event
  {
    seq(|kept|, i requires 0 <= i < |kept| => offered[kept[i]].event)
  }

  ghost predicate BufferOk(x: Subscriber) {
    && Ascending(x.kept, |x.offered|)
    && x.taken + x.buffer == Picked(x.offered, x.kept)
    && |x.kept| + x.drops == |x.offered|
    && |x.buffer| <= SUBSCRIBER_BUFFER
  }

  lemma OfferedOk(x: Subscriber, p: nat, e: Event)
    requires BufferOk(x)
    ensures BufferOk(Offered(x, p, e))
  {
    var y := Offered(x, p, e);
    if |x.buffer| < SUBSCRIBER_BUFFER {
      assert Ascending(y.kept, |y.offered|);
      assert Picked(y.offered, y.kept) == Picked(x.offered, x.kept) + [e];
    } else {
      assert Picked(y.offered, y.kept) == Picked(x.offered, x.kept);
    }
  }

  /** Publish p began while subscriber k was subscribed. */
  predicate Covers(x: Subscriber, p: nat) { x.since <= p && (x.until.None? || p < x.until.value) }

  ghost predicate Once(offered: seq<Offer>) {
    forall i, j :: 0 <= i < j < |offered| ==> offered[i].publish != offered[j].publish
  }

  /** Publish p has made its offer to subscriber k. */
  ghost predicate Made(x: Subscriber, p: nat) { exists i :: 0 <= i < |x.offered| && x.offered[i].publish == p }

  ghost predicate OffersOk(s: State, k: nat)
    requires k < |s.subs|
  {
    var x := s.subs[k];
    && Once(x.offered)
    && (forall i :: 0 <= i < |x.offered| ==>
          && x.offered[i].publish < |s.publishes|
          && s.publishes[x.offered[i].publish].event == x.offered[i].event)
    && (forall p :: 0 <= p < |s.publishes| ==>
          && (k in s.publishes[p].targets <==> Covers(x, p))
          && (Made(x, p) <==> k in s.publishes[p].targets && k !in s.publishes[p].todo))
  }

  /** Locking: whoever holds the read lock has only live subscribers left, none of them closed. */
  ghost predicate LocksOk(s: State) {
    && (forall k :: k in s.live ==> k < |s.subs| && s.subs[k].until.None? && !s.subs[k].closed)
    && (forall k :: 0 <= k < |s.subs| && s.subs[k].until.None? ==> k in s.live)
    && (forall k :: 0 <= k < |s.subs| && s.subs[k].until.Some? ==>
          s.subs[k].since <= s.subs[k].until.value <= |s.publishes|)
    && (forall k :: 0 <= k < |s.subs| ==> s.subs[k].since <= |s.publishes|)
    && (forall p :: 0 <= p < |s.publishes| ==>
          && s.publishes[p].todo <= s.publishes[p].targets
          && (forall k :: k in s.publishes[p].targets ==> k < |s.subs|)
          && (s.publishes[p].ended.None? ==> s.publishes[p].todo <= s.live)
          && (s.publishes[p].ended.Some? ==> s.publishes[p].todo == {}))
  }

  /** Publish p began after q did and before q ended. */
  predicate Overlap(s: State, q: nat, p: nat)
    requires q < |s.publishes|
  {
    q < p && (s.publishes[q].ended.None? || p < s.publishes[q].ended.value)
  }

  /** An offer came before that of an earlier publish only if the two publishes overlapped. */
  ghost predicate TurnsOk(s: State, offered: seq<Offer>) {
    && (forall i :: 0 <= i < |offered| ==> offered[i].publish < |s.publishes|)
    && (forall i, j :: 0 <= i < j < |offered| && offered[j].publish < offered[i].publish ==>
          Overlap(s, offered[j].publish, offered[i].publish))
  }

  ghost predicate Ok(s: State) {
    LocksOk(s) && forall k :: 0 <= k < |s.subs| ==>
        BufferOk(s.subs[k]) && OffersOk(s, k) && TurnsOk(s, s.subs[k].offered)
  }

  lemma LocksStep(s: State, a: Action)
    requires LocksOk(s) && Enabled(s, a)
    ensures LocksOk(Apply(s, a))
  {
  }

  lemma BufferStep(s: State, a: Action, k: nat)
    requires Enabled(s, a) && k < |Apply(s, a).subs| && (k < |s.subs| ==> BufferOk(s.subs[k]))
    ensures BufferOk(Apply(s, a).subs[k])
  {
    if a.OfferTo? && a.k == k {
      OfferedOk(s.subs[k], a.p, s.publishes[a.p].event);
    } else if a.Take? && a.k == k {
      var x := s.subs[k];
      assert x.buffer == [x.buffer[0]] + x.buffer[1..];
    }
  }

  lemma MadeMore(x: Subscriber, p: nat, e: Event, q: nat)
    ensures Made(Offered(x, p, e), q) <==> Made(x, q) || q == p
  {
    var y := Offered(x, p, e);
    assert y.offered == x.offered + [Offer(p, e)];
    if Made(x, q) {
      var i :| 0 <= i < |x.offered| && x.offered[i].publish == q;
      assert y.offered[i].publish == q;
    }
    assert y.offered[|x.offered|].publish == p;
  }

  lemma OfferStep(s: State, p: nat, k: nat)
    requires LocksOk(s) && Enabled(s, OfferTo(p, k)) && OffersOk(s, k)
    ensures OffersOk(Apply(s, OfferTo(p, k)), k)
  {
    var x, t := s.subs[k], Apply(s, OfferTo(p, k));
    assert !Made(x, p);
    forall q | 0 <= q < |t.publishes|
      ensures Made(t.subs[k], q) <==> k in t.publishes[q].targets && k !in t.publishes[q].todo
    {
      MadeMore(x, p, s.publishes[p].event, q);
    }
    forall i | 0 <= i < |x.offered| ensures x.offered[i].publish != p {
      if x.offered[i].publish == p { assert Made(x, p); }
    }
  }

  /** The other steps make no offer to k, and leave its subscription or end it. */
  lemma OffersElsewhere(s: State, a: Action, k: nat)
    requires LocksOk(s) && Enabled(s, a) && k < |s.subs| && OffersOk(s, k) && !(a.OfferTo? && a.k == k)
    ensures OffersOk(Apply(s, a), k)
  {
    var t := Apply(s, a);
    assert t.subs[k].offered == s.subs[k].offered;
    forall q | 0 <= q < |t.publishes|
      ensures Made(t.subs[k], q) <==> k in t.publishes[q].targets && k !in t.publishes[q].todo
      ensures k in t.publishes[q].targets <==> Covers(t.subs[k], q)
    {
      assert Made(t.subs[k], q) <==> Made(s.subs[k], q);
      if a.Begin? && q == |s.publishes| {
        assert !Made(s.subs[k], q);
      }
    }
  }

  /** A publish that is making an offer has not ended, so nothing can overtake one that has. */
  lemma TurnsStep(s: State, a: Action, k: nat)
    requires Enabled(s, a) && k < |Apply(s, a).subs| && (k < |s.subs| ==> TurnsOk(s, s.subs[k].offered))
    ensures TurnsOk(Apply(s, a), Apply(s, a).subs[k].offered)
  {
  }

  lemma NewcomerOffers(s: State)
    requires LocksOk(s) && Enabled(s, Subscribe)
    ensures OffersOk(Apply(s, Subscribe), |s.subs|)
  {
  }

  lemma Step(s: State, a: Action)
    requires Ok(s) && Enabled(s, a)
    ensures Ok(Apply(s, a))
  {
    var t := Apply(s, a);
    LocksStep(s, a);
    forall k | 0 <= k < |t.subs| ensures BufferOk(t.subs[k]) && OffersOk(t, k) && TurnsOk(t, t.subs[k].offered) {
      BufferStep(s, a, k);
      TurnsStep(s, a, k);
      if k == |s.subs| {
        NewcomerOffers(s);
      } else if a.OfferTo? && a.k == k {
        OfferStep(s, a.p, k);
      } else {
        OffersElsewhere(s, a, k);
      }
    }
  }

  lemma {:induction false} Always(s: State, run: seq<Action>)
    requires Ok(s) && Runs(s, run)
    ensures Ok(After(s, run))
    decreases |run|
  {
    if run != [] {
      Step(s, run[0]);
      Always(Apply(s, run[0]), run[1..]);
    }
  }

  /** No interleaving of publishes and cancels sends on a closed channel. */
  lemma NeverSendsOnClosed(run: seq<Action>, p: nat, k: nat)
    requires Runs(EMPTY, run) && Enabled(After(EMPTY, run), OfferTo(p, k))
    ensures !After(EMPTY, run).subs[k].closed
  {
    Always(EMPTY, run);
  }

  ghost function Publishers(offered: seq<Offer>): set<nat> {
    set i | 0 <= i < |offered| :: offered[i].publish
  }

  lemma {:induction false} PublishersCount(offered: seq<Offer>)
    requires Once(offered)
    ensures |Publishers(offered)| == |offered|
  {
    if offered != [] {
      var n := |offered| - 1;
      PublishersCount(offered[..n]);
      assert Publishers(offered) == Publishers(offered[..n]) + {offered[n].publish};
    }
  }

  ghost function Interval(lo: nat, hi: nat): (ps: set<nat>)
    requires lo <= hi
    ensures forall p :: p in ps <==> lo <= p < hi
    decreases hi - lo
  {
    if lo == hi then {} else Interval(lo, hi - 1) + {hi - 1}
  }

  lemma {:induction false} IntervalCount(lo: nat, hi: nat)
    requires lo <= hi
    ensures |Interval(lo, hi)| == hi - lo
    decreases hi - lo
  {
    if lo < hi {
      IntervalCount(lo, hi - 1);
    }
  }

  /** The publishes a subscriber should have been offered so far. */
  function Until(s: State, x: Subscriber): nat { if x.until.Some? then x.until.value else |s.publishes| }

  lemma OfferedAll(s: State, k: nat)
    requires k < |s.subs| && LocksOk(s) && OffersOk(s, k) && Unlocked(s)
    ensures var x := s.subs[k]; x.since <= Until(s, x) && |x.offered| == Until(s, x) - x.since
  {
    var x := s.subs[k];
    forall i | 0 <= i < |x.offered| ensures Covers(x, x.offered[i].publish) {
      assert Made(x, x.offered[i].publish);
    }
    assert Publishers(x.offered) == Interval(x.since, Until(s, x)) by {
      forall p: nat | x.since <= p < Until(s, x) ensures p in Publishers(x.offered) {
        assert Made(x, p);
      }
    }
    PublishersCount(x.offered);
    IntervalCount(x.since, Until(s, x));
  }

  /**
   Bus conservation, for every subscriber in every reachable state. What its consumer took plus
   what is buffered is an in-order selection of the offers; accepted plus dropped is offered; the
   buffer is bounded; each publish that began while it was subscribed offers its event once, so
   with none in progress accepted plus dropped is exactly the number published meanwhile; and of
   two publishes the later one's offer comes first only if it began before the earlier one ended.
   */
  lemma BusConservation(run: seq<Action>, k: nat)
    requires Runs(EMPTY, run) && k < |After(EMPTY, run).subs|
    ensures var s := After(EMPTY, run);
            var x := s.subs[k];
            && Ascending(x.kept, |x.offered|)
            && x.taken + x.buffer == Picked(x.offered, x.kept)
            && |x.taken| + |x.buffer| + x.drops == |x.offered|
            && |x.buffer| <= 256
            && Once(x.offered)
            && (forall i :: 0 <= i < |x.offered| ==>
                  && x.since <= x.offered[i].publish < Until(s, x) <= |s.publishes|
                  && s.publishes[x.offered[i].publish].event == x.offered[i].event)
            && (forall i, j :: 0 <= i < j < |x.offered| && x.offered[j].publish < x.offered[i].publish ==>
                  Overlap(s, x.offered[j].publish, x.offered[i].publish))
            && (Unlocked(s) ==> x.since <= Until(s, x) && |x.taken| + |x.buffer| + x.drops == Until(s, x) - x.since)
  {
    Always(EMPTY, run);
    var s := After(EMPTY, run);
    var x := s.subs[k];
    assert BufferOk(x) && OffersOk(s, k) && TurnsOk(s, x.offered);
    forall i | 0 <= i < |x.offered| ensures Covers(x, x.offered[i].publish) {
      assert Made(x, x.offered[i].publish);
    }
    if Unlocked(s) {
      OfferedAll(s, k);
    }
  }

  /**
   An offer never waits and loses an event only to a full buffer: with fewer than 256 buffered the
   event goes in last, otherwise one more drop is counted, and no other subscriber notices.
   */
  lemma LostOnlyWhenFull(run: seq<Action>, p: nat, k: nat)
    requires Runs(EMPTY, run) && Enabled(After(EMPTY, run), OfferTo(p, k))
    ensures var s := After(EMPTY, run);
            var t := Apply(s, OfferTo(p, k));
            var x, y := s.subs[k], t.subs[k];
            && (|x.buffer| < 256 ==> y.buffer == x.buffer + [s.publishes[p].event] && y.drops == x.drops)
            && (|x.buffer| == 256 ==> y.buffer == x.buffer && y.drops == x.drops + 1)
            && |x.buffer| <= 256 && |t.subs| == |s.subs|
            && forall j :: 0 <= j < |s.subs| && j != k ==> t.subs[j] == s.subs[j]
  {
    BusConservation(run, k);
  }

  /** No two publishes overlapped. */
  ghost predicate OneAtATime(s: State) {
    forall q, p :: 0 <= q < p < |s.publishes| ==> !Overlap(s, q, p)
  }

  /** The events of the publishes at the given positions. */
  ghost function Published(s: State, positions: seq<nat>): (es: seq<Event>)
    requires Ascending(positions, |s.publishes|)
    ensures |es| == |positions|
    ensures forall i :: 0 <= i < |positions| ==> es[i] == s.publishes[positions[i]].event
  {
    seq(|positions|, i requires 0 <= i < |positions| => s.publishes[positions[i]].event)
  }

  /**
   Publish order. Where publishes do not overlap, what a consumer took plus what is buffered is a
   subsequence of the events published since it subscribed, in the order they were published.
   */
  lemma PublishedInOrder(run: seq<Action>, k: nat) returns (positions: seq<nat>)
    requires Runs(EMPTY, run) && k < |After(EMPTY, run).subs| && OneAtATime(After(EMPTY, run))
    ensures var s := After(EMPTY, run);
            var x := s.subs[k];
            && Ascending(positions, |s.publishes|)
            && (forall i :: 0 <= i < |positions| ==> x.since <= positions[i] < Until(s, x))
            && x.taken + x.buffer == Published(s, positions)
  {
    BusConservation(run, k);
    var s := After(EMPTY, run);
    var x := s.subs[k];
    positions := seq(|x.kept|, i requires 0 <= i < |x.kept| => x.offered[x.kept[i]].publish);
  }

  /** Some subscriber was offered two events in the reverse of their publish order. */
  ghost predicate Reversed(s: State, k: nat) {
    k < |s.subs| &&
    exists i, j :: 0 <= i < j < |s.subs[k].offered| && s.subs[k].offered[j].publish < s.subs[k].offered[i].publish
  }

  /**
   Overlap is exactly what loses the order: from any reachable state in which two publishes both
   still owe a subscriber their events, the later one can be served first, and with room for both
   that is the order in which they are buffered.
   */
  lemma OverlapCanReverse(run: seq<Action>, q: nat, p: nat, k: nat)
    requires Runs(EMPTY, run) && q < p
    requires Enabled(After(EMPTY, run), OfferTo(q, k)) && Enabled(After(EMPTY, run), OfferTo(p, k))
    ensures var more := run + [OfferTo(p, k)] + [OfferTo(q, k)];
            var s := After(EMPTY, run);
            && Runs(EMPTY, more) && Reversed(After(EMPTY, more), k)
            && (|s.subs[k].buffer| + 2 <= SUBSCRIBER_BUFFER ==>
                  After(EMPTY, more).subs[k].buffer == s.subs[k].buffer + [s.publishes[p].event, s.publishes[q].event])
  {
    Extend(EMPTY, run, OfferTo(p, k));
    Extend(EMPTY, run + [OfferTo(p, k)], OfferTo(q, k));
    var s := After(EMPTY, run);
    var t := After(EMPTY, run + [OfferTo(p, k)] + [OfferTo(q, k)]);
    var n := |s.subs[k].offered|;
    assert t.subs[k].offered[n].publish == p && t.subs[k].offered[n + 1].publish == q;
  }

  /** The shortest such run: two publishes hold the read lock, and the second offers first. */
  lemma ReversedRun(e: Event, f: Event) returns (run: seq<Action>)
    ensures run == [Subscribe, Begin(e), Begin(f), OfferTo(1, 0), OfferTo(0, 0)]
    ensures Runs(EMPTY, run) && Reversed(After(EMPTY, run), 0)
    ensures After(EMPTY, run).subs[0].buffer == [f, e]
  {
    Extend(EMPTY, [], Subscribe);
    run := [] + [Subscribe];
    Extend(EMPTY, run, Begin(e));
    run := run + [Begin(e)];
    Extend(EMPTY, run, Begin(f));
    run := run + [Begin(f)];
    OverlapCanReverse(run, 0, 1, 0);
    run := run + [OfferTo(1, 0)] + [OfferTo(0, 0)];
  }

  /** A buffer and drop count after one more event was offered. */
  function Tried(buffer: seq<Event>, drops: nat, e: Event): (seq<Event>, nat) {
    if |buffer| < SUBSCRIBER_BUFFER then (buffer + [e], drops) else (buffer, drops + 1)
  }

  /**
   The bus object as one goroutine at a time uses it. The ghost fields follow the machine above
   and remember the run; between calls nobody holds the lock.
   */
  class EventBus {
    var subs: set<nat>
    var buffers: seq<seq<Event>>
    var drops: seq<nat>
    ghost var s: State
    ghost var run: seq<Action>

    /** The fields say what the machine says. */
    ghost predicate Coupled()
      reads this
    {
      && Runs(EMPTY, run) && s == After(EMPTY, run)
      && subs == s.live
      && |buffers| == |drops| == |s.subs|
      && forall k :: 0 <= k < |s.subs| ==> buffers[k] == s.subs[k].buffer && drops[k] == s.subs[k].drops
    }

    ghost predicate Valid()
      reads this
    {
      Coupled() && Unlocked(s)
    }

    constructor ()
      ensures Valid() && s == EMPTY
    {
      subs, buffers, drops := {}, [], [];
      s, run := EMPTY, [];
    }

    method Subscribe() returns (k: nat)
      requires Valid()
      modifies this
      ensures Valid() && s == Apply(old(s), Action.Subscribe)
      ensures k == |old(buffers)| && subs == old(subs) + {k} && buffers == old(buffers) + [[]]
    {
      Extend(EMPTY, run, Action.Subscribe);
      run := run + [Action.Subscribe];
      k := |buffers|;
      subs, buffers, drops := subs + {k}, buffers + [[]], drops + [0];
      s := Apply(s, Action.Subscribe);
    }

    /** cancel: unsubscribe, then close the channel; a second cancel does nothing. */
    method Cancel(k: nat)
      requires Valid() && k < |buffers|
      modifies this
      ensures Valid() && subs == old(subs) - {k} && buffers == old(buffers)
      ensures k in old(subs) ==> s.subs[k].closed
      ensures k !in old(subs) ==> s == old(s)
    {
      Always(EMPTY, run);
      if k in subs {
        Extend(EMPTY, run, Remove(k));
        run := run + [Remove(k)];
        subs := subs - {k};
        s := Apply(s, Remove(k));
        Extend(EMPTY, run, CloseChannel(k));
        run := run + [CloseChannel(k)];
        s := Apply(s, CloseChannel(k));
      }
    }

    /** publish takes the read lock and sees the subscribers there are. */
    method Lock(e: Event) returns (ghost p: nat)
      requires Valid()
      modifies this
      ensures Coupled() && subs == old(subs) && buffers == old(buffers) && drops == old(drops)
      ensures p < |s.publishes| && s.publishes[p] == Publication(e, subs, subs, None) && OthersDone(p)
      ensures forall k :: k in subs ==> k < |buffers|
    {
      Always(EMPTY, run);
      p := |s.publishes|;
      Extend(EMPTY, run, Begin(e));
      run := run + [Begin(e)];
      s := Apply(s, Begin(e));
    }

    ghost predicate OthersDone(p: nat)
      reads this
    {
      forall q :: 0 <= q < |s.publishes| && q != p ==> s.publishes[q].ended.Some?
    }

    /** One offer inside publish. */
    method OfferTo(ghost p: nat, k: nat, e: Event)
      requires Coupled() && Enabled(s, Action.OfferTo(p, k)) && s.publishes[p].event == e && OthersDone(p)
      modifies this
      ensures Coupled() && subs == old(subs) && OthersDone(p)
      ensures |s.publishes| == |old(s.publishes)| && k < |buffers| == |drops| == |old(buffers)| == |old(drops)|
      ensures s.publishes[p] == old(s.publishes[p]).(todo := old(s.publishes[p].todo) - {k})
      ensures (buffers[k], drops[k]) == Tried(old(buffers)[k], old(drops)[k], e)
      ensures buffers == old(buffers)[k := buffers[k]] && drops == old(drops)[k := drops[k]]
    {
      Extend(EMPTY, run, Action.OfferTo(p, k));
      run := run + [Action.OfferTo(p, k)];
      if |buffers[k]| < SUBSCRIBER_BUFFER {
        buffers := buffers[k := buffers[k] + [e]];
      } else {
        drops := drops[k := drops[k] + 1];
      }
      s := Apply(s, Action.OfferTo(p, k));
    }

    method Unlock(ghost p: nat)
      requires Coupled() && Enabled(s, End(p)) && OthersDone(p)
      modifies this
      ensures Valid() && subs == old(subs) && buffers == old(buffers) && drops == old(drops)
    {
      Extend(EMPTY, run, End(p));
      run := run + [End(p)];
      s := Apply(s, End(p));
    }

    /**
     publish never waits: every subscriber gets the event or, with its buffer full, a drop is
     counted, and nobody else's buffer changes.
     */
    method Publish(e: Event)
      requires Valid()
      modifies this
      ensures Valid() && subs == old(subs) && |buffers| == |drops| == |old(buffers)| == |old(drops)|
      ensures forall k :: 0 <= k < |buffers| ==>
                (buffers[k], drops[k]) ==
                  if k in subs then Tried(old(buffers)[k], old(drops)[k], e) else (old(buffers)[k], old(drops)[k])
    {
      ghost var p := Lock(e);
      var todo := subs;
      while todo != {}
        invariant Coupled() && subs == old(subs) && |buffers| == |drops| == |old(buffers)| == |old(drops)|
        invariant p < |s.publishes| && s.publishes[p] == Publication(e, subs, todo, None) && OthersDone(p)
        invariant todo <= subs && forall k :: k in subs ==> k < |buffers|
        invariant forall k :: 0 <= k < |buffers| ==>
                    (buffers[k], drops[k]) ==
                      if k in subs && k !in todo then Tried(old(buffers)[k], old(drops)[k], e)
                          else (old(buffers)[k], old(drops)[k])
        decreases todo
      {
        var k :| k in todo;
        OfferTo(p, k, e);
        todo := todo - {k};
      }
      Unlock(p);
    }

    /** A consumer receives the oldest buffered event. */
    method Receive(k: nat) returns (e: Event)
      requires Valid() && k < |buffers| && buffers[k] != []
      modifies this
      ensures Valid() && s == Apply(old(s), Take(k))
      ensures e == old(buffers)[k][0] && buffers == old(buffers)[k := old(buffers)[k][1..]] && drops == old(drops)
    {
      Extend(EMPTY, run, Take(k));
      run := run + [Take(k)];
      e := buffers[k][0];
      buffers := buffers[k := buffers[k][1..]];
      s := Apply(s, Take(k));
    }
  }
}
