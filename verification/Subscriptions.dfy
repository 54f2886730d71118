/** What a subscriber gets of the packets of a connection (deephome/common/source/proto/Connection.cpp:18-51):
    those that came in while the subscription held, in their order, up to its end. */
module Subscriptions {
  import opened Sequences
  import opened EventLoops
  import opened EventSafety
  import opened Connections

  function PacketOf<P>(bound: map<nat, Callback<P>>, k: nat): nat -> seq<P> {
    (h: nat) => if h in bound && bound[h].subscription == k then [bound[h].packet] else []
  }

  /** The packets that the callbacks of subscription `k` among these handlers are bound to. */
  function PacketsOf<P>(bound: map<nat, Callback<P>>, k: nat, handlers: seq<nat>): seq<P> {
    FlatMap(PacketOf(bound, k), handlers)
  }

  /** The handlers the loop has started, in this order. */
  function StartedOf<S>(log: seq<Log<S>>): seq<nat>
    decreases |log|
  {
    if log == [] then [] else
    var n := |log| - 1;
    StartedOf(log[..n]) + (if log[n].Started? then [log[n].handler] else [])
  }

  // --- What the events alone tell: the n-th `Subscribes` begins subscription n and ends the one before ---

  function Begun<S, P>(last: nat, e: Connections.Event<S, P>): nat {
    if e.Subscribes? then last + 1 else last
  }

  function Holder<S, P>(current: Subscriber, last: nat, e: Connections.Event<S, P>): Subscriber {
    if e.Subscribes? then Subscription(last + 1) else if e.Unsubscribes? then Nobody else current
  }

  /** Who is subscribed after the events. */
  function Holding<S, P>(current: Subscriber, last: nat, events: seq<Connections.Event<S, P>>): Subscriber
    decreases events
  {
    if events == [] then current
    else Holding(Holder(current, last, events[0]), Begun(last, events[0]), events[1..])
  }

  function ReceivedBy<S, P>(k: nat, current: Subscriber, e: Connections.Event<S, P>): seq<P> {
    if e.Receives? && current == Subscription(k) then [e.packet] else []
  }

  /** The packets that come in while subscription `k` holds. */
  function ReceivedDuring<S, P>(k: nat, current: Subscriber, last: nat, events: seq<Connections.Event<S, P>>): seq<P>
    decreases events
  {
    if events == [] then [] else
    ReceivedBy(k, current, events[0]) +
    ReceivedDuring(k, Holder(current, last, events[0]), Begun(last, events[0]), events[1..])
  }

  // --- What every step keeps ---

  /** Nothing ended the connection's scope between two places of the history. */
  ghost predicate NoEnd<S>(log: seq<Log<S>>, scope: S, from: nat, to: nat)
    requires to <= |log|
  {
    forall i | from < i < to :: log[i] != Invalidated(scope)
  }

  /** A bound callback was enqueued in the connection's scope, and if its subscription still holds nothing
      has ended the scope since. */
  ghost predicate Entered<S, P>(s: ConnectionState<S, P>, h: nat)
    requires h in s.bound
  {
    && h < |s.loop.log| && s.loop.log[h].Enqueued?
    && s.loop.log[h].scope.Scoped? && s.loop.log[h].scope.counter == s.scope
    && 0 < s.bound[h].subscription <= s.subscriptions
    && (s.subscriber == Subscription(s.bound[h].subscription) ==> NoEnd(s.loop.log, s.scope, h, |s.loop.log|))
  }

  ghost predicate OneSpan<S, P>(s: ConnectionState<S, P>, g: nat, h: nat)
    requires g in s.bound && h in s.bound
  {
    g < h < |s.loop.log| && s.bound[g].subscription == s.bound[h].subscription ==> NoEnd(s.loop.log, s.scope, g, h)
  }

  ghost predicate Booked<S, P>(s: ConnectionState<S, P>) {
    && (s.subscriber.Subscription? ==> s.subscriber.number == s.subscriptions > 0)
    && (forall h | h in s.bound :: Entered(s, h))
    && (forall g, h | g in s.bound && h in s.bound :: OneSpan(s, g, h))
  }

  /** The loop's history grows by one entry or stays. */
  lemma LogSteps<S>(s: EventLoops.State<S>, e: EventLoops.Event<S>)
    requires EventLoops.Enabled(s, e)
    ensures var t := Next(s, e);
      && (t.log == s.log || (|t.log| == |s.log| + 1 && t.log[..|s.log|] == s.log))
      && (forall c | |t.log| > |s.log| && t.log[|s.log|] == Invalidated(c) :: e == Invalidates(c))
  {
  }

  lemma GrownStays<S, P>(s: ConnectionState<S, P>, t: ConnectionState<S, P>)
    requires Booked(s) && t == s.(loop := t.loop)
    requires t.loop.log == s.loop.log || (|t.loop.log| == |s.loop.log| + 1 && t.loop.log[..|s.loop.log|] == s.loop.log)
    requires |t.loop.log| > |s.loop.log| ==> t.loop.log[|s.loop.log|] != Invalidated(s.scope)
    ensures Booked(t)
  {
    assert forall i | 0 <= i < |s.loop.log| :: t.loop.log[i] == s.loop.log[i];
    forall h | h in t.bound
      ensures Entered(t, h)
    {
      assert Entered(s, h);
    }
    forall g, h | g in t.bound && h in t.bound
      ensures OneSpan(t, g, h)
    {
      assert Entered(s, g) && Entered(s, h) && OneSpan(s, g, h);
    }
  }

  lemma EndBooks<S, P>(s: ConnectionState<S, P>)
    requires Booked(s) && s.scope in s.loop.counters
    ensures Booked(Unsubscribe(s))
  {
    var t := Unsubscribe(s);
    if s.subscriber.Subscription? {
      assert t.loop.log == s.loop.log + [Invalidated(s.scope)];
      forall h | h in t.bound
        ensures Entered(t, h)
      {
        assert Entered(s, h);
      }
      forall g, h | g in t.bound && h in t.bound
        ensures OneSpan(t, g, h)
      {
        assert Entered(s, g) && Entered(s, h) && OneSpan(s, g, h);
      }
    }
  }

  lemma BeginBooks<S, P>(s: ConnectionState<S, P>)
    requires Booked(s) && s.scope in s.loop.counters
    ensures Booked(Subscribe(s))
  {
    var between, t := Unsubscribe(s), Subscribe(s);
    EndBooks(s);
    forall h | h in t.bound
      ensures Entered(t, h)
    {
      assert Entered(between, h);
    }
    forall g, h | g in t.bound && h in t.bound
      ensures OneSpan(t, g, h)
    {
      assert OneSpan(between, g, h);
    }
  }

  lemma ReceiveBooks<S, P>(s: ConnectionState<S, P>, packet: P)
    requires Booked(s) && s.scope in s.loop.counters
    ensures Booked(PacketReceived(s, packet))
  {
    var t := PacketReceived(s, packet);
    if s.subscriber.Subscription? {
      var n := |s.loop.log|;
      assert |t.loop.log| == n + 1 && t.loop.log[..n] == s.loop.log;
      assert forall i | 0 <= i < n :: t.loop.log[i] == s.loop.log[i];
      forall h | h in t.bound
        ensures Entered(t, h)
      {
        if h != n { assert Entered(s, h); }
      }
      forall g, h | g in t.bound && h in t.bound
        ensures OneSpan(t, g, h)
      {
        if g != n { assert Entered(s, g); }
        if g != n && h != n { assert Entered(s, h) && OneSpan(s, g, h); }
      }
    }
  }

  lemma StepBooks<S, P>(s: ConnectionState<S, P>, e: Connections.Event<S, P>)
    requires Booked(s) && Connections.Enabled(s, e)
    ensures Booked(Step(s, e))
  {
    match e
    case Subscribes => BeginBooks(s);
    case Unsubscribes => EndBooks(s);
    case Receives(packet) => ReceiveBooks(s, packet);
    case Elsewhere(event) =>
      LogSteps(s.loop, event);
      GrownStays(s, Step(s, e));
  }

  // --- The packets bound are the packets received ---

  lemma EnqueuedGrows<S>(log: seq<Log<S>>, more: seq<Log<S>>)
    requires more == log || (|more| == |log| + 1 && more[..|log|] == log)
    ensures EnqueuedAt(more) ==
            if |more| > |log| && more[|log|].Enqueued? then EnqueuedAt(log) + [|log|] else EnqueuedAt(log)
  {
  }

  /** A callback bound later does not change what the earlier ones are. */
  lemma {:induction false} BoundLater<P>(bound: map<nat, Callback<P>>, h: nat, callback: Callback<P>, k: nat, handlers: seq<nat>)
    requires h !in handlers
    ensures PacketsOf(bound[h := callback], k, handlers) == PacketsOf(bound, k, handlers)
    decreases handlers
  {
    if handlers != [] {
      assert handlers[0] != h;
      BoundLater(bound, h, callback, k, handlers[1..]);
    }
  }

  lemma {:induction false} PacketsNext<P>(bound: map<nat, Callback<P>>, k: nat, h: nat, handlers: seq<nat>)
    ensures PacketsOf(bound, k, handlers + [h]) == PacketsOf(bound, k, handlers) + PacketOf(bound, k)(h)
  {
    FlatMapAppend(PacketOf(bound, k), handlers, [h]);
    FlatMapOne(PacketOf(bound, k), h);
  }

  function Packets<S, P>(s: ConnectionState<S, P>, k: nat): seq<P> {
    PacketsOf(s.bound, k, EnqueuedAt(s.loop.log))
  }

  lemma ReceivePackets<S, P>(s: ConnectionState<S, P>, packet: P, k: nat)
    requires Booked(s) && s.scope in s.loop.counters
    ensures Packets(PacketReceived(s, packet), k) ==
            Packets(s, k) + if s.subscriber == Subscription(k) then [packet] else []
  {
    var t, n := PacketReceived(s, packet), |s.loop.log|;
    if s.subscriber.Subscription? {
      EnqueuedGrows(s.loop.log, t.loop.log);
      BoundLater(s.bound, n, t.bound[n], k, EnqueuedAt(s.loop.log));
      PacketsNext(t.bound, k, n, EnqueuedAt(s.loop.log));
    }
  }

  lemma BoundBelow<S, P>(s: ConnectionState<S, P>)
    requires Booked(s)
    ensures forall h | h in s.bound :: h < |s.loop.log|
  {
    forall h | h in s.bound
      ensures h < |s.loop.log|
    {
      assert Entered(s, h);
    }
  }

  lemma ElsewherePackets<S, P>(s: ConnectionState<S, P>, event: EventLoops.Event<S>, k: nat)
    requires Booked(s) && Connections.Enabled(s, Elsewhere(event))
    ensures Packets(Step(s, Elsewhere(event)), k) == Packets(s, k)
  {
    var t, n := Step(s, Elsewhere(event)), |s.loop.log|;
    LogSteps(s.loop, event);
    EnqueuedGrows(s.loop.log, t.loop.log);
    BoundBelow(s);
    PacketsNext(t.bound, k, n, EnqueuedAt(s.loop.log));
  }

  lemma EndPackets<S, P>(s: ConnectionState<S, P>, k: nat)
    requires s.scope in s.loop.counters
    ensures Packets(Unsubscribe(s), k) == Packets(s, k)
  {
    EnqueuedGrows(s.loop.log, Unsubscribe(s).loop.log);
  }

  lemma StepPackets<S, P>(s: ConnectionState<S, P>, e: Connections.Event<S, P>, k: nat)
    requires Booked(s) && Connections.Enabled(s, e)
    ensures Packets(Step(s, e), k) == Packets(s, k) + ReceivedBy(k, s.subscriber, e)
    ensures Step(s, e).subscriber == Holder(s.subscriber, s.subscriptions, e)
    ensures Step(s, e).subscriptions == Begun(s.subscriptions, e)
  {
    match e
    case Subscribes => EndPackets(s, k);
    case Unsubscribes => EndPackets(s, k);
    case Receives(packet) => ReceivePackets(s, packet, k);
    case Elsewhere(event) => ElsewherePackets(s, event, k);
  }

  lemma {:induction false} RunPackets<S, P>(s: ConnectionState<S, P>, events: seq<Connections.Event<S, P>>, k: nat)
    requires Good(s) && Booked(s) && Connections.Possible(s, events)
    ensures var t := Connections.End(s, events);
      && Good(t) && Booked(t)
      && Packets(t, k) == Packets(s, k) + ReceivedDuring(k, s.subscriber, s.subscriptions, events)
    decreases events
  {
    if events != [] {
      var e, next := events[0], Step(s, events[0]);
      StepKeeps(s, e);
      StepBooks(s, e);
      StepPackets(s, e, k);
      RunPackets(next, events[1..], k);
      Regroup(Packets(s, k), ReceivedBy(k, s.subscriber, e),
              ReceivedDuring(k, next.subscriber, next.subscriptions, events[1..]));
    }
  }

  // --- What is started and what is skipped ---

  predicate IsOf<P>(bound: map<nat, Callback<P>>, k: nat, h: nat) {
    h in bound && bound[h].subscription == k
  }

  /** While a subscription holds none of its callbacks is skipped. */
  lemma NoneSkipped<S, P>(s: ConnectionState<S, P>, j: nat)
    requires Good(s) && Booked(s) && j < |s.loop.log| && s.loop.log[j].Skipped? && s.loop.log[j].handler in s.bound
    ensures s.subscriber != Subscription(s.bound[s.loop.log[j].handler].subscription)
  {
    assert Rightly(s.loop.log, j) && Entered(s, s.loop.log[j].handler);
  }

  /** Between a callback that is skipped and a later one that is started the subscription has changed. */
  lemma SkippedIsLast<S, P>(s: ConnectionState<S, P>, i: nat, j: nat)
    requires Good(s) && Booked(s) && i < j < |s.loop.log| && s.loop.log[i].Skipped? && s.loop.log[j].Started?
    requires s.loop.log[i].handler < s.loop.log[j].handler
    requires s.loop.log[i].handler in s.bound && s.loop.log[j].handler in s.bound
    ensures s.bound[s.loop.log[i].handler].subscription != s.bound[s.loop.log[j].handler].subscription
  {
    var log, g, h := s.loop.log, s.loop.log[i].handler, s.loop.log[j].handler;
    assert Rightly(log, i) && Rightly(log, j) && Entered(s, g) && Entered(s, h);
    var e :| g < e < i && log[e] == Invalidated(s.scope);
    assert g < e < h;
    assert !NoEnd(log, s.scope, g, h);
    assert OneSpan(s, g, h);
  }

  lemma {:induction false} HandledFirst<S>(log: seq<Log<S>>, n: nat)
    requires n <= |log|
    ensures Handled(log[..n]) <= Handled(log)
    decreases |log|
  {
    if n < |log| {
      var m := |log| - 1;
      HandledFirst(log[..m], n);
      assert log[..m][..n] == log[..n];
    } else {
      assert log[..n] == log;
    }
  }

  lemma HandledNext<S>(log: seq<Log<S>>, n: nat)
    requires n < |log|
    ensures Handled(log[..n + 1]) ==
            if log[n].Started? || log[n].Skipped? then Handled(log[..n]) + [log[n].handler] else Handled(log[..n])
    ensures StartedOf(log[..n + 1]) == if log[n].Started? then StartedOf(log[..n]) + [log[n].handler] else StartedOf(log[..n])
  {
    assert log[..n + 1][..n] == log[..n];
  }

  lemma {:induction false} SkippedIsHandled<S>(log: seq<Log<S>>, i: nat, n: nat)
    requires i < n <= |log| && log[i].Skipped?
    ensures log[i].handler in Handled(log[..n])
    decreases n
  {
    var m := n - 1;
    HandledNext(log, m);
    assert log[..m + 1] == log[..n];
    if i < m { SkippedIsHandled(log, i, m); }
  }

  lemma EarlierIsLess(earlier: seq<nat>, last: nat, all: seq<nat>, x: nat)
    requires earlier + [last] <= all && x in earlier
    requires forall i, j | 0 <= i < j < |all| :: all[i] < all[j]
    ensures x < last
  {
    var i: nat :| i < |earlier| && earlier[i] == x;
    assert all[i] == (earlier + [last])[i] == x && all[|earlier|] == (earlier + [last])[|earlier|] == last;
  }

  /** Handlers are dealt with in ascending order. */
  lemma HandledAscends<S>(s: EventLoops.State<S>, i: nat, n: nat)
    requires Inv(s) && i < n < |s.log| && s.log[i].Skipped? && s.log[n].Started?
    ensures s.log[i].handler < s.log[n].handler
  {
    SkippedIsHandled(s.log, i, n);
    HandledNext(s.log, n);
    HandledFirst(s.log, n + 1);
    EarlierIsLess(Handled(s.log[..n]), s.log[n].handler, EnqueuedAt(s.log), s.log[i].handler);
  }

  ghost predicate SomeSkipped<S, P>(s: ConnectionState<S, P>, k: nat, n: nat)
    requires n <= |s.loop.log|
  {
    exists i :: 0 <= i < n && s.loop.log[i].Skipped? && IsOf(s.bound, k, s.loop.log[i].handler)
  }

  ghost predicate Behind<P>(started: seq<P>, handled: seq<P>, some: bool) {
    if some then started <= handled else started == handled
  }

  lemma BehindBoth<P>(started: seq<P>, handled: seq<P>, x: seq<P>, some: bool)
    requires Behind(started, handled, some) && (some ==> x == [])
    ensures Behind(started + x, handled + x, some)
  {
  }

  lemma BehindMore<P>(started: seq<P>, handled: seq<P>, x: seq<P>, some: bool)
    requires Behind(started, handled, some)
    ensures Behind(started, handled + x, some || x != [])
  {
  }

  lemma SkippedNext<S, P>(s: ConnectionState<S, P>, k: nat, n: nat)
    requires n < |s.loop.log|
    ensures SomeSkipped(s, k, n + 1) <==>
            SomeSkipped(s, k, n) || (s.loop.log[n].Skipped? && IsOf(s.bound, k, s.loop.log[n].handler))
  {
  }

  /** One more entry of the history. */
  lemma StartedNext<S, P>(s: ConnectionState<S, P>, k: nat, n: nat)
    requires Good(s) && Booked(s) && n < |s.loop.log|
    requires Behind(PacketsOf(s.bound, k, StartedOf(s.loop.log[..n])), PacketsOf(s.bound, k, Handled(s.loop.log[..n])),
                    SomeSkipped(s, k, n))
    ensures Behind(PacketsOf(s.bound, k, StartedOf(s.loop.log[..n + 1])), PacketsOf(s.bound, k, Handled(s.loop.log[..n + 1])),
                   SomeSkipped(s, k, n + 1))
  {
    var x, some := s.loop.log[n], SomeSkipped(s, k, n);
    var started, handled := StartedOf(s.loop.log[..n]), Handled(s.loop.log[..n]);
    HandledNext(s.loop.log, n);
    SkippedNext(s, k, n);
    if x.Started? {
      PacketsNext(s.bound, k, x.handler, started);
      PacketsNext(s.bound, k, x.handler, handled);
      if some { StartedAfterSkip(s, k, n); }
      BehindBoth(PacketsOf(s.bound, k, started), PacketsOf(s.bound, k, handled), PacketOf(s.bound, k)(x.handler), some);
    } else if x.Skipped? {
      PacketsNext(s.bound, k, x.handler, handled);
      BehindMore(PacketsOf(s.bound, k, started), PacketsOf(s.bound, k, handled), PacketOf(s.bound, k)(x.handler), some);
    }
  }

  lemma StartedAfterSkip<S, P>(s: ConnectionState<S, P>, k: nat, n: nat)
    requires Good(s) && Booked(s) && n < |s.loop.log| && s.loop.log[n].Started? && SomeSkipped(s, k, n)
    ensures PacketOf(s.bound, k)(s.loop.log[n].handler) == []
  {
    var i :| 0 <= i < n && s.loop.log[i].Skipped? && IsOf(s.bound, k, s.loop.log[i].handler);
    HandledAscends(s.loop, i, n);
    if s.loop.log[n].handler in s.bound { SkippedIsLast(s, i, n); }
  }

  /** Those started are the first of those dealt with, and all of them as long as none is skipped. */
  lemma {:induction false} StartedFirst<S, P>(s: ConnectionState<S, P>, k: nat, n: nat)
    requires Good(s) && Booked(s) && n <= |s.loop.log|
    ensures Behind(PacketsOf(s.bound, k, StartedOf(s.loop.log[..n])), PacketsOf(s.bound, k, Handled(s.loop.log[..n])),
                   SomeSkipped(s, k, n))
    decreases n
  {
    if n > 0 {
      StartedFirst(s, k, n - 1);
      StartedNext(s, k, n - 1);
    }
  }

  // --- The result ---

  lemma NewIsBooked<S, P>(loop: EventLoops.State<S>, scope: S)
    requires scope !in loop.counters
    ensures Booked(NewConnection<S, P>(loop, scope))
    ensures forall k :: Packets(NewConnection<S, P>(loop, scope), k) == []
  {
    var s := NewConnection<S, P>(loop, scope);
    forall k
      ensures Packets(s, k) == []
    {
      NothingBound<P>(k, EnqueuedAt(s.loop.log));
    }
  }

  lemma {:induction false} NothingBound<P>(k: nat, handlers: seq<nat>)
    ensures PacketsOf<P>(map[], k, handlers) == []
    decreases handlers
  {
    if handlers != [] { NothingBound<P>(k, handlers[1..]); }
  }

  lemma PacketsSplit<P>(bound: map<nat, Callback<P>>, k: nat, a: seq<nat>, b: seq<nat>, c: seq<nat>)
    ensures PacketsOf(bound, k, a + b + c) == PacketsOf(bound, k, a) + PacketsOf(bound, k, b) + PacketsOf(bound, k, c)
  {
    FlatMapAppend(PacketOf(bound, k), a + b, c);
    FlatMapAppend(PacketOf(bound, k), a, b);
  }

  /** In every run of a new connection the callbacks of a subscription that are dealt with, in hand or
      queued carry exactly the packets received while it held, in their order. Those started are the first
      of them; and while the subscription holds none is skipped. */
  lemma EveryPacketIsDelivered<S, P>(loop: EventLoops.State<S>, scope: S, events: seq<Connections.Event<S, P>>, k: nat)
    requires Inv(loop) && scope !in loop.counters && Connections.Possible(NewConnection(loop, scope), events)
    ensures var t := Connections.End(NewConnection(loop, scope), events);
      var received, started := ReceivedDuring(k, Nobody, 0, events), PacketsOf(t.bound, k, StartedOf(t.loop.log));
      var handled, waiting := PacketsOf(t.bound, k, Handled(t.loop.log)), PacketsOf(t.bound, k, HandlersOf(t.loop.queue));
      && handled + PacketsOf(t.bound, k, InHand(t.loop.phase)) + waiting == received
      && started <= handled
      && (t.subscriber == Subscription(k) ==> started == handled)
  {
    var s, t := NewConnection<S, P>(loop, scope), Connections.End(NewConnection(loop, scope), events);
    NewIsGood<S, P>(loop, scope);
    NewIsBooked<S, P>(loop, scope);
    RunPackets(s, events, k);
    PacketsSplit(t.bound, k, Handled(t.loop.log), InHand(t.loop.phase), HandlersOf(t.loop.queue));
    StartedOfAll(t, k);
  }

  lemma StartedOfAll<S, P>(s: ConnectionState<S, P>, k: nat)
    requires Good(s) && Booked(s)
    ensures var started, handled := PacketsOf(s.bound, k, StartedOf(s.loop.log)), PacketsOf(s.bound, k, Handled(s.loop.log));
      started <= handled && (s.subscriber == Subscription(k) ==> started == handled)
  {
    StartedFirst(s, k, |s.loop.log|);
    assert s.loop.log[..|s.loop.log|] == s.loop.log;
    if s.subscriber == Subscription(k) && SomeSkipped(s, k, |s.loop.log|) {
      var j :| 0 <= j < |s.loop.log| && s.loop.log[j].Skipped? && IsOf(s.bound, k, s.loop.log[j].handler);
      NoneSkipped(s, j);
    }
  }

  /** Once the loop has emptied its queue, a subscription that still holds has got every packet. */
  lemma SettledSubscription<S, P>(loop: EventLoops.State<S>, scope: S, events: seq<Connections.Event<S, P>>, k: nat)
    requires Inv(loop) && scope !in loop.counters && Connections.Possible(NewConnection(loop, scope), events)
    requires var t := Connections.End(NewConnection(loop, scope), events);
      t.subscriber == Subscription(k) && t.loop.queue == [] && !t.loop.phase.Taken?
    ensures var t := Connections.End(NewConnection(loop, scope), events);
      PacketsOf(t.bound, k, StartedOf(t.loop.log)) == ReceivedDuring(k, Nobody, 0, events)
  {
    EveryPacketIsDelivered(loop, scope, events, k);
  }

  /** The subscriber is who the events say. */
  lemma {:induction false} SubscriberHolds<S, P>(s: ConnectionState<S, P>, events: seq<Connections.Event<S, P>>)
    requires Connections.Possible(s, events)
    ensures Connections.End(s, events).subscriber == Holding(s.subscriber, s.subscriptions, events)
    decreases events
  {
    if events != [] { SubscriberHolds(Step(s, events[0]), events[1..]); }
  }
}
