/** Subscriptions to the packets of a connection, which come in by way of the event queue
    (deephome/common/source/proto/Connection.cpp:18-51). */
module Connections {
  import opened EventLoops
  import opened EventSafety

  /** Nobody, or the subscriber; every subscription has a number of its own. */
  datatype Subscriber = Nobody | Subscription(number: nat)

  /** A subscriber's handler bound to a packet. */
  datatype Callback<P> = Callback(subscription: nat, packet: P)

  /** A connection on an event loop. `bound[h]` is the callback that was queued as `h`. */
  datatype ConnectionState<S, P> = ConnectionState(
    loop: EventLoops.State<S>, scope: S, subscriber: Subscriber, subscriptions: nat, bound: map<nat, Callback<P>>)

  /** A subscription ends when the connection's scope is invalidated. */
  function Unsubscribe<S(==), P>(s: ConnectionState<S, P>): ConnectionState<S, P>
    requires s.scope in s.loop.counters
  {
    if s.subscriber.Nobody? then s else s.(loop := Next(s.loop, Invalidates(s.scope)), subscriber := Nobody)
  }

  function Subscribe<S(==), P>(s: ConnectionState<S, P>): ConnectionState<S, P>
    requires s.scope in s.loop.counters
  {
    Unsubscribe(s).(subscriber := Subscription(s.subscriptions + 1), subscriptions := s.subscriptions + 1)
  }

  function PacketReceived<S(==), P>(s: ConnectionState<S, P>, packet: P): ConnectionState<S, P>
    requires s.scope in s.loop.counters
  {
    if s.subscriber.Nobody? then s else
    s.(loop := Next(s.loop, EnqueuesIn(s.scope)),
       bound := s.bound[|s.loop.log| := Callback(s.subscriber.number, packet)])
  }

  class Connection<P> {
    const scoped: ScopedEventLoop
    var subscriber: Subscriber
    ghost var subscriptions: nat
    ghost var bound: map<nat, Callback<P>>

    ghost predicate Ready()
      reads scoped.loop
    {
      scoped.counter in scoped.loop.counters
    }

    ghost function View(): ConnectionState<Counter, P>
      reads this, scoped.loop, scoped.loop.counters
    {
      ConnectionState(scoped.loop.View(), scoped.counter, subscriber, subscriptions, bound)
    }

    constructor (scoped: ScopedEventLoop)
      requires scoped.counter in scoped.loop.counters
      ensures this.scoped == scoped && Ready()
      ensures View() == ConnectionState(scoped.loop.View(), scoped.counter, Nobody, 0, map[])
    {
      this.scoped := scoped;
      subscriber, subscriptions, bound := Nobody, 0, map[];
    }

    /** `number` is the name the model gives to the new subscription. */
    method SubscribeHandler(number: nat)
      requires Ready() && number == subscriptions + 1
      modifies this, scoped.counter, scoped.loop`log
      ensures Ready() && View() == Subscribe(old(View()))
    {
      if subscriber != Nobody {
        UnsubscribeHandler();
      }
      subscriber := Subscription(number);
      subscriptions := number;
    }

    method UnsubscribeHandler()
      requires Ready()
      modifies `subscriber, scoped.counter, scoped.loop`log
      ensures Ready() && View() == Unsubscribe(old(View())) && subscriber == Nobody
    {
      if subscriber == Nobody {
        return;
      }
      subscriber := Nobody;
      scoped.Invalidate();
    }

    method OnPacketReceived(packet: P, handler: nat)
      requires Ready() && handler == |scoped.loop.log|
      modifies this`bound, scoped.loop`queue, scoped.loop`log
      ensures Ready() && View() == PacketReceived(old(View()), packet)
    {
      if subscriber != Nobody {
        bound := bound[|scoped.loop.log| := Callback(subscriber.number, packet)];
        scoped.Enqueue(handler);
      }
    }
  }

  // --- Runs: the connection's steps and anything else on the loop that leaves its scope alone ---

  datatype Event<S, P> = Subscribes | Unsubscribes | Receives(packet: P) | Elsewhere(event: EventLoops.Event<S>)

  predicate Enabled<S(==), P>(s: ConnectionState<S, P>, e: Event<S, P>) {
    s.scope in s.loop.counters &&
    (e.Elsewhere? ==> EventLoops.Enabled(s.loop, e.event) && e.event != EnqueuesIn(s.scope) && e.event != Invalidates(s.scope))
  }

  function Step<S(==), P>(s: ConnectionState<S, P>, e: Event<S, P>): ConnectionState<S, P>
    requires Enabled(s, e)
  {
    match e
    case Subscribes => Subscribe(s)
    case Unsubscribes => Unsubscribe(s)
    case Receives(packet) => PacketReceived(s, packet)
    case Elsewhere(event) => s.(loop := Next(s.loop, event))
  }

  predicate Possible<S(==), P>(s: ConnectionState<S, P>, events: seq<Event<S, P>>)
    decreases events
  {
    events == [] || (Enabled(s, events[0]) && Possible(Step(s, events[0]), events[1..]))
  }

  function End<S(==), P>(s: ConnectionState<S, P>, events: seq<Event<S, P>>): ConnectionState<S, P>
    requires Possible(s, events)
    decreases events
  {
    if events == [] then s else End(Step(s, events[0]), events[1..])
  }

  /** What a queued callback of this connection must be while it is still valid: one of the current
      subscription. */
  ghost predicate Current<S, P>(s: ConnectionState<S, P>, e: Entry<S>) {
    e.scope.Scoped? && e.scope.counter == s.scope && IsValid(s.loop, e.scope) ==>
      (e.handler in s.bound && s.subscriber == Subscription(s.bound[e.handler].subscription))
  }

  ghost predicate Pending<S>(loop: EventLoops.State<S>, e: Entry<S>) {
    e in loop.queue || (loop.phase.Taken? && loop.phase.entry == e)
  }

  ghost predicate Good<S, P>(s: ConnectionState<S, P>) {
    && Inv(s.loop) && s.scope in s.loop.counters
    && (forall e | e in s.loop.queue :: Current(s, e))
    && (s.loop.phase.Taken? ==> Current(s, s.loop.phase.entry))
  }

  lemma BoundEarlier<S, P>(s: ConnectionState<S, P>, e: Entry<S>)
    requires Inv(s.loop) && Pending(s.loop, e)
    ensures e.handler < |s.loop.log|
    ensures e.scope.Scoped? && e.scope.counter in s.loop.counters ==> e.scope.valid <= s.loop.counters[e.scope.counter]
  {
    if e in s.loop.queue {
      var i :| 0 <= i < |s.loop.queue| && s.loop.queue[i] == e;
      assert Tracked(s.loop, s.loop.queue[i]);
    }
    assert Tracked(s.loop, e);
    if e.scope.Scoped? { CountStands(s.loop.log, e.scope.counter, e.handler); }
  }

  lemma UnsubscribeKeeps<S, P>(s: ConnectionState<S, P>)
    requires Good(s)
    ensures Good(Unsubscribe(s)) && Unsubscribe(s).subscriber == Nobody
  {
    var t := Unsubscribe(s);
    if s.subscriber.Subscription? {
      EventSafety.StepKeepsInv(s.loop, Invalidates(s.scope));
      forall e | Pending(t.loop, e)
        ensures Current(t, e)
      {
        BoundEarlier(s, e);
      }
    }
  }

  lemma SubscribeKeeps<S, P>(s: ConnectionState<S, P>)
    requires Good(s)
    ensures Good(Subscribe(s))
  {
    var between, t := Unsubscribe(s), Subscribe(s);
    UnsubscribeKeeps(s);
    forall e | Pending(t.loop, e)
      ensures Current(t, e)
    {
      assert Current(between, e);
    }
  }

  lemma ReceiveKeeps<S, P>(s: ConnectionState<S, P>, packet: P)
    requires Good(s)
    ensures Good(PacketReceived(s, packet))
  {
    var t := PacketReceived(s, packet);
    if s.subscriber.Subscription? {
      EventSafety.StepKeepsInv(s.loop, EnqueuesIn(s.scope));
      forall e | Pending(t.loop, e)
        ensures Current(t, e)
      {
        if Pending(s.loop, e) { BoundEarlier(s, e); }
      }
    }
  }

  lemma ElsewhereKeeps<S, P>(s: ConnectionState<S, P>, event: EventLoops.Event<S>)
    requires Good(s) && Enabled(s, Elsewhere(event))
    ensures Good(Step(s, Elsewhere(event)))
  {
    var t := Step(s, Elsewhere(event));
    EventSafety.StepKeepsInv(s.loop, event);
    forall e | Pending(t.loop, e)
      ensures Current(t, e)
    {
      if Pending(s.loop, e) { assert Current(s, e); }
    }
  }

  lemma StepKeeps<S, P>(s: ConnectionState<S, P>, e: Event<S, P>)
    requires Good(s) && Enabled(s, e)
    ensures Good(Step(s, e))
  {
    match e
    case Subscribes => SubscribeKeeps(s);
    case Unsubscribes => UnsubscribeKeeps(s);
    case Receives(packet) => ReceiveKeeps(s, packet);
    case Elsewhere(event) => ElsewhereKeeps(s, event);
  }

  lemma {:induction false} RunKeeps<S, P>(s: ConnectionState<S, P>, events: seq<Event<S, P>>)
    requires Good(s) && Possible(s, events)
    ensures Good(End(s, events))
    decreases events
  {
    if events != [] {
      StepKeeps(s, events[0]);
      RunKeeps(Step(s, events[0]), events[1..]);
    }
  }

  function NewConnection<S(==), P>(loop: EventLoops.State<S>, scope: S): ConnectionState<S, P>
    requires scope !in loop.counters
  {
    ConnectionState(Next(loop, Creates(scope)), scope, Nobody, 0, map[])
  }

  lemma NewIsGood<S, P>(loop: EventLoops.State<S>, scope: S)
    requires Inv(loop) && scope !in loop.counters
    ensures Good(NewConnection<S, P>(loop, scope))
  {
    var s := NewConnection<S, P>(loop, scope);
    EventSafety.StepKeepsInv(loop, Creates(scope));
    forall e | Pending(s.loop, e)
      ensures Current(s, e)
    {
      if e.scope.Scoped? && e.scope.counter == scope { NotYetThere(loop, e); }
    }
  }

  /** Whenever, in any run of a new connection, the loop starts a callback of the connection, it is one of
      the subscription that holds at that moment: none of an earlier one runs after it has ended. */
  lemma NoStaleCallback<S, P>(loop: EventLoops.State<S>, scope: S, events: seq<Event<S, P>>)
    requires Inv(loop) && scope !in loop.counters
    requires Possible(NewConnection(loop, scope), events)
    ensures var t := End(NewConnection(loop, scope), events);
      t.loop.phase.Taken? && t.loop.phase.entry.scope.Scoped? && t.loop.phase.entry.scope.counter == scope &&
      Next(t.loop, Checks).phase.Running? ==>
        (t.loop.phase.entry.handler in t.bound &&
         t.subscriber == Subscription(t.bound[t.loop.phase.entry.handler].subscription))
  {
    NewIsGood<S, P>(loop, scope);
    RunKeeps(NewConnection(loop, scope), events);
    ScopeStays(NewConnection(loop, scope), events);
  }

  lemma NotYetThere<S>(loop: EventLoops.State<S>, e: Entry<S>)
    requires Inv(loop) && Pending(loop, e) && e.scope.Scoped?
    ensures e.scope.counter in loop.counters
  {
    if e in loop.queue {
      var i :| 0 <= i < |loop.queue| && loop.queue[i] == e;
      assert Tracked(loop, loop.queue[i]);
    }
  }

  lemma {:induction false} ScopeStays<S, P>(s: ConnectionState<S, P>, events: seq<Event<S, P>>)
    requires Possible(s, events)
    ensures End(s, events).scope == s.scope
    decreases events
  {
    if events != [] { ScopeStays(Step(s, events[0]), events[1..]); }
  }
}
