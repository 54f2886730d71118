/** Every reply that reaches a client finds the query it answers: the counting argument
    (deephome/common/source/client/Dispatcher.cpp:85-104,175-193, deephome/router/Router.cpp:168-212,464-558). */
module QuerySafety {
  import opened Sequences
  import opened Bitwise
  import opened Messages
  import opened WireFormat
  import opened DeviceCommands
  import opened RouterConfig
  import opened QueryProtocol
  import R = Router
  import Runs = RouterRuns
  import Ledger = RouterLedger
  import D = Dispatcher

  // --- The router's output ---

  function For(c: nat, outputs: seq<(nat, Command)>): seq<Command>
    decreases outputs
  {
    if outputs == [] then [] else (if outputs[0].0 == c then [outputs[0].1] else []) + For(c, outputs[1..])
  }

  lemma {:induction false} DeliverTo(clients: map<nat, Client>, outputs: seq<(nat, Command)>, c: nat)
    ensures var before := ClientIn(clients, c);
      ClientIn(Deliver(clients, outputs), c) ==
      if c in clients then before.(toClient := before.toClient + For(c, outputs)) else before
    ensures c in Deliver(clients, outputs) <==> c in clients
    decreases outputs
  {
    var before := ClientIn(clients, c);
    if outputs == [] {
      assert before.toClient + [] == before.toClient;
    } else {
      var (d, command) := outputs[0];
      var more := if d in clients then clients[d := clients[d].(toClient := clients[d].toClient + [command])] else clients;
      DeliverTo(more, outputs[1..], c);
      var first := if d == c then [command] else [];
      assert c in clients ==> ClientIn(more, c).toClient == before.toClient + first;
      assert before.toClient + first + For(c, outputs[1..]) == before.toClient + (first + For(c, outputs[1..]));
    }
  }

  /** A reply goes to the filter's connection and concerns the filter's device and address. */
  ghost predicate RepliesFit(message: Message, device: Device, visits: seq<R.Visit>) {
    forall i | 0 <= i < |visits| && visits[i].passes && visits[i].filter.reply ::
      visits[i].filter.device == Just(device) && visits[i].filter.address == message.address
  }

  lemma {:induction false} ForAppend(c: nat, a: seq<(nat, Command)>, b: seq<(nat, Command)>)
    ensures For(c, a + b) == For(c, a) + For(c, b)
    decreases a
  {
    if a == [] {
      assert a + b == b;
    } else {
      ForAppend(c, a[1..], b);
      assert (a + b)[1..] == a[1..] + b;
      Regroup(if a[0].0 == c then [a[0].1] else [], For(c, a[1..]), For(c, b));
    }
  }

  lemma ForOne(c: nat, d: nat, command: Command)
    ensures For(c, [(d, command)]) == if d == c then [command] else []
  {
    assert [(d, command)][1..] == [];
  }

  lemma OneReplyCounted(message: Message, device: Device, v: R.Visit, c: nat, name: string, address: Word)
    requires device.name != "" && WellFormedMessage(message)
    requires v.passes && v.filter.reply ==> v.filter.device == Just(device) && v.filter.address == message.address
    ensures Count(ReplyFor(name, address), For(c, R.SentBy(message, device)(v))) ==
            if R.Hit(v) && Ledger.Waits(KeyFor(c, name, address), v.filter) then 1 else 0
  {
    if R.Hit(v) {
      var command := R.RouteCommand(message, device, v.filter.reply);
      RoutedMessage(message, device, v.filter.reply);
      ForOne(c, v.filter.connection, command);
      CountOne(ReplyFor(name, address), command);
    }
  }

  lemma {:induction false} RepliesCounted(
      message: Message, device: Device, visits: seq<R.Visit>, c: nat, name: string, address: Word)
    requires RepliesFit(message, device, visits) && device.name != "" && WellFormedMessage(message)
    ensures Count(ReplyFor(name, address), For(c, R.Deliveries(message, device, visits))) ==
            Ledger.Answered(KeyFor(c, name, address), visits)
    decreases visits
  {
    if visits != [] {
      var now, later := R.SentBy(message, device)(visits[0]), R.Deliveries(message, device, visits[1..]);
      RepliesCounted(message, device, visits[1..], c, name, address);
      OneReplyCounted(message, device, visits[0], c, name, address);
      ForAppend(c, now, later);
      CountAppend(ReplyFor(name, address), For(c, now), For(c, later));
    }
  }

  /** The intended test and distinct ids make the replies fit. */
  lemma PassingRepliesFit(setup: R.Setup, s: R.State, n: nat, message: Message, spaces: seq<bool>)
    requires Runs.Inv(setup, s) && n < |setup.config.networks| && |spaces| == |s.filters|
    requires setup.maskTest == R.Intended && DistinctIds(setup.config.devices)
    requires Ledger.PacketDevice(setup, n, message).Just?
    ensures RepliesFit(message, Ledger.PacketDevice(setup, n, message).value,
                       R.Visits(setup, s, message, setup.config.networks[n], spaces))
  {
    var device := Ledger.PacketDevice(setup, n, message).value;
    var visits := R.Visits(setup, s, message, setup.config.networks[n], spaces);
    forall i | 0 <= i < |visits| && visits[i].passes && visits[i].filter.reply
      ensures visits[i].filter.device == Just(device) && visits[i].filter.address == message.address
    {
      var f := s.filters[i];
      assert Runs.GoodFilter(setup.config, s.up, f);
      FindByIdInverse(setup.config.devices, f.device.value);
      AndWord(message.address);
    }
  }

  lemma OutputCounted(setup: R.Setup, s: R.State, e: Runs.Event, c: nat, name: string, address: Word)
    requires Runs.Inv(setup, s) && Runs.Enabled(setup, s, e)
    requires e.DeviceSends? ==> WellFormedMessage(e.message)
    requires setup.maskTest == R.Intended && DistinctIds(setup.config.devices)
    ensures Count(ReplyFor(name, address), For(c, Runs.Next(setup, s, e).1)) ==
            Ledger.DeliveredBy(KeyFor(c, name, address), setup, s, e)
  {
    match e
    case DeviceSends(n, message, spaces) =>
      if s.started && Ledger.PacketDevice(setup, n, message).Just? {
        var device := Ledger.PacketDevice(setup, n, message).value;
        PassingRepliesFit(setup, s, n, message, spaces);
        RepliesCounted(message, device, R.Visits(setup, s, message, setup.config.networks[n], spaces), c, name, address);
      }
    case ClientSends(d, command, space) =>
      var out := Runs.Next(setup, s, e).1;
      if out != [] {
        assert out[1..] == [];
        assert For(c, out) == if d == c then [out[0].1] else [];
        CountOne(ReplyFor(name, address), out[0].1);
      }
    case _ =>
  }

  lemma AcceptedConcerns(setup: R.Setup, s: R.State, e: Runs.Event, c: nat, name: string, address: Word)
    requires Runs.Inv(setup, s)
    ensures Ledger.AcceptedBy(KeyFor(c, name, address), setup, s, e) <=
            if e.ClientSends? && e.connection == c && Concerns(e.command, "query", name, address) then 1 else 0
  {
    var queued := Ledger.EnqueuedBy(setup, s, e);
    if queued != [] { Ledger.QueuedOne(KeyFor(c, name, address), queued[0]); }
  }

  /** What the router does moves a client's queries along, but makes none. */
  lemma RouterMoves(protocol: Protocol, sys: System, e: Runs.Event, c: nat, name: string, address: Word)
    requires Runs.Inv(protocol.setup, sys.router) && Runs.Enabled(protocol.setup, sys.router, e)
    requires e.DeviceSends? ==> WellFormedMessage(e.message)
    requires Exact(protocol)
    ensures var t := RouterStep(protocol, sys, e);
      && ClientOf(t, c).dispatcher == ClientOf(sys, c).dispatcher
      && UnderWay(t, c, name, address) <= UnderWay(sys, c, name, address) +
         if e.ClientSends? && e.connection == c && Concerns(e.command, "query", name, address) then 1 else 0
  {
    var outputs := Runs.Next(protocol.setup, sys.router, e).1;
    DeliverTo(sys.clients, outputs, c);
    CountAppend(ReplyFor(name, address), ClientOf(sys, c).toClient, For(c, outputs));
    Ledger.StepLedger(KeyFor(c, name, address), protocol.setup, sys.router, e);
    OutputCounted(protocol.setup, sys.router, e, c, name, address);
    AcceptedConcerns(protocol.setup, sys.router, e, c, name, address);
  }

  // --- What a step does to the counts ---

  /** For one client, device and address: the replies that go astray, the queries that time out, and those
      sent with `send`. */
  datatype Tally = Tally(strays: nat, timedOut: nat, plain: nat)

  function StrayFor(name: string, address: Word): D.Call -> bool {
    (call: D.Call) =>
      call.Unhandled? && call.command.kind == Reply && call.command.device == name && call.command.address == address
  }

  predicate IsPlainQuery(e: Event, c: nat, name: string, address: Word) {
    e.Sends? && e.c == c && e.command.kind == Query && e.command.device == name && e.command.address == address
  }

  /** The query that the timer closes is for this device and address. */
  predicate IsTimeout(protocol: Protocol, sys: System, e: Event, c: nat, name: string, address: Word)
    requires Enabled(protocol, sys, e)
  {
    && e.TimerFires? && e.c == c
    && var queries := ClientOf(sys, c).dispatcher.queries;
       D.Matches(queries[D.FindId(queries, queries[e.index].id)], name, address)
  }

  function TallyBy(protocol: Protocol, sys: System, e: Event, c: nat, name: string, address: Word): Tally
    requires Runs.Inv(protocol.setup, sys.router) && Enabled(protocol, sys, e)
  {
    Tally(if e.Hears? && e.c == c then Count(StrayFor(name, address), Next(protocol, sys, e).1) else 0,
          if IsTimeout(protocol, sys, e, c, name, address) then 1 else 0,
          if IsPlainQuery(e, c, name, address) then 1 else 0)
  }

  function Plus(a: Tally, b: Tally): Tally {
    Tally(a.strays + b.strays, a.timedOut + b.timedOut, a.plain + b.plain)
  }

  /** Every query of a connected client that is under way or whose reply went astray is pending, timed out
      or was sent with `send`; and the last two make up for the strays. */
  predicate Balanced(sys: System, tally: Tally, c: nat, name: string, address: Word) {
    && tally.strays <= tally.timedOut + tally.plain
    && (ClientOf(sys, c).dispatcher.connected ==>
          UnderWay(sys, c, name, address) + tally.strays <=
          Pending(sys, c, name, address) + tally.timedOut + tally.plain)
  }

  /** The step keeps the balance, with `step` added to the tally. */
  predicate Balances(sys: System, t: System, step: Tally, c: nat, name: string, address: Word) {
    ClientOf(t, c).dispatcher.connected ==>
      && ClientOf(sys, c).dispatcher.connected
      && UnderWay(t, c, name, address) + step.strays + Pending(sys, c, name, address) <=
         UnderWay(sys, c, name, address) + Pending(t, c, name, address) + step.timedOut + step.plain
      && (step.strays > 0 ==> Pending(t, c, name, address) == 0)
  }

  lemma CommandIssued(sys: System, c: nat, command: Command, name: string, address: Word)
    ensures var client := ClientOf(sys, c);
      Count(QueryFor(name, address), client.toRouter + [command]) ==
      Count(QueryFor(name, address), client.toRouter) + if Concerns(command, "query", name, address) then 1 else 0
  {
    CountAppend(QueryFor(name, address), ClientOf(sys, c).toRouter, [command]);
    CountOne(QueryFor(name, address), command);
  }

  lemma QueryBalances(protocol: Protocol, sys: System, e: Event, name: string, address: Word)
    requires Frame(protocol, sys) && e.Queries? && Enabled(protocol, sys, e)
    ensures Balances(sys, Next(protocol, sys, e).0, Tally(0, 0, 0), e.c, name, address)
  {
    if e.room {
      var client := ClientOf(sys, e.c);
      var t := Next(protocol, sys, e).0;
      var added := ClientOf(t, e.c).dispatcher.queries[|client.dispatcher.queries|];
      ArgumentsReadBack(e.query);
      CommandIssued(sys, e.c, ToService(e.query).value, name, address);
      CountAppend(PendingFor(name, address), client.dispatcher.queries, [added]);
      CountOne(PendingFor(name, address), added);
    }
  }

  lemma SendBalances(protocol: Protocol, sys: System, e: Event, name: string, address: Word)
    requires Frame(protocol, sys) && e.Sends? && Enabled(protocol, sys, e)
    ensures Balances(sys, Next(protocol, sys, e).0, TallyBy(protocol, sys, e, e.c, name, address), e.c, name, address)
  {
    ArgumentsReadBack(e.command);
    CommandIssued(sys, e.c, ToService(e.command).value, name, address);
  }

  lemma FilterBalances(protocol: Protocol, sys: System, e: Event, name: string, address: Word)
    requires Frame(protocol, sys) && e.AddsFilter? && Enabled(protocol, sys, e)
    ensures Balances(sys, Next(protocol, sys, e).0, Tally(0, 0, 0), e.c, name, address)
  {
    if e.room { CommandIssued(sys, e.c, FilterToService(e.filter).value, name, address); }
  }

  /** A timeout takes one pending query away, and leaves it under way. */
  lemma TimeoutBalances(protocol: Protocol, sys: System, e: Event, name: string, address: Word)
    requires Frame(protocol, sys) && e.TimerFires? && Enabled(protocol, sys, e)
    ensures Balances(sys, Next(protocol, sys, e).0, TallyBy(protocol, sys, e, e.c, name, address), e.c, name, address)
  {
    var queries := ClientOf(sys, e.c).dispatcher.queries;
    CountErased(PendingFor(name, address), queries, D.FindId(queries, queries[e.index].id));
  }

  /** What a client hears takes one reply off those under way, if it is one. */
  lemma HeardUnderWay(protocol: Protocol, sys: System, c: nat, name: string, address: Word)
    requires Frame(protocol, sys) && Enabled(protocol, sys, Hears(c))
    ensures UnderWay(Next(protocol, sys, Hears(c)).0, c, name, address) ==
            UnderWay(sys, c, name, address) - if Concerns(ClientOf(sys, c).toClient[0], "reply", name, address) then 1 else 0
  {
    CountTail(ReplyFor(name, address), ClientOf(sys, c).toClient);
  }

  lemma CountTail<X>(p: X -> bool, xs: seq<X>)
    requires xs != []
    ensures Count(p, xs) == (if p(xs[0]) then 1 else 0) + Count(p, xs[1..])
  {
  }

  /** A reply closes a query, or goes astray when none is pending. */
  lemma ReplyTaken(s: D.State, reply: DeviceCommand, name: string, address: Word)
    requires reply.kind == Reply
    ensures var (t, calls) := D.GetReply(s, reply);
      var strays := Count(StrayFor(name, address), calls);
      && Count(PendingFor(name, address), s.queries) + strays ==
         Count(PendingFor(name, address), t.queries) + (if reply.device == name && reply.address == address then 1 else 0)
      && (strays > 0 ==> Count(PendingFor(name, address), t.queries) == 0)
  {
    var i := D.FindQuery(s.queries, reply.device, reply.address);
    CountOne(StrayFor(name, address), D.GetReply(s, reply).1[0]);
    if i < |s.queries| {
      CountErased(PendingFor(name, address), s.queries, i);
    } else {
      CountPositive(PendingFor(name, address), s.queries);
    }
  }

  lemma HeardReply(protocol: Protocol, sys: System, c: nat, name: string, address: Word)
    requires Frame(protocol, sys) && Enabled(protocol, sys, Hears(c)) && ClientOf(sys, c).toClient[0].action == "reply"
    ensures Balances(sys, Next(protocol, sys, Hears(c)).0, TallyBy(protocol, sys, Hears(c), c, name, address),
                     c, name, address)
  {
    var client := ClientOf(sys, c);
    HeardUnderWay(protocol, sys, c, name, address);
    ReplyTaken(client.dispatcher, FromService(FRESH_DEVICE_COMMAND, client.toClient[0]).value, name, address);
  }

  lemma HeardOther(protocol: Protocol, sys: System, c: nat, name: string, address: Word)
    requires Frame(protocol, sys) && Enabled(protocol, sys, Hears(c)) && ClientOf(sys, c).toClient[0].action != "reply"
    ensures Balances(sys, Next(protocol, sys, Hears(c)).0, TallyBy(protocol, sys, Hears(c), c, name, address),
                     c, name, address)
  {
    var client := ClientOf(sys, c);
    HeardUnderWay(protocol, sys, c, name, address);
    OtherTaken(client.dispatcher, client.toClient[0], name, address);
  }

  lemma OtherTaken(s: D.State, command: Command, name: string, address: Word)
    requires D.Acceptable(command) && command.action != "reply"
    ensures var (t, calls) := D.GetPacket(s, command);
      t.connected == s.connected && t.queries == s.queries && Count(StrayFor(name, address), calls) == 0
  {
    var calls := D.GetPacket(s, command).1;
    if calls != [] {
      assert calls == [calls[0]];
      CountOne(StrayFor(name, address), calls[0]);
    }
  }

  lemma ReadTaken(sys: System, d: nat, c: nat, name: string, address: Word)
    requires d in sys.clients && sys.clients[d].toRouter != []
    ensures var client := sys.clients[d]; var rest := WithClient(sys, d, client.(toRouter := client.toRouter[1..]));
      && ClientOf(rest, c).dispatcher == ClientOf(sys, c).dispatcher
      && UnderWay(sys, c, name, address) == UnderWay(rest, c, name, address) +
         if d == c && Concerns(client.toRouter[0], "query", name, address) then 1 else 0
  {
    CountTail(QueryFor(name, address), sys.clients[d].toRouter);
  }

  lemma ReadBalances(protocol: Protocol, sys: System, e: Event, c: nat, name: string, address: Word)
    requires Frame(protocol, sys) && Exact(protocol) && e.RouterReads? && Enabled(protocol, sys, e)
    ensures Balances(sys, Next(protocol, sys, e).0, Tally(0, 0, 0), c, name, address)
  {
    var client := ClientOf(sys, e.c);
    var rest := WithClient(sys, e.c, client.(toRouter := client.toRouter[1..]));
    ReadTaken(sys, e.c, c, name, address);
    RouterMoves(protocol, rest, Runs.ClientSends(e.c, client.toRouter[0], e.space), c, name, address);
  }

  lemma ConnectBalances(protocol: Protocol, sys: System, c: nat, name: string, address: Word)
    requires Frame(protocol, sys) && Enabled(protocol, sys, Connects)
    ensures Balances(sys, Next(protocol, sys, Connects).0, Tally(0, 0, 0), c, name, address)
  {
  }

  predicate OfClient(e: Event) {
    !e.RouterReads? && !e.RouterDoes? && !e.Connects?
  }

  lemma OtherClientStays(protocol: Protocol, sys: System, e: Event, c: nat)
    requires Frame(protocol, sys) && Enabled(protocol, sys, e) && OfClient(e) && e.c != c
    ensures var t := Next(protocol, sys, e).0; ClientOf(t, c) == ClientOf(sys, c) && t.router == sys.router
  {
  }

  lemma LeaveDisconnects(protocol: Protocol, sys: System, c: nat)
    requires Frame(protocol, sys) && Enabled(protocol, sys, Leaves(c))
    ensures !ClientOf(Next(protocol, sys, Leaves(c)).0, c).dispatcher.connected
  {
  }

  lemma ClientStepBalances(protocol: Protocol, sys: System, e: Event, c: nat, name: string, address: Word)
    requires Frame(protocol, sys) && Enabled(protocol, sys, e) && OfClient(e)
    ensures Balances(sys, Next(protocol, sys, e).0, TallyBy(protocol, sys, e, c, name, address), c, name, address)
  {
    if e.c != c {
      OtherClientStays(protocol, sys, e, c);
    } else {
      match e
      case Queries(_, _, _, _) => QueryBalances(protocol, sys, e, name, address);
      case Sends(_, _) => SendBalances(protocol, sys, e, name, address);
      case AddsFilter(_, _, _, _) => FilterBalances(protocol, sys, e, name, address);
      case Leaves(_) => LeaveDisconnects(protocol, sys, c);
      case TimerFires(_, _) => TimeoutBalances(protocol, sys, e, name, address);
      case Hears(_) =>
        if ClientOf(sys, c).toClient[0].action == "reply" {
          HeardReply(protocol, sys, c, name, address);
        } else {
          HeardOther(protocol, sys, c, name, address);
        }
    }
  }

  /** No step puts a query under way without one pending, but for plain queries; none closes a pending one
      that stays under way, but for timeouts; and a reply goes astray only when no query is pending. */
  lemma StepBalances(protocol: Protocol, sys: System, e: Event, c: nat, name: string, address: Word)
    requires Frame(protocol, sys) && Exact(protocol) && Enabled(protocol, sys, e)
    ensures Balances(sys, Next(protocol, sys, e).0, TallyBy(protocol, sys, e, c, name, address), c, name, address)
  {
    if e.RouterReads? {
      ReadBalances(protocol, sys, e, c, name, address);
    } else if e.RouterDoes? {
      RouterMoves(protocol, sys, e.event, c, name, address);
    } else if e.Connects? {
      ConnectBalances(protocol, sys, c, name, address);
    } else {
      ClientStepBalances(protocol, sys, e, c, name, address);
    }
  }

  /** A reply the client reads finds its query. */
  lemma ReplyFindsQuery(protocol: Protocol, sys: System, c: nat)
    requires Inv(protocol, sys) && Enabled(protocol, sys, Hears(c)) && ClientOf(sys, c).toClient[0].action == "reply"
    ensures var reply := FromService(FRESH_DEVICE_COMMAND, ClientOf(sys, c).toClient[0]).value;
      D.FindQuery(ClientOf(sys, c).dispatcher.queries, reply.device, reply.address) < |ClientOf(sys, c).dispatcher.queries|
  {
    var client := ClientOf(sys, c);
    var reply := FromService(FRESH_DEVICE_COMMAND, client.toClient[0]).value;
    var p := ReplyFor(reply.device, reply.address);
    assert Covered(sys, c, reply.device, reply.address);
    assert p(client.toClient[0]);
    CountPositive(p, client.toClient);
    CountPositive(PendingFor(reply.device, reply.address), client.dispatcher.queries);
  }

  // --- The other parts of the invariant ---

  lemma {:induction false} DeliveriesUnderstood(message: Message, device: Device, visits: seq<R.Visit>, c: nat)
    requires device.name != "" && WellFormedMessage(message)
    ensures AllUnderstood(For(c, R.Deliveries(message, device, visits)))
    decreases visits
  {
    if visits != [] {
      var v, now := visits[0], R.SentBy(message, device)(visits[0]);
      DeliveriesUnderstood(message, device, visits[1..], c);
      ForAppend(c, now, R.Deliveries(message, device, visits[1..]));
      if R.Hit(v) {
        RoutedMessage(message, device, v.filter.reply);
        ForOne(c, v.filter.connection, R.RouteCommand(message, device, v.filter.reply));
      }
    }
  }

  lemma OutputUnderstood(setup: R.Setup, s: R.State, e: Runs.Event, c: nat)
    requires Runs.Inv(setup, s) && Runs.Enabled(setup, s, e)
    requires e.DeviceSends? ==> WellFormedMessage(e.message)
    ensures AllUnderstood(For(c, Runs.Next(setup, s, e).1))
  {
    match e
    case DeviceSends(n, message, spaces) =>
      if s.started && Ledger.PacketDevice(setup, n, message).Just? {
        DeliveriesUnderstood(message, Ledger.PacketDevice(setup, n, message).value,
                             R.Visits(setup, s, message, setup.config.networks[n], spaces), c);
      }
    case ClientSends(d, command, space) =>
      var out := Runs.Next(setup, s, e).1;
      if out != [] {
        assert out[1..] == [];
        assert For(c, out) == if d == c then [out[0].1] else [];
      }
    case _ =>
  }

  lemma NumbersStay(setup: R.Setup, s: R.State, e: Runs.Event)
    requires Runs.Inv(setup, s) && Runs.Enabled(setup, s, e) && !e.ClientAccepted?
    ensures Runs.Next(setup, s, e).0.nextId == s.nextId
  {
  }

  lemma RouterKeepsFrame(protocol: Protocol, sys: System, e: Runs.Event)
    requires Frame(protocol, sys) && Runs.Enabled(protocol.setup, sys.router, e) && !e.ClientAccepted?
    requires e.DeviceSends? ==> WellFormedMessage(e.message)
    ensures Frame(protocol, RouterStep(protocol, sys, e))
  {
    var t, outputs := RouterStep(protocol, sys, e), Runs.Next(protocol.setup, sys.router, e).1;
    Runs.StepKeepsInv(protocol.setup, sys.router, e);
    NumbersStay(protocol.setup, sys.router, e);
    forall c: nat
      ensures c in t.clients ==> c <= t.router.nextId
      ensures AllUnderstood(ClientOf(t, c).toClient)
    {
      DeliverTo(sys.clients, outputs, c);
      OutputUnderstood(protocol.setup, sys.router, e, c);
      assert AllUnderstood(ClientOf(sys, c).toClient);
    }
  }

  lemma StepKeepsFrame(protocol: Protocol, sys: System, e: Event)
    requires Frame(protocol, sys) && Enabled(protocol, sys, e)
    ensures Frame(protocol, Next(protocol, sys, e).0)
  {
    match e
    case RouterReads(c, space) =>
      var client := ClientOf(sys, c);
      var rest := WithClient(sys, c, client.(toRouter := client.toRouter[1..]));
      assert Frame(protocol, rest) by {
        forall d: nat
          ensures AllUnderstood(ClientOf(rest, d).toClient)
        {
          assert AllUnderstood(ClientOf(sys, d).toClient);
        }
      }
      RouterKeepsFrame(protocol, rest, Runs.ClientSends(c, client.toRouter[0], space));
    case RouterDoes(event) => RouterKeepsFrame(protocol, sys, event);
    case Connects => ClientsKeepFrame(protocol, sys, e);
      Runs.StepKeepsInv(protocol.setup, sys.router, Runs.ClientAccepted);
    case _ => ClientsKeepFrame(protocol, sys, e);
  }

  /** What a client still has to read only gets shorter by what it reads. */
  lemma ChannelStays(protocol: Protocol, sys: System, e: Event, c: nat)
    requires Frame(protocol, sys) && Enabled(protocol, sys, e) && !e.RouterReads? && !e.RouterDoes?
    ensures ClientOf(Next(protocol, sys, e).0, c).toClient ==
            if e == Hears(c) then ClientOf(sys, c).toClient[1..] else ClientOf(sys, c).toClient
  {
  }

  lemma ClientsKeepFrame(protocol: Protocol, sys: System, e: Event)
    requires Frame(protocol, sys) && Enabled(protocol, sys, e) && !e.RouterReads? && !e.RouterDoes?
    ensures var t := Next(protocol, sys, e).0;
      && (e.Connects? || t.router == sys.router)
      && (forall c: nat :: c in t.clients ==> c <= t.router.nextId)
      && (forall c: nat :: AllUnderstood(ClientOf(t, c).toClient))
  {
    var t := Next(protocol, sys, e).0;
    forall c: nat
      ensures AllUnderstood(ClientOf(t, c).toClient)
    {
      assert AllUnderstood(ClientOf(sys, c).toClient);
      ChannelStays(protocol, sys, e, c);
    }
  }

  // --- Runs ---

  ghost function Beginning(protocol: Protocol): (sys: System)
    requires Valid(protocol.setup.config)
    ensures Inv(protocol, sys)
  {
    Runs.InitialInv(protocol.setup);
    System(R.Initial(protocol.setup.config), map[])
  }

  ghost predicate Possible(protocol: Protocol, sys: System, events: seq<Event>)
    requires Frame(protocol, sys)
    decreases events
  {
    events == [] ||
    (Enabled(protocol, sys, events[0]) &&
     (StepKeepsFrame(protocol, sys, events[0]); Possible(protocol, Next(protocol, sys, events[0]).0, events[1..])))
  }

  /** A reply that goes to the handler for unknown commands. */
  predicate Stray(calls: seq<D.Call>) {
    exists i :: 0 <= i < |calls| && calls[i].Unhandled? && calls[i].command.kind == Reply
  }

  /** Every reply is handed to a query. */
  ghost predicate NoStrays(protocol: Protocol, sys: System, events: seq<Event>)
    requires Frame(protocol, sys) && Possible(protocol, sys, events)
    decreases events
  {
    events == [] ||
    (!Stray(Next(protocol, sys, events[0]).1) &&
     (StepKeepsFrame(protocol, sys, events[0]); NoStrays(protocol, Next(protocol, sys, events[0]).0, events[1..])))
  }

  /** In every run from here on every reply finds its query. */
  ghost predicate Safe(protocol: Protocol, sys: System)
    requires Frame(protocol, sys)
  {
    forall events | Possible(protocol, sys, events) :: NoStrays(protocol, sys, events)
  }

  lemma StepCovers(protocol: Protocol, sys: System, e: Event, c: nat, name: string, address: Word)
    requires Inv(protocol, sys) && Sound(protocol) && Enabled(protocol, sys, e)
    ensures Covered(Next(protocol, sys, e).0, c, name, address)
  {
    assert Covered(sys, c, name, address);
    StepBalances(protocol, sys, e, c, name, address);
  }

  lemma StepIsSafe(protocol: Protocol, sys: System, e: Event)
    requires Inv(protocol, sys) && Sound(protocol) && Enabled(protocol, sys, e)
    ensures Inv(protocol, Next(protocol, sys, e).0) && !Stray(Next(protocol, sys, e).1)
  {
    var t := Next(protocol, sys, e).0;
    StepKeepsFrame(protocol, sys, e);
    forall c: nat, name: string, address: Word
      ensures Covered(t, c, name, address)
    {
      StepCovers(protocol, sys, e, c, name, address);
    }
    if e.Hears? && ClientOf(sys, e.c).toClient[0].action == "reply" { ReplyFindsQuery(protocol, sys, e.c); }
  }

  /** With the intended address test, distinct ids and no timeouts every reply finds its query. */
  lemma {:induction false} RunIsSafe(protocol: Protocol, sys: System, events: seq<Event>)
    requires Inv(protocol, sys) && Sound(protocol) && Possible(protocol, sys, events)
    ensures NoStrays(protocol, sys, events)
    decreases events
  {
    if events != [] {
      StepIsSafe(protocol, sys, events[0]);
      RunIsSafe(protocol, Next(protocol, sys, events[0]).0, events[1..]);
    }
  }

  // --- With timeouts and plain queries ---

  ghost function TallyOf(protocol: Protocol, sys: System, events: seq<Event>, c: nat, name: string, address: Word): Tally
    requires Frame(protocol, sys) && Possible(protocol, sys, events)
    decreases events
  {
    if events == [] then Tally(0, 0, 0) else
    StepKeepsFrame(protocol, sys, events[0]);
    Plus(TallyBy(protocol, sys, events[0], c, name, address),
         TallyOf(protocol, Next(protocol, sys, events[0]).0, events[1..], c, name, address))
  }

  lemma StepKeepsBalance(protocol: Protocol, sys: System, e: Event, tally: Tally, c: nat, name: string, address: Word)
    requires Frame(protocol, sys) && Exact(protocol) && Enabled(protocol, sys, e) && Balanced(sys, tally, c, name, address)
    ensures Balanced(Next(protocol, sys, e).0, Plus(tally, TallyBy(protocol, sys, e, c, name, address)), c, name, address)
  {
    StepBalances(protocol, sys, e, c, name, address);
    if e.Hears? && e.c == c { HearingStaysConnected(protocol, sys, c); }
  }

  lemma HearingStaysConnected(protocol: Protocol, sys: System, c: nat)
    requires Frame(protocol, sys) && Enabled(protocol, sys, Hears(c))
    ensures ClientOf(Next(protocol, sys, Hears(c)).0, c).dispatcher.connected
  {
  }

  lemma {:induction false} RunKeepsBalance(
      protocol: Protocol, sys: System, events: seq<Event>, tally: Tally, c: nat, name: string, address: Word)
    requires Frame(protocol, sys) && Exact(protocol) && Possible(protocol, sys, events)
    requires Balanced(sys, tally, c, name, address)
    ensures var all := Plus(tally, TallyOf(protocol, sys, events, c, name, address)); all.strays <= all.timedOut + all.plain
    decreases events
  {
    if events != [] {
      var step := TallyBy(protocol, sys, events[0], c, name, address);
      StepKeepsFrame(protocol, sys, events[0]);
      StepKeepsBalance(protocol, sys, events[0], tally, c, name, address);
      RunKeepsBalance(protocol, Next(protocol, sys, events[0]).0, events[1..], Plus(tally, step), c, name, address);
    }
  }

  /** With timeouts and plain queries, too: in every run the replies to a client that go astray for one
      device and address are no more than its queries for them that timed out or were sent with `send`. */
  lemma StraysAreBounded(protocol: Protocol, events: seq<Event>, c: nat, name: string, address: Word)
    requires Valid(protocol.setup.config) && Exact(protocol) && Possible(protocol, Beginning(protocol), events)
    ensures var tally := TallyOf(protocol, Beginning(protocol), events, c, name, address);
      tally.strays <= tally.timedOut + tally.plain
  {
    assert Covered(Beginning(protocol), c, name, address);
    RunKeepsBalance(protocol, Beginning(protocol), events, Tally(0, 0, 0), c, name, address);
  }
}
