/** How replies go astray when the address test, the configuration or the clients do not keep to what the
    protocol needs, and with that the exact condition for the protocol to work
    (deephome/router/Router.cpp:214-228, deephome/router/Config.cpp:86-118). */
module QueryMishaps {
  import opened Sequences
  import opened Messages
  import opened DeviceCommands
  import opened RouterConfig
  import opened QueryProtocol
  import opened QuerySafety
  import R = Router
  import Runs = RouterRuns
  import Filters = RouterFilters
  import D = Dispatcher

  lemma RiskyBefore(protocol: Protocol, sys: System, e: Event)
    requires Frame(protocol, sys) && Enabled(protocol, sys, e) && Frame(protocol, Next(protocol, sys, e).0)
    requires !Safe(protocol, Next(protocol, sys, e).0)
    ensures !Safe(protocol, sys)
  {
    var t := Next(protocol, sys, e).0;
    var rest :| Possible(protocol, t, rest) && !NoStrays(protocol, t, rest);
    var events := [e] + rest;
    assert events[0] == e && events[1..] == rest;
    assert Possible(protocol, sys, events) && !NoStrays(protocol, sys, events);
  }

  /** One query at `address`, to be answered by a message at address 0. */
  datatype Mishap = Mishap(device: Device, address: Word, way: Way)

  /** How the query is sent: with `send_query` and an infinite or a finite timeout, or with `send`. */
  datatype Way = Untimed | Timed | Plain

  const CLIENT: nat := 1

  function QueryOf(m: Mishap): DeviceCommand {
    DeviceCommand(m.device.name, Query, m.address, [])
  }

  /** The client's dispatcher after that. */
  function DispatcherOf(m: Mishap): D.State {
    if m.way.Plain? then D.Start(D.INITIAL)
    else D.State(true, 1, 1, [D.PendingQuery(1, 1, m.device.name, m.address, m.way.Timed?)], [])
  }

  function AnswerOf(protocol: Protocol, m: Mishap): Found<Device> {
    FindById(protocol.setup.config.devices, m.device.network, m.device.id)
  }

  /** The filter takes the message, and the query is not what it answers, times out before, or is not
      pending. */
  predicate Feasible(protocol: Protocol, m: Mishap) {
    && Valid(protocol.setup.config) && m.device in protocol.setup.config.devices
    && R.AddressPasses(protocol.setup.maskTest, 0, R.ReplyFilter(CLIENT, m.device, m.address))
    && (m.way.Timed? ==> protocol.timeouts) && (m.way.Plain? ==> protocol.plainQueries)
    && (m.way.Untimed? ==> m.address != 0 || AnswerOf(protocol, m) != Just(m.device))
  }

  lemma MishapExists(protocol: Protocol)
    requires Valid(protocol.setup.config) && !Sound(protocol)
    ensures exists m :: Feasible(protocol, m)
  {
    var devices := protocol.setup.config.devices;
    Filters.ReplyFilterTests(CLIENT, devices[0], 0, 0);
    Filters.ReplyFilterTests(CLIENT, devices[0], 1, 0);
    if protocol.timeouts {
      assert Feasible(protocol, Mishap(devices[0], 0, Timed));
    } else if protocol.plainQueries {
      assert Feasible(protocol, Mishap(devices[0], 0, Plain));
    } else if protocol.setup.maskTest == R.Written {
      assert Feasible(protocol, Mishap(devices[0], 1, Untimed));
    } else {
      SharedIdHidesDevice(devices);
      var d :| d in devices && FindById(devices, d.network, d.id) != Just(d);
      Filters.ReplyFilterTests(CLIENT, d, 0, 0);
      assert Feasible(protocol, Mishap(d, 0, Untimed));
    }
  }

  // --- The last steps first ---

  /** The reply has come in and matches nothing. */
  ghost predicate Doomed(client: Client) {
    && client.dispatcher.connected && |client.toClient| == 1
    && client.toClient[0].action == "reply" && D.Acceptable(client.toClient[0])
    && var reply := FromService(FRESH_DEVICE_COMMAND, client.toClient[0]).value;
       D.FindQuery(client.dispatcher.queries, reply.device, reply.address) == |client.dispatcher.queries|
  }

  lemma StraysAtOnce(protocol: Protocol, sys: System, e: Event)
    requires Frame(protocol, sys) && Enabled(protocol, sys, e) && Frame(protocol, Next(protocol, sys, e).0)
    requires Stray(Next(protocol, sys, e).1)
    ensures !Safe(protocol, sys)
  {
    var events := [e];
    assert events[0] == e && events[1..] == [];
    assert Possible(protocol, Next(protocol, sys, e).0, []);
    assert Possible(protocol, sys, events);
    assert !NoStrays(protocol, sys, events);
  }

  lemma DoomedIsRisky(protocol: Protocol, sys: System)
    requires Frame(protocol, sys) && CLIENT in sys.clients && Doomed(sys.clients[CLIENT])
    ensures !Safe(protocol, sys)
  {
    var e := Hears(CLIENT);
    StepKeepsFrame(protocol, sys, e);
    var calls := Next(protocol, sys, e).1;
    assert calls[0].Unhandled? && calls[0].command.kind == Reply;
    StraysAtOnce(protocol, sys, e);
  }

  function ReplyTo(protocol: Protocol, m: Mishap): Command
    requires AnswerOf(protocol, m).Just?
  {
    R.RouteCommand(Message(Data, m.device.id, 0, []), AnswerOf(protocol, m).value, true)
  }

  /** The router has confirmed the query and sent the reply. */
  predicate Replied(protocol: Protocol, sys: System, m: Mishap)
    requires Feasible(protocol, m)
  {
    && CLIENT in sys.clients
    && sys.clients[CLIENT] == Client(DispatcherOf(m), [],
                                     [R.Answer("query", true), ReplyTo(protocol, m)])
  }

  lemma RepliedIsRisky(protocol: Protocol, sys: System, m: Mishap)
    requires Feasible(protocol, m) && Frame(protocol, sys) && Replied(protocol, sys, m)
    ensures !Safe(protocol, sys)
  {
    var device := AnswerOf(protocol, m).value;
    RoutedMessage(Message(Data, m.device.id, 0, []), device, true);
    if device.name == m.device.name {
      FindByNameInverse(protocol.setup.config.devices, device);
      FindByNameInverse(protocol.setup.config.devices, m.device);
    }
    if m.way.Timed? {
      TimedOutIsRisky(protocol, sys, m);
    } else {
      ConfirmedIsRisky(protocol, sys);
    }
  }

  lemma TimedOutIsRisky(protocol: Protocol, sys: System, m: Mishap)
    requires Feasible(protocol, m) && m.way.Timed? && Frame(protocol, sys) && Replied(protocol, sys, m)
    ensures !Safe(protocol, sys)
  {
    var timer := TimerFires(CLIENT, 0);
    RoutedMessage(Message(Data, m.device.id, 0, []), AnswerOf(protocol, m).value, true);
    StepKeepsFrame(protocol, sys, timer);
    ConfirmedIsRisky(protocol, Next(protocol, sys, timer).0);
    RiskyBefore(protocol, sys, timer);
  }

  lemma ConfirmedIsRisky(protocol: Protocol, sys: System)
    requires Frame(protocol, sys) && CLIENT in sys.clients
    requires sys.clients[CLIENT].toClient != [] && sys.clients[CLIENT].toClient[0].action == "ok"
    requires var client := sys.clients[CLIENT]; Doomed(client.(toClient := client.toClient[1..]))
    ensures !Safe(protocol, sys)
  {
    StepKeepsFrame(protocol, sys, Hears(CLIENT));
    DoomedIsRisky(protocol, Next(protocol, sys, Hears(CLIENT)).0);
    RiskyBefore(protocol, sys, Hears(CLIENT));
  }

  function NetworkOf(protocol: Protocol, m: Mishap): (n: nat)
    requires Feasible(protocol, m)
    ensures n < |protocol.setup.config.networks| && protocol.setup.config.networks[n] == m.device.network
  {
    assert DeviceLinked(protocol.setup.config.networks, m.device);
    R.NetworkIndex(protocol.setup.config.networks, m.device.network)
  }

  /** Up and running, with one client. */
  predicate OneClient(protocol: Protocol, sys: System, m: Mishap, client: Client)
    requires Feasible(protocol, m)
  {
    && sys.router.started && sys.router.connections == {CLIENT}
    && |sys.router.up| == |protocol.setup.config.networks| && sys.router.up[NetworkOf(protocol, m)]
    && CLIENT in sys.clients && sys.clients[CLIENT] == client
  }

  /** The query has been sent to the device. */
  predicate Sent(protocol: Protocol, sys: System, m: Mishap)
    requires Feasible(protocol, m)
  {
    && OneClient(protocol, sys, m, Client(DispatcherOf(m), [], [R.Answer("query", true)]))
    && sys.router.filters == [R.ReplyFilter(CLIENT, m.device, m.address)]
  }

  lemma OneDelivery(message: Message, device: Device, visits: seq<R.Visit>)
    requires |visits| == 1 && R.Hit(visits[0])
    ensures R.Deliveries(message, device, visits) ==
            [(visits[0].filter.connection, R.RouteCommand(message, device, visits[0].filter.reply))]
  {
    assert visits == [visits[0]];
    FlatMapOne(R.SentBy(message, device), visits[0]);
  }

  lemma SentIsRisky(protocol: Protocol, sys: System, m: Mishap)
    requires Feasible(protocol, m) && Frame(protocol, sys) && Sent(protocol, sys, m)
    ensures !Safe(protocol, sys)
  {
    var message, n := Message(Data, m.device.id, 0, []), NetworkOf(protocol, m);
    var e := RouterDoes(Runs.DeviceSends(n, message, [true]));
    var t := Next(protocol, sys, e).0;
    StepKeepsFrame(protocol, sys, e);
    var visits := R.Visits(protocol.setup, sys.router, message, protocol.setup.config.networks[n], [true]);
    var outputs := Runs.Next(protocol.setup, sys.router, e.event).1;
    var device := AnswerOf(protocol, m).value;
    OneDelivery(message, device, visits);
    assert outputs == [(CLIENT, ReplyTo(protocol, m))];
    assert For(CLIENT, outputs) == [ReplyTo(protocol, m)] by { assert outputs[1..] == []; }
    DeliverTo(sys.clients, outputs, CLIENT);
    assert Replied(protocol, t, m);
    RepliedIsRisky(protocol, t, m);
    RiskyBefore(protocol, sys, e);
  }

  /** The query is in the router's queue. */
  predicate Accepted(protocol: Protocol, sys: System, m: Mishap)
    requires Feasible(protocol, m)
  {
    && OneClient(protocol, sys, m, Client(DispatcherOf(m), [], [R.Answer("query", true)]))
    && sys.router.filters == [] && sys.router.sendTimer && |sys.router.queue| == 1
    && sys.router.queue[0].kind == Request && sys.router.queue[0].network == NetworkOf(protocol, m)
    && sys.router.queue[0].response == R.ReplyFilter(CLIENT, m.device, m.address)
  }

  lemma AcceptedIsRisky(protocol: Protocol, sys: System, m: Mishap)
    requires Feasible(protocol, m) && Frame(protocol, sys) && Accepted(protocol, sys, m)
    ensures !Safe(protocol, sys)
  {
    var e := RouterDoes(Runs.SendFires(true));
    StepKeepsFrame(protocol, sys, e);
    SentIsRisky(protocol, Next(protocol, sys, e).0, m);
    RiskyBefore(protocol, sys, e);
  }

  /** The query is on its way to the router. */
  predicate Issued(protocol: Protocol, sys: System, m: Mishap)
    requires Feasible(protocol, m) && ToService(QueryOf(m)).Ok?
  {
    && OneClient(protocol, sys, m, Client(DispatcherOf(m), [ToService(QueryOf(m)).value], []))
    && sys.router.filters == [] && sys.router.queue == []
  }

  /** The record the router makes of the query. */
  lemma QueryRecord(protocol: Protocol, up: seq<bool>, m: Mishap)
    requires Feasible(protocol, m) && ToService(QueryOf(m)).Ok?
    requires |up| == |protocol.setup.config.networks| && up[NetworkOf(protocol, m)]
    ensures R.MakeRecord(protocol.setup.config, up, ToService(QueryOf(m)).value, CLIENT, Request) ==
            Just(R.SendRecord(Request, NetworkOf(protocol, m), Message(Request, m.device.id, m.address, []),
                              R.ReplyFilter(CLIENT, m.device, m.address)))
  {
    ArgumentsReadBack(QueryOf(m));
    FindByNameInverse(protocol.setup.config.devices, m.device);
  }

  lemma RecordAccepted(setup: R.Setup, s: R.State, command: Command, record: R.SendRecord)
    requires Runs.Inv(setup, s) && s.started && CLIENT in s.connections && s.queue == [] && command.action == "query"
    requires R.MakeRecord(setup.config, s.up, command, CLIENT, Request) == Just(record)
    ensures var (t, outputs) := Runs.Next(setup, s, Runs.ClientSends(CLIENT, command, true));
      t == s.(queue := [record], sendTimer := true) && outputs == [(CLIENT, R.Answer("query", true))]
  {
    assert s.queue + [record] == [record];
  }

  /** The router takes the query and confirms it. */
  lemma QueryAccepted(protocol: Protocol, s: R.State, m: Mishap)
    requires Feasible(protocol, m) && ToService(QueryOf(m)).Ok? && Runs.Inv(protocol.setup, s)
    requires s.started && CLIENT in s.connections && s.up[NetworkOf(protocol, m)] && s.queue == []
    ensures var (t, outputs) := Runs.Next(protocol.setup, s, Runs.ClientSends(CLIENT, ToService(QueryOf(m)).value, true));
      && outputs == [(CLIENT, R.Answer("query", true))]
      && t == s.(queue := t.queue, sendTimer := true) && |t.queue| == 1
      && t.queue[0].kind == Request && t.queue[0].network == NetworkOf(protocol, m)
      && t.queue[0].response == R.ReplyFilter(CLIENT, m.device, m.address)
  {
    var command := ToService(QueryOf(m)).value;
    QueryRecord(protocol, s.up, m);
    assert command.action == "query";
    RecordAccepted(protocol.setup, s, command, R.MakeRecord(protocol.setup.config, s.up, command, CLIENT, Request).value);
  }

  lemma IssuedIsRisky(protocol: Protocol, sys: System, m: Mishap)
    requires Feasible(protocol, m) && ToService(QueryOf(m)).Ok? && Frame(protocol, sys) && Issued(protocol, sys, m)
    ensures !Safe(protocol, sys)
  {
    var e, outputs := RouterReads(CLIENT, true), [(CLIENT, R.Answer("query", true))];
    var t := Next(protocol, sys, e).0;
    var rest := WithClient(sys, CLIENT, sys.clients[CLIENT].(toRouter := []));
    assert sys.clients[CLIENT].toRouter[1..] == [];
    StepKeepsFrame(protocol, sys, e);
    QueryAccepted(protocol, sys.router, m);
    assert For(CLIENT, outputs) == [R.Answer("query", true)] by { assert outputs[1..] == []; }
    DeliverTo(rest.clients, outputs, CLIENT);
    assert Accepted(protocol, t, m);
    AcceptedIsRisky(protocol, t, m);
    RiskyBefore(protocol, sys, e);
  }

  predicate Connected(protocol: Protocol, sys: System, m: Mishap)
    requires Feasible(protocol, m)
  {
    OneClient(protocol, sys, m, NEW_CLIENT) && sys.router.filters == [] && sys.router.queue == []
  }

  function Issue(m: Mishap): Event {
    if m.way.Plain? then Sends(CLIENT, QueryOf(m)) else Queries(CLIENT, QueryOf(m), m.way.Timed?, true)
  }

  lemma PlainIssued(protocol: Protocol, sys: System, m: Mishap)
    requires Feasible(protocol, m) && m.way.Plain? && Frame(protocol, sys) && Connected(protocol, sys, m)
    requires ToService(QueryOf(m)).Ok?
    ensures Enabled(protocol, sys, Issue(m)) && Issued(protocol, Next(protocol, sys, Issue(m)).0, m)
  {
    assert [] + [ToService(QueryOf(m)).value] == [ToService(QueryOf(m)).value];
  }

  lemma PendingIssued(protocol: Protocol, sys: System, m: Mishap)
    requires Feasible(protocol, m) && !m.way.Plain? && Frame(protocol, sys) && Connected(protocol, sys, m)
    requires ToService(QueryOf(m)).Ok?
    ensures Enabled(protocol, sys, Issue(m)) && Issued(protocol, Next(protocol, sys, Issue(m)).0, m)
  {
    assert [] + [ToService(QueryOf(m)).value] == [ToService(QueryOf(m)).value];
    assert D.SendQuery(NEW_CLIENT.dispatcher, QueryOf(m), m.way.Timed?, true) == DispatcherOf(m);
  }

  lemma QueryIssued(protocol: Protocol, sys: System, m: Mishap)
    requires Feasible(protocol, m) && Frame(protocol, sys) && Connected(protocol, sys, m)
    ensures ToService(QueryOf(m)).Ok?
    ensures Enabled(protocol, sys, Issue(m)) && Issued(protocol, Next(protocol, sys, Issue(m)).0, m)
  {
    if m.way.Plain? { PlainIssued(protocol, sys, m); } else { PendingIssued(protocol, sys, m); }
  }

  lemma ConnectedIsRisky(protocol: Protocol, sys: System, m: Mishap)
    requires Feasible(protocol, m) && Frame(protocol, sys) && Connected(protocol, sys, m)
    ensures !Safe(protocol, sys)
  {
    QueryIssued(protocol, sys, m);
    StepKeepsFrame(protocol, sys, Issue(m));
    IssuedIsRisky(protocol, Next(protocol, sys, Issue(m)).0, m);
    RiskyBefore(protocol, sys, Issue(m));
  }

  lemma BeginningIsRisky(protocol: Protocol, m: Mishap)
    requires Feasible(protocol, m)
    ensures !Safe(protocol, Beginning(protocol))
  {
    var reach := seq(|protocol.setup.config.networks|, _ => true);
    var start := RouterDoes(Runs.Starts(reach));
    var started := Next(protocol, Beginning(protocol), start).0;
    StepKeepsFrame(protocol, Beginning(protocol), start);
    var connected := Next(protocol, started, Connects).0;
    StepKeepsFrame(protocol, started, Connects);
    ConnectedIsRisky(protocol, connected, m);
    RiskyBefore(protocol, started, Connects);
    RiskyBefore(protocol, Beginning(protocol), start);
  }

  /** In every run of any number of clients every reply finds its query if and only if the address test
      is the intended one, the devices' ids are distinct, and the clients send queries as such and with
      infinite timeouts. */
  lemma RepliesFindTheirQueries(protocol: Protocol)
    requires Valid(protocol.setup.config)
    ensures Safe(protocol, Beginning(protocol)) <==> Sound(protocol)
  {
    var sys := Beginning(protocol);
    if Sound(protocol) {
      forall events | Possible(protocol, sys, events)
        ensures NoStrays(protocol, sys, events)
      {
        RunIsSafe(protocol, sys, events);
      }
    } else {
      MishapExists(protocol);
      var m :| Feasible(protocol, m);
      BeginningIsRisky(protocol, m);
    }
  }
}
