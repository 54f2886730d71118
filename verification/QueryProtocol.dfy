/** Clients, router and devices together: when every reply finds the query it answers
    (deephome/common/source/client/Dispatcher.cpp:85-104,175-193, deephome/router/Router.cpp:168-212,464-558). */
module QueryProtocol {
  import opened Sequences
  import opened Messages
  import opened WireFormat
  import opened DeviceCommands
  import opened RouterConfig
  import R = Router
  import Runs = RouterRuns
  import Ledger = RouterLedger
  import D = Dispatcher

  /** A client with its connection: what it has sent and the router has not read, and the reverse. */
  datatype Client = Client(dispatcher: D.State, toRouter: seq<Command>, toClient: seq<Command>)

  const NEW_CLIENT: Client := Client(D.Start(D.INITIAL), [], [])

  datatype System = System(router: R.State, clients: map<nat, Client>)

  /** `timeouts` tells whether clients may use finite timeouts, `plainQueries` whether they may send a query
      with `send`, which checks only that it is no reply and leaves no pending query behind. */
  datatype Protocol = Protocol(setup: R.Setup, timeouts: bool, plainQueries: bool)

  function ClientIn(clients: map<nat, Client>, c: nat): Client {
    if c in clients then clients[c] else NEW_CLIENT
  }

  function ClientOf(sys: System, c: nat): Client {
    ClientIn(sys.clients, c)
  }

  datatype Event =
    | Connects
    | Queries(c: nat, query: DeviceCommand, timed: bool, room: bool)
    | Sends(c: nat, command: DeviceCommand)
    | AddsFilter(c: nat, filter: ClientFilter, handler: nat, room: bool)
    | Leaves(c: nat)
    | TimerFires(c: nat, index: nat)
    | Hears(c: nat)
    | RouterReads(c: nat, space: bool)
    | RouterDoes(event: Runs.Event)

  function ClientEvent(e: Event): D.Event
    requires e.Queries? || e.AddsFilter? || e.TimerFires?
  {
    match e
    case Queries(_, query, timed, room) => D.SendsQuery(query, timed, room)
    case AddsFilter(_, filter, handler, room) => D.AddsFilter(filter, handler, room)
    case TimerFires(_, index) => D.TimerFires(index)
  }

  predicate Enabled(protocol: Protocol, sys: System, e: Event) {
    match e
    case Connects => sys.router.started
    case Queries(c, _, timed, _) =>
      c in sys.clients && D.Enabled(sys.clients[c].dispatcher, ClientEvent(e)) && (timed ==> protocol.timeouts)
    case Sends(c, command) =>
      && c in sys.clients && sys.clients[c].dispatcher.connected && ToService(command).Ok?
      && command.kind != Reply && (command.kind == Query ==> protocol.plainQueries)
    case AddsFilter(c, _, _, _) => c in sys.clients && D.Enabled(sys.clients[c].dispatcher, ClientEvent(e))
    case Leaves(c) => c in sys.clients
    case TimerFires(c, _) =>
      c in sys.clients && protocol.timeouts && D.Enabled(sys.clients[c].dispatcher, ClientEvent(e))
    case Hears(c) =>
      && c in sys.clients && sys.clients[c].dispatcher.connected
      && sys.clients[c].toClient != [] && D.Acceptable(sys.clients[c].toClient[0])
    case RouterReads(c, _) => c in sys.clients && sys.clients[c].toRouter != []
    case RouterDoes(event) =>
      && Runs.Enabled(protocol.setup, sys.router, event) && !event.ClientAccepted? && !event.ClientSends?
      && (event.DeviceSends? ==> WellFormedMessage(event.message))
  }

  /** Hands the router's output to the connections it is for. */
  function Deliver(clients: map<nat, Client>, outputs: seq<(nat, Command)>): map<nat, Client>
    decreases outputs
  {
    if outputs == [] then clients else
    var (c, command) := outputs[0];
    Deliver(if c in clients then clients[c := clients[c].(toClient := clients[c].toClient + [command])] else clients,
            outputs[1..])
  }

  function RouterStep(protocol: Protocol, sys: System, e: Runs.Event): System
    requires Runs.Inv(protocol.setup, sys.router) && Runs.Enabled(protocol.setup, sys.router, e)
  {
    var (router, outputs) := Runs.Next(protocol.setup, sys.router, e);
    System(router, Deliver(sys.clients, outputs))
  }

  function WithClient(sys: System, c: nat, client: Client): System {
    sys.(clients := sys.clients[c := client])
  }

  /** The next system, and the calls that client code gets. */
  function Next(protocol: Protocol, sys: System, e: Event): (System, seq<D.Call>)
    requires Runs.Inv(protocol.setup, sys.router) && Enabled(protocol, sys, e)
  {
    match e
    case Connects =>
      (System(R.Accept(sys.router), sys.clients[sys.router.nextId + 1 := NEW_CLIENT]), [])
    case Queries(c, query, timed, room) =>
      var client := ClientOf(sys, c);
      (WithClient(sys, c, Client(D.SendQuery(client.dispatcher, query, timed, room),
                                 if room then client.toRouter + [ToService(query).value] else client.toRouter,
                                 client.toClient)), [])
    case Sends(c, command) =>
      var client := ClientOf(sys, c);
      (WithClient(sys, c, client.(toRouter := client.toRouter + [ToService(command).value])), [])
    case AddsFilter(c, filter, handler, room) =>
      var client := ClientOf(sys, c);
      (WithClient(sys, c, Client(D.AddFilter(client.dispatcher, filter, handler, room),
                                 if room then client.toRouter + [FilterToService(filter).value] else client.toRouter,
                                 client.toClient)), [])
    case Leaves(c) =>
      var client := ClientOf(sys, c);
      (WithClient(sys, c, client.(dispatcher := D.Stop(client.dispatcher))), [])
    case TimerFires(c, index) =>
      var client := ClientOf(sys, c);
      var (dispatcher, calls) := D.QueryTimeout(client.dispatcher, client.dispatcher.queries[index].id);
      (WithClient(sys, c, client.(dispatcher := dispatcher)), calls)
    case Hears(c) =>
      var client := ClientOf(sys, c);
      var (dispatcher, calls) := D.GetPacket(client.dispatcher, client.toClient[0]);
      (WithClient(sys, c, client.(dispatcher := dispatcher, toClient := client.toClient[1..])), calls)
    case RouterReads(c, space) =>
      var client := ClientOf(sys, c);
      (RouterStep(protocol, WithClient(sys, c, client.(toRouter := client.toRouter[1..])),
                  Runs.ClientSends(c, client.toRouter[0], space)), [])
    case RouterDoes(event) => (RouterStep(protocol, sys, event), [])
  }

  // --- Counting one client's queries for one device and address ---

  predicate Concerns(c: Command, action: string, device: string, address: Word) {
    c.action == action && GetText(c, "device", "") == device && GetNumber(c, "address", UNSIGNED - 1) == address
  }

  function QueryFor(device: string, address: Word): Command -> bool {
    c => Concerns(c, "query", device, address)
  }

  function ReplyFor(device: string, address: Word): Command -> bool {
    c => Concerns(c, "reply", device, address)
  }

  function PendingFor(device: string, address: Word): D.PendingQuery -> bool {
    q => D.Matches(q, device, address)
  }

  function KeyFor(c: nat, device: string, address: Word): Ledger.Key -> bool {
    (k: Ledger.Key) => k.connection == c && k.device.name == device && k.address == address
  }

  function Pending(sys: System, c: nat, device: string, address: Word): nat {
    Count(PendingFor(device, address), ClientOf(sys, c).dispatcher.queries)
  }

  /** The queries of a client on their way: not yet read by the router, in its send queue, waiting for
      the device, or answered by a reply the client has not read. */
  function UnderWay(sys: System, c: nat, device: string, address: Word): nat {
    Count(QueryFor(device, address), ClientOf(sys, c).toRouter)
    + Ledger.Queued(KeyFor(c, device, address), sys.router.queue)
    + Ledger.Outstanding(KeyFor(c, device, address), sys.router.filters)
    + Count(ReplyFor(device, address), ClientOf(sys, c).toClient)
  }

  predicate Covered(sys: System, c: nat, device: string, address: Word) {
    ClientOf(sys, c).dispatcher.connected ==> UnderWay(sys, c, device, address) <= Pending(sys, c, device, address)
  }

  /** The client gets past its checks and knows the action. */
  predicate Understood(c: Command) {
    D.Acceptable(c) && c.action in ["ok", "fail", "send", "reply"]
  }

  ghost predicate AllUnderstood(commands: seq<Command>) {
    forall i | 0 <= i < |commands| :: Understood(commands[i])
  }

  /** The invariant but for the counts. */
  ghost predicate Frame(protocol: Protocol, sys: System) {
    && Runs.Inv(protocol.setup, sys.router)
    && (forall c: nat :: c in sys.clients ==> c <= sys.router.nextId)
    && (forall c: nat :: AllUnderstood(ClientOf(sys, c).toClient))
  }

  ghost predicate Inv(protocol: Protocol, sys: System) {
    && Frame(protocol, sys)
    && (forall c: nat, device: string, address: Word :: Covered(sys, c, device, address))
  }

  /** The router tells devices and addresses apart. */
  predicate Exact(protocol: Protocol) {
    protocol.setup.maskTest == R.Intended && DistinctIds(protocol.setup.config.devices)
  }

  /** What the protocol needs. */
  predicate Sound(protocol: Protocol) {
    Exact(protocol) && !protocol.timeouts && !protocol.plainQueries
  }

  // --- Commands and what they concern ---

  /** The client reads the router's command as the device's message. */
  lemma RoutedMessage(message: Message, device: Device, reply: bool)
    requires device.name != "" && WellFormedMessage(message)
    ensures FromService(FRESH_DEVICE_COMMAND, R.RouteCommand(message, device, reply)) ==
            Ok(DeviceCommand(device.name, if reply then Reply else Send, message.address, message.body))
    ensures var s := R.RouteCommand(message, device, reply);
      GetText(s, "device", "") == device.name && GetNumber(s, "address", UNSIGNED - 1) == message.address
  {
    var s := R.RouteCommand(message, device, reply);
    var one := Insert([], "device", device.name);
    var two := Insert(one, "network", device.network);
    var three := Insert(two, "address", PrintNumber(message.address));
    InsertForAll([], "device", device.name);
    InsertForAll(one, "network", device.network);
    InsertForAll(two, "address", PrintNumber(message.address));
    InsertForAll(three, "data", PrintBytes(message.body));
    PrintedNumber(message.address);
    assert GetText(s, "address", "") == PrintNumber(message.address);
    assert GetText(s, "device", "") == device.name;
    RawInverse(s, message.body);
  }

  /** A routed command names the device's network, too. */
  lemma RoutedNetwork(message: Message, device: Device, reply: bool)
    ensures GetText(R.RouteCommand(message, device, reply), "network", "") == device.network
  {
    var one := Insert([], "device", device.name);
    var two := Insert(one, "network", device.network);
    var three := Insert(two, "address", PrintNumber(message.address));
    InsertUpdates([], "device", device.name, "network");
    InsertUpdates(one, "network", device.network, "network");
    InsertUpdates(two, "address", PrintNumber(message.address), "network");
    InsertUpdates(three, "data", PrintBytes(message.body), "network");
  }
}
