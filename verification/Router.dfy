/** The router between clients and device networks (deephome/router/Router.cpp): its state, what every
    event does to it, and the object whose handlers do it in place. */
module Router {
  import opened Sequences
  import opened Text
  import opened Messages
  import opened RouterConfig
  import S = SocketConnection
  import opened Bitwise

  /** The address test of passes_filter. `Intended` compares the masked address; `Written` is the
      source text as C++ reads it, where `!=` binds tighter than `&`. */
  datatype MaskTest = Intended | Written

  datatype Setup = Setup(config: Config, maskTest: MaskTest)

  datatype Filter = Filter(connection: nat, device: Found<Device>, address: nat, mask: nat, oneTime: bool, reply: bool)

  datatype SendRecord = SendRecord(kind: MessageType, network: nat, message: Message, response: Filter)

  const NO_FILTER: Filter := Filter(0, Nothing, 0, 0, false, false)

  /** `up[i]` tells whether network i has a connection. */
  datatype State = State(
    started: bool, up: seq<bool>, connected: int, connections: set<nat>, nextId: nat,
    filters: seq<Filter>, queue: seq<SendRecord>, sendTimer: bool, reconnectTimer: bool)

  function Initial(config: Config): State {
    State(false, AllDown(|config.networks|), 0, {}, 0, [], [], false, false)
  }

  function AllDown(n: nat): (up: seq<bool>)
    ensures |up| == n && forall i | 0 <= i < n :: !up[i]
  {
    seq(n, _ => false)
  }

  function NetworkIndex(networks: seq<string>, name: string): (n: nat)
    requires name in networks
    ensures n < |networks| && networks[n] == name
    decreases networks
  {
    if networks[0] == name then 0 else 1 + NetworkIndex(networks[1..], name)
  }

  // --- Networks ---

  /** How many down networks a round of connection attempts brings up. */
  function Gained(up: seq<bool>, reach: seq<bool>): nat
    requires |up| == |reach|
    decreases up
  {
    if up == [] then 0 else (if !up[0] && reach[0] then 1 else 0) + Gained(up[1..], reach[1..])
  }

  function Reached(up: seq<bool>, reach: seq<bool>): (now: seq<bool>)
    requires |up| == |reach|
    ensures |now| == |up|
  {
    seq(|up|, i requires 0 <= i < |up| => up[i] || reach[i])
  }

  /** connect_networks; `reach[i]` tells whether network i can be connected now. */
  function Connect(s: State, reach: seq<bool>): State
    requires |reach| == |s.up|
  {
    if s.connected >= |s.up| then s else
    var connected := s.connected + Gained(s.up, reach);
    s.(up := Reached(s.up, reach), connected := connected,
       reconnectTimer := s.reconnectTimer || connected < |s.up|)
  }

  /** Which filters remove_reply_filters and remove_filters take away. */
  datatype Drop = RepliesOn(network: string) | Of(connections: set<nat>)

  predicate Drops(drop: Drop, f: Filter) {
    match drop
    case RepliesOn(network) => f.reply && f.device.Just? && f.device.value.network == network
    case Of(connections) => f.connection in connections
  }

  /** std::remove_if and erase */
  function KeptBy(drop: Drop): Filter -> seq<Filter> {
    (f: Filter) => if Drops(drop, f) then [] else [f]
  }

  function Without(drop: Drop, filters: seq<Filter>): seq<Filter> {
    FlatMap(KeptBy(drop), filters)
  }

  lemma {:induction false} WithoutMembers(drop: Drop, filters: seq<Filter>, f: Filter)
    ensures f in Without(drop, filters) <==> f in filters && !Drops(drop, f)
    decreases filters
  {
    if filters != [] {
      WithoutMembers(drop, filters[1..], f);
      assert f in filters <==> f == filters[0] || f in filters[1..];
    }
  }

  /** disconnect_network */
  function LoseNetwork(setup: Setup, s: State, n: nat): State
    requires n < |s.up| == |setup.config.networks|
  {
    s.(up := s.up[n := false], connected := s.connected - 1,
       reconnectTimer := s.reconnectTimer || s.connected - 1 < |s.up|,
       filters := Without(RepliesOn(setup.config.networks[n]), s.filters))
  }

  // --- Connections ---

  function CloseAll(s: State, dead: set<nat>): State {
    s.(filters := Without(Of(dead), s.filters), connections := s.connections - dead)
  }

  /** handle_filter; Nothing for its false. */
  function MakeFilter(config: Config, c: Command, connection: nat): Found<Filter> {
    var name := GetText(c, "device", "");
    var device := if name == "" then Nothing else FindByName(config.devices, name);
    var address, mask := GetNumber(c, "address", UNSIGNED - 1), GetNumber(c, "mask", UNSIGNED - 1);
    var given := address != UNSIGNED - 1 && mask != UNSIGNED - 1;
    var oneTime := Find(GetText(c, "options", ""), "one-time", 0) != NPOS;
    if name != "" && device.Nothing? then Nothing
    else if given && (address > 0xffff || mask > 0xffff) then Nothing
    else if given then Just(Filter(connection, device, And(address, mask), mask, oneTime, false))
    else Just(Filter(connection, device, 0, 0, oneTime, false))
  }

  function ReplyFilter(connection: nat, device: Device, address: Word): Filter {
    Filter(connection, Just(device), address, 0xffff, false, true)
  }

  /** handle_send up to the queue; Nothing for its false. */
  function MakeRecord(config: Config, up: seq<bool>, c: Command, connection: nat, kind: MessageType): Found<SendRecord>
    requires Valid(config) && |up| == |config.networks|
  {
    var device := FindByName(config.devices, GetText(c, "device", ""));
    if device.Nothing? then Nothing else
    assert DeviceLinked(config.networks, device.value);
    var network := NetworkIndex(config.networks, device.value.network);
    var address := GetNumber(c, "address", UNSIGNED - 1);
    if !up[network] || address > 0xffff then Nothing
    else if kind == Request then
      Just(SendRecord(Request, network, Message(Request, device.value.id, address, []),
                      ReplyFilter(connection, device.value, address)))
    else
      match GetRaw(c, "data")
      case Err => Nothing
      case Ok(body) =>
        if |body| > 8 then Nothing
        else Just(SendRecord(Data, network, Message(Data, device.value.id, address, body), NO_FILTER))
  }

  function Enqueue(s: State, record: SendRecord): State {
    s.(sendTimer := s.sendTimer || s.queue == [], queue := s.queue + [record])
  }

  function HandleCommand(setup: Setup, s: State, c: Command, connection: nat): (State, bool)
    requires Valid(setup.config) && |s.up| == |setup.config.networks|
  {
    if c.action == "filter" then
      match MakeFilter(setup.config, c, connection)
      case Nothing => (s, false)
      case Just(f) => (s.(filters := s.filters + [f]), true)
    else if c.action == "send" || c.action == "query" then
      match MakeRecord(setup.config, s.up, c, connection, if c.action == "send" then Data else Request)
      case Nothing => (s, false)
      case Just(record) => (Enqueue(s, record), true)
    else
      (s, false)
  }

  function Answer(action: string, ok: bool): Command {
    Command(if ok then "ok" else "fail", [("command", action)])
  }

  /** on_connection_packet_received for a command; `room` tells whether the answer fits into the
      connection's send buffer. */
  function ConnectionCommand(setup: Setup, s: State, c: Command, connection: nat, room: bool): (State, seq<Command>)
    requires Valid(setup.config) && |s.up| == |setup.config.networks|
  {
    if !s.started || connection !in s.connections then (s, []) else
    var (handled, ok) := HandleCommand(setup, s, c, connection);
    if room then (handled, [Answer(c.action, ok)]) else (CloseAll(handled, {connection}), [])
  }

  /** on_connection_packet_received for the null packet */
  function ConnectionLost(s: State, connection: nat): State {
    if !s.started || connection !in s.connections then s else CloseAll(s, {connection})
  }

  function Accept(s: State): State {
    if !s.started then s else s.(nextId := s.nextId + 1, connections := s.connections + {s.nextId + 1})
  }

  // --- Packets from devices ---

  predicate AddressPasses(maskTest: MaskTest, address: Word, f: Filter) {
    match maskTest
    case Intended => And(address, f.mask) == f.address
    case Written => And(address, if f.mask != f.address then 1 else 0) == 0
  }

  predicate Passes(setup: Setup, message: Message, network: string, f: Filter) {
    && AddressPasses(setup.maskTest, message.address, f)
    && (f.device.Just? ==> f.device.value.id == message.deviceId && f.device.value.network == network)
  }

  function RouteCommand(message: Message, device: Device, reply: bool): Command {
    Command(if reply then "reply" else "send",
            Insert(Insert(Insert(Insert([], "device", device.name), "network", device.network),
                          "address", PrintNumber(message.address)), "data", PrintBytes(message.body)))
  }

  /** One visit of the filter loop: the filter, whether it passes, whether its connection exists and
      has room in its send buffer. */
  datatype Visit = Visit(filter: Filter, passes: bool, routed: bool)

  function Visits(setup: Setup, s: State, message: Message, network: string, room: seq<bool>): (visits: seq<Visit>)
    requires |room| == |s.filters|
    ensures |visits| == |s.filters|
  {
    seq(|s.filters|, i requires 0 <= i < |s.filters| =>
      Visit(s.filters[i], Passes(setup, message, network, s.filters[i]),
            s.filters[i].connection in s.connections && room[i]))
  }

  predicate Hit(v: Visit) {
    v.passes && v.routed
  }

  /** What one visit sends. */
  function SentBy(message: Message, device: Device): Visit -> seq<(nat, Command)> {
    (v: Visit) => if Hit(v) then [(v.filter.connection, RouteCommand(message, device, v.filter.reply))] else []
  }

  function Deliveries(message: Message, device: Device, visits: seq<Visit>): seq<(nat, Command)> {
    FlatMap(SentBy(message, device), visits)
  }

  /** A filter is used up by its reply, or by its only packet. */
  predicate UsedUp(v: Visit) {
    Hit(v) && (v.filter.reply || v.filter.oneTime)
  }

  function LeftBy(v: Visit): seq<Filter> {
    if UsedUp(v) then [] else [v.filter]
  }

  function Survivors(visits: seq<Visit>): seq<Filter> {
    FlatMap(LeftBy, visits)
  }

  function Dead(visits: seq<Visit>): set<nat> {
    set i | 0 <= i < |visits| && visits[i].passes && !visits[i].routed :: visits[i].filter.connection
  }

  /** handle_device_packet for a Message: one delivery per passing filter whose connection takes it,
      in list order; delivered reply and one-time filters leave, and so do all filters of connections
      that did not take theirs. */
  function DevicePacket(setup: Setup, s: State, n: nat, message: Message, room: seq<bool>): (State, seq<(nat, Command)>)
    requires n < |setup.config.networks| && |room| == |s.filters|
  {
    var network := setup.config.networks[n];
    var device := FindById(setup.config.devices, network, message.deviceId);
    if !s.started || device.Nothing? then (s, []) else
    var visits := Visits(setup, s, message, network, room);
    (CloseAll(s.(filters := Survivors(visits)), Dead(visits)),
     Deliveries(message, device.value, visits))
  }

  // --- Timers ---

  /** on_send_timer, after the one-shot timer has fired; `room` tells whether the network's send
      buffer takes the message. */
  function SendTick(setup: Setup, s: State, room: bool): (State, seq<(nat, Message)>)
    requires |s.up| == |setup.config.networks| && forall r | r in s.queue :: r.network < |s.up|
  {
    var fired := s.(sendTimer := false);
    if !s.started || s.queue == [] then (fired, []) else
    var record := s.queue[0];
    var rest := fired.(queue := s.queue[1..], sendTimer := |s.queue| > 1);
    if !s.up[record.network] then (rest, [])
    else if !room then (LoseNetwork(setup, rest, record.network), [])
    else (if record.kind == Request then rest.(filters := rest.filters + [record.response]) else rest,
          [(record.network, record.message)])
  }

  function ReconnectTick(s: State, reach: seq<bool>): State
    requires |reach| == |s.up|
  {
    var fired := s.(reconnectTimer := false);
    if !s.started then fired else Connect(fired, reach)
  }

  function Start(s: State, reach: seq<bool>): State
    requires |reach| == |s.up|
  {
    if s.started then s else Connect(s, reach).(started := true)
  }

  /** The send queue is left as it is. */
  function Stop(s: State): State {
    if !s.started then s else
    s.(started := false, up := AllDown(|s.up|), connected := 0, reconnectTimer := false,
       connections := {}, filters := [], sendTimer := false)
  }

  // --- The router object ---

  class Router {
    const setup: Setup
    var started: bool
    var up: seq<bool>
    var connected: int
    var connections: set<nat>
    var nextId: nat
    var filters: seq<Filter>
    var queue: seq<SendRecord>
    var sendTimer: bool
    var reconnectTimer: bool

    ghost function View(): State
      reads this
    {
      State(started, up, connected, connections, nextId, filters, queue, sendTimer, reconnectTimer)
    }

    ghost predicate Ready()
      reads this
    {
      Valid(setup.config) && |up| == |setup.config.networks| && forall r | r in queue :: r.network < |up|
    }

    constructor (setup: Setup)
      requires Valid(setup.config)
      ensures this.setup == setup && View() == Initial(setup.config) && Ready()
    {
      this.setup := setup;
      started, up, connected, connections, nextId := false, AllDown(|setup.config.networks|), 0, {}, 0;
      filters, queue, sendTimer, reconnectTimer := [], [], false, false;
    }

    method ConnectNetworks(reach: seq<bool>)
      requires |reach| == |up|
      modifies `up, `connected, `reconnectTimer
      ensures View() == Connect(old(View()), reach)
    {
      if connected >= |up| {
        return;
      }
      ghost var before, after := up, Reached(up, reach);
      for i := 0 to |up|
        invariant |up| == |before| && reconnectTimer == old(reconnectTimer)
        invariant forall k | 0 <= k < |up| :: up[k] == if k < i then after[k] else before[k]
        invariant connected + Gained(before[i..], reach[i..]) == old(connected) + Gained(before, reach)
      {
        assert before[i..][1..] == before[i + 1..] && reach[i..][1..] == reach[i + 1..];
        if !up[i] && reach[i] {
          up := up[i := true];
          connected := connected + 1;
        }
      }
      assert before[|up|..] == [] && reach[|up|..] == [];
      assert up == after;
      UpdateReconnectTimer();
    }

    method UpdateReconnectTimer()
      modifies `reconnectTimer
      ensures reconnectTimer == (old(reconnectTimer) || connected < |up|)
    {
      if connected < |up| {
        reconnectTimer := true;
      }
    }

    method RemoveFilters(drop: Drop)
      modifies `filters
      ensures filters == Without(drop, old(filters))
    {
      var kept: seq<Filter> := [];
      for i := 0 to |filters|
        invariant filters == old(filters)
        invariant kept == Without(drop, filters[..i])
      {
        FlatMapStep(KeptBy(drop), filters, i);
        if !Drops(drop, filters[i]) {
          kept := kept + [filters[i]];
        }
      }
      assert filters[..|filters|] == filters;
      filters := kept;
    }

    method DisconnectNetwork(n: nat)
      requires Ready() && n < |up|
      modifies `up, `connected, `reconnectTimer, `filters
      ensures View() == LoseNetwork(setup, old(View()), n) && Ready()
    {
      up := up[n := false];
      connected := connected - 1;
      UpdateReconnectTimer();
      RemoveFilters(RepliesOn(setup.config.networks[n]));
    }

    method CloseConnections(dead: set<nat>)
      modifies `filters, `connections
      ensures View() == CloseAll(old(View()), dead)
    {
      RemoveFilters(Of(dead));
      connections := connections - dead;
    }

    /** Whatever a client's connection hands over: packets that are no commands are ignored. */
    method OnConnectionPacket(e: S.Event, connection: nat, room: bool) returns (answers: seq<Command>)
      requires Ready()
      modifies `filters, `connections, `queue, `sendTimer
      ensures Ready() && (View(), answers) == match e
        case Disconnected => (ConnectionLost(old(View()), connection), [])
        case Delivered(CommandPacket(c)) => ConnectionCommand(setup, old(View()), c, connection, room)
        case Delivered(_) => (old(View()), [])
    {
      answers := [];
      match e {
        case Disconnected => OnConnectionLost(connection);
        case Delivered(CommandPacket(c)) => answers := OnConnectionCommand(c, connection, room);
        case Delivered(_) =>
      }
    }

    /** Whatever a network's connection hands over: packets that are no messages are ignored. */
    method OnNetworkPacket(e: S.Event, n: nat, room: seq<bool>) returns (sent: seq<(nat, Command)>)
      requires Ready() && n < |up| && |room| == |filters|
      modifies `filters, `connections, `up, `connected, `reconnectTimer
      ensures Ready() && (View(), sent) == match e
        case Disconnected => (if old(started) then LoseNetwork(setup, old(View()), n) else old(View()), [])
        case Delivered(MessagePacket(m)) => DevicePacket(setup, old(View()), n, m, room)
        case Delivered(_) => (old(View()), [])
    {
      sent := [];
      match e {
        case Disconnected => OnNetworkLost(n);
        case Delivered(MessagePacket(m)) => sent := OnDevicePacket(n, m, room);
        case Delivered(_) =>
      }
    }

    method OnConnectionCommand(c: Command, connection: nat, room: bool) returns (answers: seq<Command>)
      requires Ready()
      modifies `filters, `connections, `queue, `sendTimer
      ensures Ready() && (View(), answers) == ConnectionCommand(setup, old(View()), c, connection, room)
    {
      if !started || connection !in connections {
        return [];
      }
      var ok := Handle(c, connection);
      if room {
        return [Answer(c.action, ok)];
      }
      CloseConnections({connection});
      return [];
    }

    method Handle(c: Command, connection: nat) returns (ok: bool)
      requires Ready()
      modifies `filters, `queue, `sendTimer
      ensures Ready() && (View(), ok) == HandleCommand(setup, old(View()), c, connection)
    {
      if c.action == "filter" {
        var filter := MakeFilter(setup.config, c, connection);
        if filter.Nothing? {
          return false;
        }
        filters := filters + [filter.value];
        return true;
      } else if c.action == "send" {
        ok := HandleSend(c, connection, Data);
      } else if c.action == "query" {
        ok := HandleSend(c, connection, Request);
      } else {
        return false;
      }
    }

    method HandleSend(c: Command, connection: nat, kind: MessageType) returns (ok: bool)
      requires Ready()
      modifies `queue, `sendTimer
      ensures Ready()
      ensures var record := MakeRecord(setup.config, up, c, connection, kind);
        ok == record.Just? && View() == if ok then Enqueue(old(View()), record.value) else old(View())
    {
      var record := MakeRecord(setup.config, up, c, connection, kind);
      if record.Nothing? {
        return false;
      }
      if queue == [] {
        sendTimer := true;
      }
      queue := queue + [record.value];
      return true;
    }

    method OnConnectionLost(connection: nat)
      modifies `filters, `connections
      ensures View() == ConnectionLost(old(View()), connection)
    {
      if started && connection in connections {
        CloseConnections({connection});
      }
    }

    method OnAccepted()
      modifies `connections, `nextId
      ensures View() == Accept(old(View()))
    {
      if started {
        nextId := nextId + 1;
        connections := connections + {nextId};
      }
    }

    method OnDevicePacket(n: nat, message: Message, room: seq<bool>) returns (sent: seq<(nat, Command)>)
      requires Ready() && n < |up| && |room| == |filters|
      modifies `filters, `connections
      ensures Ready() && (View(), sent) == DevicePacket(setup, old(View()), n, message, room)
    {
      var network := setup.config.networks[n];
      var device := FindById(setup.config.devices, network, message.deviceId);
      if !started || device.Nothing? {
        return [];
      }
      var dead;
      sent, dead := VisitFilters(message, device.value, network, room);
      CloseConnections(dead);
    }

    /** The list is changed while it is walked: `it` stays where it is when its filter is erased. */
    method VisitFilters(message: Message, device: Device, network: string, room: seq<bool>)
      returns (sent: seq<(nat, Command)>, dead: set<nat>)
      requires |room| == |filters|
      modifies `filters
      ensures var visits := Visits(setup, old(View()), message, network, room);
        filters == Survivors(visits) && sent == Deliveries(message, device, visits) && dead == Dead(visits)
    {
      ghost var visits := Visits(setup, View(), message, network, room);
      ghost var all := filters;
      sent, dead := [], {};
      var it, visited := 0, 0;
      while it < |filters|
        invariant 0 <= it <= |filters| && 0 <= visited <= |visits| == |room| == |all|
        invariant filters[..it] == Survivors(visits[..visited]) && filters[it..] == all[visited..]
        invariant sent == Deliveries(message, device, visits[..visited])
        invariant dead == Dead(visits[..visited])
        decreases |filters| - it
      {
        var filter := filters[it];
        ghost var kept := filters[..it];
        Walk(filters, it, all, visited);
        Step(visits, visited, message, device);
        var passes := Passes(setup, message, network, filter);
        var routed, out := RouteTo(message, device, filter, room[visited]);
        if !passes {
          it := it + 1;
        } else if !routed {
          dead := dead + {filter.connection};
          it := it + 1;
        } else {
          sent := sent + out;
          if filter.reply || filter.oneTime {
            filters := filters[..it] + filters[it + 1..];
          } else {
            it := it + 1;
          }
        }
        visited := visited + 1;
      }
      assert |filters[it..]| == 0 && visits[..visited] == visits && filters[..it] == filters;
    }

    /** route_to: whether the connection exists and takes the command, and the command it then gets. */
    method RouteTo(message: Message, device: Device, filter: Filter, room: bool)
      returns (routed: bool, out: seq<(nat, Command)>)
      ensures routed == (filter.connection in connections && room)
      ensures out == [(filter.connection, RouteCommand(message, device, filter.reply))]
    {
      routed := filter.connection in connections && room;
      out := [(filter.connection, RouteCommand(message, device, filter.reply))];
    }

    method OnNetworkLost(n: nat)
      requires Ready() && n < |up|
      modifies `up, `connected, `reconnectTimer, `filters
      ensures Ready() && View() == if old(started) then LoseNetwork(setup, old(View()), n) else old(View())
    {
      if started {
        DisconnectNetwork(n);
      }
    }

    method OnSendTimer(room: bool) returns (sent: seq<(nat, Message)>)
      requires Ready()
      modifies `sendTimer, `queue, `filters, `up, `connected, `reconnectTimer
      ensures Ready() && (View(), sent) == SendTick(setup, old(View()), room)
    {
      sendTimer := false;
      sent := [];
      if !started || queue == [] {
        return;
      }
      var record := queue[0];
      queue := queue[1..];
      var delivered := false;
      if up[record.network] {
        if room {
          sent := [(record.network, record.message)];
          delivered := true;
        } else {
          DisconnectNetwork(record.network);
        }
      }
      if record.kind == Request && delivered {
        filters := filters + [record.response];
      }
      if queue != [] {
        sendTimer := true;
      }
    }

    method OnReconnectTimer(reach: seq<bool>)
      requires Ready() && |reach| == |up|
      modifies `up, `connected, `reconnectTimer
      ensures Ready() && View() == ReconnectTick(old(View()), reach)
    {
      reconnectTimer := false;
      if started {
        ConnectNetworks(reach);
      }
    }

    method StartRouter(reach: seq<bool>)
      requires Ready() && |reach| == |up|
      modifies `up, `connected, `reconnectTimer, `started
      ensures Ready() && View() == Start(old(View()), reach)
    {
      if started {
        return;
      }
      ConnectNetworks(reach);
      started := true;
    }

    method StopRouter()
      requires Ready()
      modifies this
      ensures Ready() && View() == Stop(old(View()))
    {
      if !started {
        return;
      }
      reconnectTimer := false;
      up := AllDown(|up|);
      connected := 0;
      connections := {};
      filters := [];
      sendTimer := false;
      started := false;
    }
  }

  /** The list while it is walked: what comes next in it is what comes next in the old one, whether the
      filter at `it` is stepped over or erased. */
  lemma Walk(filters: seq<Filter>, it: nat, all: seq<Filter>, visited: nat)
    requires it < |filters| && visited <= |all| && filters[it..] == all[visited..]
    ensures visited < |all| && filters[it] == all[visited]
    ensures filters[..it + 1] == filters[..it] + [filters[it]] && filters[it + 1..] == all[visited + 1..]
    ensures var erased := filters[..it] + filters[it + 1..];
      it <= |erased| && erased[..it] == filters[..it] && erased[it..] == all[visited + 1..]
  {
    assert filters[it] == filters[it..][0] == all[visited..][0];
    assert filters[it + 1..] == filters[it..][1..] == all[visited..][1..];
  }

  lemma DeadStep(visits: seq<Visit>, k: nat)
    requires k < |visits|
    ensures Dead(visits[..k + 1]) == Dead(visits[..k]) +
      (if visits[k].passes && !visits[k].routed then {visits[k].filter.connection} else {})
  {
  }

  /** One more visit. */
  lemma Step(visits: seq<Visit>, k: nat, message: Message, device: Device)
    requires k < |visits|
    ensures Survivors(visits[..k + 1]) == Survivors(visits[..k]) + LeftBy(visits[k])
    ensures Deliveries(message, device, visits[..k + 1]) ==
            Deliveries(message, device, visits[..k]) + SentBy(message, device)(visits[k])
    ensures Dead(visits[..k + 1]) == Dead(visits[..k]) +
      (if visits[k].passes && !visits[k].routed then {visits[k].filter.connection} else {})
  {
    FlatMapStep(LeftBy, visits, k);
    FlatMapStep(SentBy(message, device), visits, k);
    DeadStep(visits, k);
  }
}
