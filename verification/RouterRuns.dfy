/** What holds over all runs of the router (deephome/router/Router.cpp): the state invariant, the timers,
    the order of the send queue and the ledger of queries. */
module RouterRuns {
  import opened Messages
  import opened RouterConfig
  import opened Router

  // --- Events ---

  datatype Event =
    | Starts(reach: seq<bool>)
    | Stops
    | ReconnectFires(reach: seq<bool>)
    | SendFires(room: bool)
    | ClientAccepted
    | ClientLost(connection: nat)
    | ClientSends(connection: nat, command: Command, space: bool)
    | NetworkDrops(n: nat)
    | DeviceSends(n: nat, message: Message, spaces: seq<bool>)

  /** Timers fire when armed; packets and losses come from networks that are up. */
  predicate Enabled(setup: Setup, s: State, e: Event) {
    match e
    case Starts(reach) => |reach| == |s.up|
    case Stops => true
    case ReconnectFires(reach) => s.reconnectTimer && |reach| == |s.up|
    case SendFires(_) => s.sendTimer
    case ClientAccepted => true
    case ClientLost(_) => true
    case ClientSends(_, _, _) => true
    case NetworkDrops(n) => n < |s.up| && s.up[n]
    case DeviceSends(n, _, spaces) => n < |s.up| && s.up[n] && |spaces| == |s.filters|
  }

  function Next(setup: Setup, s: State, e: Event): (State, seq<(nat, Command)>)
    requires Inv(setup, s) && Enabled(setup, s, e)
  {
    match e
    case Starts(reach) => (Start(s, reach), [])
    case Stops => (Stop(s), [])
    case ReconnectFires(reach) => (ReconnectTick(s, reach), [])
    case SendFires(room) => (SendTick(setup, s, room).0, [])
    case ClientAccepted => (Accept(s), [])
    case ClientLost(c) => (ConnectionLost(s, c), [])
    case ClientSends(c, command, space) =>
      var (after, answers) := ConnectionCommand(setup, s, command, c, space);
      (after, Addressed(c, answers))
    case NetworkDrops(n) => (if s.started then LoseNetwork(setup, s, n) else s, [])
    case DeviceSends(n, message, spaces) => DevicePacket(setup, s, n, message, spaces)
  }

  function Addressed(c: nat, commands: seq<Command>): (out: seq<(nat, Command)>)
    ensures |out| == |commands| && forall i | 0 <= i < |out| :: out[i] == (c, commands[i])
  {
    seq(|commands|, i requires 0 <= i < |commands| => (c, commands[i]))
  }

  // --- The invariant ---

  function CountUp(up: seq<bool>): (n: nat)
    ensures n <= |up|
    decreases up
  {
    if up == [] then 0 else (if up[0] then 1 else 0) + CountUp(up[1..])
  }

  predicate IsReplyFilter(config: Config, f: Filter) {
    && f.reply && f.device.Just? && f.device.value in config.devices
    && f.mask == 0xffff && f.address <= 0xffff && !f.oneTime
  }

  /** A reply filter's device is on a network that is connected now. */
  predicate GoodFilter(config: Config, up: seq<bool>, f: Filter)
    requires Valid(config) && |up| == |config.networks|
  {
    f.reply ==> (
      && IsReplyFilter(config, f)
      && (assert DeviceLinked(config.networks, f.device.value);
          up[NetworkIndex(config.networks, f.device.value.network)]))
  }

  predicate GoodRecord(config: Config, r: SendRecord)
    requires Valid(config)
  {
    && r.network < |config.networks|
    && r.message.kind == r.kind
    && (r.kind == Data ==> r.response == NO_FILTER)
    && (r.kind == Request ==> (
          && IsReplyFilter(config, r.response)
          && (assert DeviceLinked(config.networks, r.response.device.value);
              r.network == NetworkIndex(config.networks, r.response.device.value.network))
          && r.message == Message(Request, r.response.device.value.id, r.response.address, [])))
  }

  predicate AtRest(s: State) {
    && s.connections == {} && s.filters == [] && s.connected == 0 && s.up == AllDown(|s.up|)
    && !s.sendTimer && !s.reconnectTimer
  }

  ghost predicate Inv(setup: Setup, s: State) {
    && Valid(setup.config)
    && |s.up| == |setup.config.networks|
    && s.connected == CountUp(s.up)
    && (forall f | f in s.filters :: GoodFilter(setup.config, s.up, f))
    && (forall r | r in s.queue :: GoodRecord(setup.config, r))
    && (forall c | c in s.connections :: 0 < c <= s.nextId)
    && (s.sendTimer ==> s.queue != [])
    && (!s.started ==> AtRest(s))
    && (s.started ==> (s.reconnectTimer <==> s.connected < |s.up|))
  }

  lemma {:induction false} CountGained(up: seq<bool>, reach: seq<bool>)
    requires |up| == |reach|
    ensures CountUp(Reached(up, reach)) == CountUp(up) + Gained(up, reach)
    decreases up
  {
    if up != [] {
      CountGained(up[1..], reach[1..]);
      assert Reached(up, reach)[1..] == Reached(up[1..], reach[1..]);
    }
  }

  lemma {:induction false} CountLost(up: seq<bool>, n: nat)
    requires n < |up| && up[n]
    ensures CountUp(up[n := false]) == CountUp(up) - 1
    decreases up
  {
    if n == 0 {
      assert up[0 := false][1..] == up[1..];
    } else {
      CountLost(up[1..], n - 1);
      assert up[n := false][1..] == up[1..][n - 1 := false];
    }
  }

  lemma {:induction false} CountNone(up: seq<bool>)
    requires forall i | 0 <= i < |up| :: !up[i]
    ensures CountUp(up) == 0
    decreases up
  {
    if up != [] { CountNone(up[1..]); }
  }

  lemma {:induction false} CountAll(up: seq<bool>)
    requires CountUp(up) == |up|
    ensures forall i | 0 <= i < |up| :: up[i]
    decreases up
  {
    if up != [] { CountAll(up[1..]); }
  }

  lemma InitialInv(setup: Setup)
    requires Valid(setup.config)
    ensures Inv(setup, Initial(setup.config))
  {
    CountNone(AllDown(|setup.config.networks|));
  }

  lemma ConnectKeeps(setup: Setup, s: State, reach: seq<bool>)
    requires Valid(setup.config) && |s.up| == |setup.config.networks| == |reach|
    requires s.connected == CountUp(s.up)
    requires forall f | f in s.filters :: GoodFilter(setup.config, s.up, f)
    ensures var t := Connect(s, reach);
      && |t.up| == |s.up| && t.connected == CountUp(t.up)
      && (forall f | f in t.filters :: GoodFilter(setup.config, t.up, f))
      && (t.reconnectTimer <==> s.reconnectTimer || t.connected < |s.up|)
  {
    CountGained(s.up, reach);
  }

  lemma LoseKeeps(setup: Setup, s: State, n: nat)
    requires Inv(setup, s) && s.started && n < |s.up| && s.up[n]
    ensures Inv(setup, LoseNetwork(setup, s, n))
  {
    var t := LoseNetwork(setup, s, n);
    CountLost(s.up, n);
    forall f | f in t.filters
      ensures GoodFilter(setup.config, t.up, f)
    {
      WithoutMembers(RepliesOn(setup.config.networks[n]), s.filters, f);
    }
  }

  lemma CloseKeeps(setup: Setup, s: State, dead: set<nat>)
    requires Inv(setup, s) && s.started
    ensures Inv(setup, CloseAll(s, dead))
  {
    forall f | f in CloseAll(s, dead).filters
      ensures GoodFilter(setup.config, s.up, f)
    {
      WithoutMembers(Of(dead), s.filters, f);
    }
  }

  lemma {:induction false} SurvivorWasThere(visits: seq<Visit>, f: Filter)
    requires f in Survivors(visits)
    ensures exists i :: 0 <= i < |visits| && visits[i].filter == f
    decreases visits
  {
    if f != visits[0].filter || UsedUp(visits[0]) {
      SurvivorWasThere(visits[1..], f);
      var i :| 0 <= i < |visits[1..]| && visits[1..][i].filter == f;
      assert visits[i + 1].filter == f;
    }
  }

  lemma PacketKeeps(setup: Setup, s: State, n: nat, message: Message, spaces: seq<bool>)
    requires Inv(setup, s) && n < |s.up| && |spaces| == |s.filters|
    ensures Inv(setup, DevicePacket(setup, s, n, message, spaces).0)
  {
    var network := setup.config.networks[n];
    if s.started && FindById(setup.config.devices, network, message.deviceId).Just? {
      var visits := Visits(setup, s, message, network, spaces);
      var left := s.(filters := Survivors(visits));
      forall f | f in left.filters
        ensures GoodFilter(setup.config, s.up, f)
      {
        SurvivorWasThere(visits, f);
      }
      CloseKeeps(setup, left, Dead(visits));
    }
  }

  lemma RecordIsGood(config: Config, up: seq<bool>, c: Command, connection: nat, kind: MessageType)
    requires Valid(config) && |up| == |config.networks|
    ensures var r := MakeRecord(config, up, c, connection, kind);
      r.Just? ==> (
        && GoodRecord(config, r.value) && up[r.value.network] && r.value.kind == kind
        && (kind == Request ==> r.value.response.connection == connection))
    ensures var r, device := MakeRecord(config, up, c, connection, kind), FindByName(config.devices, GetText(c, "device", ""));
      r.Just? ==> (
        && device.Just? && config.networks[r.value.network] == device.value.network
        && r.value.message.deviceId == device.value.id
        && r.value.message.address == GetNumber(c, "address", UNSIGNED - 1)
        && (kind == Data ==> GetRaw(c, "data") == Ok(r.value.message.body) && |r.value.message.body| <= 8))
  {
  }

  lemma HandledKeeps(setup: Setup, s: State, c: Command, connection: nat)
    requires Inv(setup, s) && s.started
    ensures Inv(setup, HandleCommand(setup, s, c, connection).0) && HandleCommand(setup, s, c, connection).0.started
  {
    RecordIsGood(setup.config, s.up, c, connection, Data);
    RecordIsGood(setup.config, s.up, c, connection, Request);
  }

  lemma CommandKeeps(setup: Setup, s: State, c: Command, connection: nat, space: bool)
    requires Inv(setup, s)
    ensures Inv(setup, ConnectionCommand(setup, s, c, connection, space).0)
  {
    if s.started && connection in s.connections {
      HandledKeeps(setup, s, c, connection);
      CloseKeeps(setup, HandleCommand(setup, s, c, connection).0, {connection});
    }
  }

  lemma SendKeeps(setup: Setup, s: State, room: bool)
    requires Inv(setup, s)
    ensures forall r | r in s.queue :: r.network < |s.up|
    ensures Inv(setup, SendTick(setup, s, room).0)
  {
    if s.started && s.queue != [] {
      var record := s.queue[0];
      assert GoodRecord(setup.config, record);
      var rest := s.(queue := s.queue[1..], sendTimer := |s.queue| > 1);
      assert Inv(setup, rest);
      if s.up[record.network] && !room {
        LoseKeeps(setup, rest, record.network);
      }
    }
  }

  /** Every event keeps the invariant: the count of connected networks is right, reply filters wait on
      connected networks only, queued requests carry their reply filter, and the reconnect timer is
      armed exactly while some network is down. */
  lemma StepKeepsInv(setup: Setup, s: State, e: Event)
    requires Inv(setup, s) && Enabled(setup, s, e)
    ensures Inv(setup, Next(setup, s, e).0)
  {
    match e
    case Starts(reach) => ConnectKeeps(setup, s, reach); CountNone(AllDown(|s.up|));
    case Stops => CountNone(AllDown(|s.up|));
    case ReconnectFires(reach) => ConnectKeeps(setup, s.(reconnectTimer := false), reach);
    case SendFires(room) => SendKeeps(setup, s, room);
    case ClientAccepted =>
    case ClientLost(c) => if s.started { CloseKeeps(setup, s, {c}); }
    case ClientSends(c, command, space) => CommandKeeps(setup, s, command, c, space);
    case NetworkDrops(n) => if s.started { LoseKeeps(setup, s, n); }
    case DeviceSends(n, message, spaces) => PacketKeeps(setup, s, n, message, spaces);
  }
}
