/** What the router sends out on its networks: the messages its clients ask for
    (deephome/router/Router.cpp:464-558). */
module RouterDelivery {
  import opened Sequences
  import opened Messages
  import opened DeviceCommands
  import opened RouterConfig
  import opened Router
  import opened RouterRuns
  import opened RouterSchedule
  import opened RouterLedger

  // --- What a command is made into ---

  /** The device's network is connected. */
  predicate Reachable(config: Config, up: seq<bool>, device: Device)
    requires Valid(config) && |up| == |config.networks| && device in config.devices
  {
    assert DeviceLinked(config.networks, device);
    up[NetworkIndex(config.networks, device.network)]
  }

  function NetworkOf(config: Config, device: Device): (n: nat)
    requires Valid(config) && device in config.devices
    ensures n < |config.networks| && config.networks[n] == device.network
  {
    assert DeviceLinked(config.networks, device);
    NetworkIndex(config.networks, device.network)
  }

  /** The record that a client's command to a device is to become. */
  function RecordMeant(config: Config, device: Device, c: DeviceCommand, connection: nat): SendRecord
    requires Valid(config) && device in config.devices
  {
    if c.kind == Query then
      SendRecord(Request, NetworkOf(config, device), Message(Request, device.id, c.address, []),
                 ReplyFilter(connection, device, c.address))
    else
      SendRecord(Data, NetworkOf(config, device), Message(Data, device.id, c.address, c.body), NO_FILTER)
  }

  /** Whether the router is to accept it. */
  predicate Acceptable(config: Config, up: seq<bool>, c: DeviceCommand)
    requires Valid(config) && |up| == |config.networks|
  {
    var device := FindByName(config.devices, c.device);
    device.Just? && Reachable(config, up, device.value) && (c.kind == Send ==> 1 <= |c.body| <= 8)
  }

  lemma RecordMade(config: Config, up: seq<bool>, c: DeviceCommand, connection: nat)
    requires Valid(config) && |up| == |config.networks| && c.kind != Reply && ToService(c).Ok?
    ensures MakeRecord(config, up, ToService(c).value, connection, if c.kind == Send then Data else Request) ==
            if Acceptable(config, up, c) then Just(RecordMeant(config, FindByName(config.devices, c.device).value, c, connection))
            else Nothing
  {
    ArgumentsReadBack(c);
    if c.kind == Send { RawInverse(ToService(c).value, c.body); }
  }

  /** Whatever command is accepted, it is one that a client could have meant. */
  lemma OnlyWhatIsMeant(config: Config, up: seq<bool>, command: Command, connection: nat, kind: CommandType)
    requires Valid(config) && |up| == |config.networks| && kind != Reply
    ensures var made := MakeRecord(config, up, command, connection, if kind == Send then Data else Request);
      made.Just? ==>
        && GetNumber(command, "address", UNSIGNED - 1) <= 0xffff
        && var body := if kind == Send && GetRaw(command, "data").Ok? then GetRaw(command, "data").value else [];
           var c := DeviceCommand(GetText(command, "device", ""), kind, GetNumber(command, "address", UNSIGNED - 1), body);
           && Acceptable(config, up, c)
           && made.value == RecordMeant(config, FindByName(config.devices, c.device).value, c, connection)
  {
    if GetRaw(command, "data").Ok? { assert GetText(command, "data", "") != ""; }
  }

  /** A client's send is accepted if and only if its device is known and reachable and its body has 1 to 8
      bytes, a query without regard to a body; then exactly the record that was meant joins the queue. */
  lemma CommandAccepted(setup: Setup, s: State, c: DeviceCommand, connection: nat)
    requires Valid(setup.config) && |s.up| == |setup.config.networks| && c.kind != Reply && ToService(c).Ok?
    ensures var (t, ok) := HandleCommand(setup, s, ToService(c).value, connection);
      && (ok <==> Acceptable(setup.config, s.up, c))
      && t == if ok then
                s.(queue := s.queue + [RecordMeant(setup.config, FindByName(setup.config.devices, c.device).value, c, connection)],
                   sendTimer := s.sendTimer || s.queue == [])
              else s
  {
    ArgumentsReadBack(c);
    RecordMade(setup.config, s.up, c, connection);
  }

  // --- What a tick sends ---

  /** What an event sends out on the networks. */
  function SentOn(setup: Setup, s: State, e: Event): seq<(nat, Message)>
    requires Inv(setup, s) && Enabled(setup, s, e)
  {
    match e
    case SendFires(room) => SendTick(setup, s, room).1
    case _ => []
  }

  /** A record taken out of the queue, and whether its network was up and had room at that moment. */
  datatype Departure = Departure(record: SendRecord, up: bool, room: bool)

  function DepartureBy(setup: Setup, s: State, e: Event): seq<Departure>
    requires Inv(setup, s)
  {
    if e.SendFires? && s.started && s.queue != [] then
      assert GoodRecord(setup.config, s.queue[0]);
      [Departure(s.queue[0], s.up[s.queue[0].network], e.room)]
    else []
  }

  function OnTheWire(d: Departure): seq<(nat, Message)> {
    if d.up && d.room then [(d.record.network, d.record.message)] else []
  }

  function RecordOf(d: Departure): seq<SendRecord> {
    [d.record]
  }

  lemma StepSends(setup: Setup, s: State, e: Event)
    requires Inv(setup, s) && Enabled(setup, s, e)
    ensures SentOn(setup, s, e) == FlatMap(OnTheWire, DepartureBy(setup, s, e))
    ensures FlatMap(RecordOf, DepartureBy(setup, s, e)) == TakenBy(s, e)
  {
    var departures := DepartureBy(setup, s, e);
    if departures != [] {
      FlatMapOne(OnTheWire, departures[0]);
      FlatMapOne(RecordOf, departures[0]);
    }
  }

  ghost function Sent(setup: Setup, s: State, events: seq<Event>): seq<(nat, Message)>
    requires Inv(setup, s) && Possible(setup, s, events)
    decreases events
  {
    if events == [] then [] else
    StepKeepsInv(setup, s, events[0]);
    SentOn(setup, s, events[0]) + Sent(setup, Next(setup, s, events[0]).0, events[1..])
  }

  ghost function Departures(setup: Setup, s: State, events: seq<Event>): seq<Departure>
    requires Inv(setup, s) && Possible(setup, s, events)
    decreases events
  {
    if events == [] then [] else
    StepKeepsInv(setup, s, events[0]);
    DepartureBy(setup, s, events[0]) + Departures(setup, Next(setup, s, events[0]).0, events[1..])
  }

  lemma {:induction false} RunSends(setup: Setup, s: State, events: seq<Event>)
    requires Inv(setup, s) && Possible(setup, s, events)
    ensures Sent(setup, s, events) == FlatMap(OnTheWire, Departures(setup, s, events))
    ensures FlatMap(RecordOf, Departures(setup, s, events)) == Taken(setup, s, events)
    decreases events
  {
    if events != [] {
      var now, next := DepartureBy(setup, s, events[0]), Next(setup, s, events[0]).0;
      StepKeepsInv(setup, s, events[0]);
      StepSends(setup, s, events[0]);
      RunSends(setup, next, events[1..]);
      FlatMapAppend(OnTheWire, now, Departures(setup, next, events[1..]));
      FlatMapAppend(RecordOf, now, Departures(setup, next, events[1..]));
    }
  }

  /** Over every run: what is sent is the message of each record that is taken while its network is up and
      has room, on this network, in order, and nothing else; and the records taken are the first ones of
      those there were and those accepted. */
  lemma WhatIsSent(setup: Setup, s: State, events: seq<Event>)
    requires Inv(setup, s) && Possible(setup, s, events)
    ensures Sent(setup, s, events) == FlatMap(OnTheWire, Departures(setup, s, events))
    ensures FlatMap(RecordOf, Departures(setup, s, events)) + End(setup, s, events).queue ==
            s.queue + Enqueued(setup, s, events)
  {
    RunSends(setup, s, events);
    QueueIsFifo(setup, s, events);
  }

  // --- From the client to the network ---

  lemma TickSends(setup: Setup, s: State, room: bool)
    requires Inv(setup, s) && Enabled(setup, s, SendFires(room))
    ensures s.queue != [] && s.queue[0].network < |s.up|
    ensures SentOn(setup, s, SendFires(room)) == OnTheWire(Departure(s.queue[0], s.up[s.queue[0].network], room))
  {
    assert GoodRecord(setup.config, s.queue[0]);
  }

  /** The record with as many ahead of it as there were ticks is what the next tick is about. */
  lemma RecordGoesOut(setup: Setup, s: State, events: seq<Event>, k: nat, room: bool)
    requires Inv(setup, s) && Possible(setup, s, events) && k < |s.queue| && Ticks(events) == k
    ensures var t := End(setup, s, events);
      && t.queue != [] && t.queue[0] == s.queue[k]
      && (Enabled(setup, t, SendFires(room)) ==>
            && s.queue[k].network < |t.up|
            && SentOn(setup, t, SendFires(room)) == OnTheWire(Departure(s.queue[k], t.up[s.queue[k].network], room)))
  {
    var t := End(setup, s, events);
    EndKeeps(setup, s, events);
    LeavesAtItsTick(setup, s, events, k);
    if Enabled(setup, t, SendFires(room)) {
      TickSends(setup, t, room);
    }
  }

  lemma {:induction false} EndKeeps(setup: Setup, s: State, events: seq<Event>)
    requires Inv(setup, s) && Possible(setup, s, events)
    ensures Inv(setup, End(setup, s, events))
    decreases events
  {
    if events != [] {
      StepKeepsInv(setup, s, events[0]);
      EndKeeps(setup, Next(setup, s, events[0]).0, events[1..]);
    }
  }

  /** A client's command that the router accepts goes out when as many ticks have passed as there were
      records ahead of it, whatever else happens meanwhile: with a network that is up and has room exactly
      its own message is sent then, to the device's id and the command's address, on the device's network. */
  lemma CommandReachesNetwork(
      setup: Setup, s: State, c: DeviceCommand, connection: nat, space: bool, events: seq<Event>, room: bool)
    requires Inv(setup, s) && s.started && connection in s.connections
    requires c.kind != Reply && ToService(c).Ok? && Acceptable(setup.config, s.up, c)
    requires var t := Next(setup, s, ClientSends(connection, ToService(c).value, space)).0;
      Inv(setup, t) && Possible(setup, t, events) && Ticks(events) == |s.queue|
    ensures var device := FindByName(setup.config.devices, c.device).value;
      var u := End(setup, Next(setup, s, ClientSends(connection, ToService(c).value, space)).0, events);
      Enabled(setup, u, SendFires(room)) ==>
        SentOn(setup, u, SendFires(room)) ==
        if room && Reachable(setup.config, u.up, device) then
          [(NetworkOf(setup.config, device),
            if c.kind == Query then Message(Request, device.id, c.address, []) else Message(Data, device.id, c.address, c.body))]
        else []
  {
    var t := Next(setup, s, ClientSends(connection, ToService(c).value, space)).0;
    CommandAccepted(setup, s, c, connection);
    EndKeeps(setup, t, events);
    RecordGoesOut(setup, t, events, |s.queue|, room);
  }

  /** On an empty queue that is the very next tick, and the timer for it runs. */
  lemma CommandGoesOutAtOnce(setup: Setup, s: State, c: DeviceCommand, connection: nat, space: bool)
    requires Inv(setup, s) && s.started && connection in s.connections && s.queue == []
    requires c.kind != Reply && ToService(c).Ok? && Acceptable(setup.config, s.up, c)
    ensures var t := Next(setup, s, ClientSends(connection, ToService(c).value, space)).0;
      var device := FindByName(setup.config.devices, c.device).value;
      && Inv(setup, t) && Enabled(setup, t, SendFires(true))
      && SentOn(setup, t, SendFires(true)) ==
         [(NetworkOf(setup.config, device),
           if c.kind == Query then Message(Request, device.id, c.address, []) else Message(Data, device.id, c.address, c.body))]
  {
    var e := ClientSends(connection, ToService(c).value, space);
    StepKeepsInv(setup, s, e);
    CommandAccepted(setup, s, c, connection);
    CommandReachesNetwork(setup, s, c, connection, space, [], true);
  }
}
