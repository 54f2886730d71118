/** The filter loop as written can be made to spin: a client whose buffer has no room for the answer to
    its query is enough, for it is disconnected while the query stays in the send queue
    (deephome/router/Router.cpp:188-209,383-389,553-554). */
module RouterHang {
  import opened Messages
  import opened DeviceCommands
  import opened RouterConfig
  import opened Router
  import opened RouterRuns
  import opened RouterLedger
  import opened RouterFilters

  /** The device answers, and the loop as written never ends. */
  ghost predicate Hangs(setup: Setup, s: State, n: nat, message: Message, spaces: seq<bool>)
    requires n < |setup.config.networks| && |spaces| == |s.filters|
  {
    && s.started && PacketDevice(setup, n, message).Just?
    && forall steps: nat ::
         WrittenPosition(Visits(setup, s, message, setup.config.networks[n], spaces), steps) < |s.filters|
  }

  function QueryCommand(device: Device): Command
    requires Legal(device.name)
  {
    ToService(DeviceCommand(device.name, Query, 0, [])).value
  }

  /** The client's query is in the queue, and the client is gone. */
  predicate Asked(setup: Setup, s: State, device: Device) {
    && |s.up| == |setup.config.networks| && (forall i | 0 <= i < |s.up| :: s.up[i])
    && s.started && s.filters == [] && |s.queue| == 1 && s.sendTimer && s.connections == {}
    && s.queue[0].kind == Request && s.queue[0].network < |s.up|
    && s.queue[0].response == ReplyFilter(1, device, 0)
  }

  /** Started, with every network up and one client. */
  predicate Open(setup: Setup, s: State) {
    && |s.up| == |setup.config.networks| && (forall i | 0 <= i < |s.up| :: s.up[i])
    && s.started && s.filters == [] && s.queue == [] && s.connections == {1}
  }

  lemma Opening(setup: Setup) returns (events: seq<Event>, s: State)
    requires Valid(setup.config)
    ensures Inv(setup, Initial(setup.config)) && Possible(setup, Initial(setup.config), events)
    ensures s == End(setup, Initial(setup.config), events) && Open(setup, s)
  {
    var start := Starts(seq(|setup.config.networks|, _ => true));
    var s0 := Initial(setup.config);
    InitialInv(setup);
    var s1 := Next(setup, s0, start).0;
    StepKeepsInv(setup, s0, start);
    s := Next(setup, s1, ClientAccepted).0;
    StepKeepsInv(setup, s1, ClientAccepted);
    events := RunOf2(setup, s0, start, ClientAccepted);
  }

  lemma Asking(setup: Setup, s: State, device: Device)
    requires Inv(setup, s) && Open(setup, s) && device in setup.config.devices
    ensures Asked(setup, Next(setup, s, ClientSends(1, QueryCommand(device), false)).0, device)
  {
    ArgumentsReadBack(DeviceCommand(device.name, Query, 0, []));
    FindByNameInverse(setup.config.devices, device);
  }

  lemma RunOf2(setup: Setup, s: State, e0: Event, e1: Event) returns (events: seq<Event>)
    requires Inv(setup, s) && Enabled(setup, s, e0)
    requires Inv(setup, Next(setup, s, e0).0) && Enabled(setup, Next(setup, s, e0).0, e1)
    ensures Possible(setup, s, events) && End(setup, s, events) == Next(setup, Next(setup, s, e0).0, e1).0
  {
    events := [e0, e1];
    var t := Next(setup, s, e0).0;
    StepKeepsInv(setup, t, e1);
    assert events[1..] == [e1] && [e1][1..] == [];
    var u := Next(setup, t, e1).0;
    assert Possible(setup, u, []) && End(setup, u, []) == u;
    assert Possible(setup, t, [e1]) && End(setup, t, [e1]) == u;
  }

  lemma Spins(setup: Setup, s: State, device: Device, n: nat)
    requires Valid(setup.config) && device in setup.config.devices && s.started && 1 !in s.connections
    requires s.filters == [ReplyFilter(1, device, 0)]
    requires n < |setup.config.networks| && setup.config.networks[n] == device.network
    ensures Hangs(setup, s, n, Message(Data, device.id, 0, []), [true])
  {
    var message := Message(Data, device.id, 0, []);
    var visits := Visits(setup, s, message, device.network, [true]);
    ReplyFilterTests(1, device, 0, 0);
    assert visits[0].passes && !visits[0].routed;
    forall steps: nat
      ensures WrittenPosition(visits, steps) < |visits|
    {
      NeverPasses(visits, 0, steps);
    }
  }

  /** For every configuration, every device in it and either address test there is a run after which the
      device's answer to a query sends the loop as written round for ever. */
  lemma LoopCanHang(setup: Setup, device: Device)
    returns (opening: seq<Event>, last: seq<Event>, s: State, n: nat, message: Message)
    requires Valid(setup.config) && device in setup.config.devices
    ensures Inv(setup, Initial(setup.config)) && Possible(setup, Initial(setup.config), opening)
    ensures var open := End(setup, Initial(setup.config), opening);
      Possible(setup, open, last) && s == End(setup, open, last)
    ensures |s.filters| == 1 && Enabled(setup, s, DeviceSends(n, message, [true]))
    ensures Hangs(setup, s, n, message, [true])
  {
    var open;
    opening, open := Opening(setup);
    var query := ClientSends(1, QueryCommand(device), false);
    var asked := Next(setup, open, query).0;
    StepKeepsInv(setup, open, query);
    Asking(setup, open, device);
    s := Next(setup, asked, SendFires(true)).0;
    last := RunOf2(setup, open, query, SendFires(true));
    assert DeviceLinked(setup.config.networks, device);
    n, message := NetworkIndex(setup.config.networks, device.network), Message(Data, device.id, 0, []);
    Spins(setup, s, device, n);
  }
}
