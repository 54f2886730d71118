/** What single events of the router do to its networks, connections and filters, told from the event
    (deephome/router/Router.cpp:76-166,188-211,333-462). */
module RouterSteps {
  import opened Bitwise
  import opened Messages
  import opened DeviceCommands
  import opened RouterConfig
  import opened Router
  import opened RouterRuns
  import opened ClientFilters

  /** The router is started by a start and stopped by a stop. */
  lemma StepStarted(setup: Setup, s: State, e: Event)
    requires Inv(setup, s) && Enabled(setup, s, e)
    ensures Next(setup, s, e).0.started == (e.Starts? || (s.started && !e.Stops?))
  {
    match e
    case ClientSends(c, command, space) => CommandLeavesNetworks(setup, s, command, c, space);
    case _ =>
  }

  // --- Networks ---

  /** When a network is up after an event. */
  predicate UpAfter(s: State, e: Event, i: nat)
    requires i < |s.up|
    requires (e.Starts? || e.ReconnectFires? ==> |e.reach| == |s.up|) && (e.SendFires? ==> s.queue != [])
  {
    match e
    case Starts(reach) => s.up[i] || (!s.started && reach[i])
    case ReconnectFires(reach) => s.up[i] || reach[i]
    case Stops => false
    case NetworkDrops(n) => s.up[i] && i != n
    case SendFires(room) => s.up[i] && (room || i != s.queue[0].network)
    case _ => s.up[i]
  }

  /** A round of connection attempts leaves a network up if and only if it was up or can be reached. */
  lemma RoundConnects(s: State, reach: seq<bool>, i: nat)
    requires s.connected == CountUp(s.up) && |reach| == |s.up| && i < |s.up|
    ensures |Connect(s, reach).up| == |s.up| && (Connect(s, reach).up[i] <==> s.up[i] || reach[i])
  {
    if s.connected >= |s.up| { CountAll(s.up); }
  }

  /** A network comes up by a round that reaches it, and goes down by its loss, by a message it has no room
      for, or by a stop. */
  lemma StepNetworks(setup: Setup, s: State, e: Event, i: nat)
    requires Inv(setup, s) && Enabled(setup, s, e) && i < |s.up|
    ensures |Next(setup, s, e).0.up| == |s.up| && (Next(setup, s, e).0.up[i] <==> UpAfter(s, e, i))
  {
    match e
    case Starts(reach) => RoundConnects(s, reach, i);
    case ReconnectFires(reach) => RoundConnects(s.(reconnectTimer := false), reach, i);
    case SendFires(room) => assert GoodRecord(setup.config, s.queue[0]);
    case ClientSends(c, command, space) => CommandLeavesNetworks(setup, s, command, c, space);
    case _ =>
  }

  lemma CommandLeavesNetworks(setup: Setup, s: State, command: Command, c: nat, space: bool)
    requires Inv(setup, s)
    ensures var t := ConnectionCommand(setup, s, command, c, space).0; t.up == s.up && t.started == s.started
  {
  }

  /** With a network exactly the reply filters of its devices go. */
  lemma LossTakesReplyFilters(setup: Setup, s: State, n: nat, f: Filter)
    requires Inv(setup, s) && n < |s.up|
    ensures f in LoseNetwork(setup, s, n).filters <==>
            f in s.filters && !(f.reply && f.device.Just? && f.device.value.network == setup.config.networks[n])
  {
    WithoutMembers(RepliesOn(setup.config.networks[n]), s.filters, f);
  }

  // --- Connections ---

  /** Some filter of the connection takes the message, and the connection does not. */
  ghost predicate Refuses(setup: Setup, s: State, c: nat, network: string, message: Message, spaces: seq<bool>)
    requires |spaces| == |s.filters|
  {
    exists i :: 0 <= i < |s.filters| && s.filters[i].connection == c && Passes(setup, message, network, s.filters[i])
                && !(c in s.connections && spaces[i])
  }

  /** Whether an event ends the connection. */
  ghost predicate Ends(setup: Setup, s: State, e: Event, c: nat)
    requires Inv(setup, s) && Enabled(setup, s, e)
  {
    match e
    case Stops => true
    case ClientLost(d) => c == d
    case ClientSends(d, _, space) => c == d && !space
    case DeviceSends(n, message, spaces) =>
      && FindById(setup.config.devices, setup.config.networks[n], message.deviceId).Just?
      && Refuses(setup, s, c, setup.config.networks[n], message, spaces)
    case _ => false
  }

  /** A connection stays until it is lost, has no room for an answer or for a message that one of its
      filters takes, or the router stops; the only new one is the one accepted. */
  lemma StepConnections(setup: Setup, s: State, e: Event, c: nat)
    requires Inv(setup, s) && Enabled(setup, s, e)
    ensures c in Next(setup, s, e).0.connections <==>
            (c in s.connections && !Ends(setup, s, e, c)) || (e.ClientAccepted? && s.started && c == s.nextId + 1)
  {
    match e
    case DeviceSends(n, message, spaces) => PacketConnections(setup, s, n, message, spaces, c);
    case ClientSends(d, command, space) => CommandConnections(setup, s, command, d, space);
    case _ =>
  }

  lemma CommandConnections(setup: Setup, s: State, command: Command, d: nat, space: bool)
    requires Inv(setup, s)
    ensures ConnectionCommand(setup, s, command, d, space).0.connections == s.connections - if space then {} else {d}
  {
  }

  /** Exactly the connections that do not take their message leave. */
  lemma PacketConnections(setup: Setup, s: State, n: nat, message: Message, spaces: seq<bool>, c: nat)
    requires Inv(setup, s) && n < |s.up| && s.up[n] && |spaces| == |s.filters|
    ensures c in DevicePacket(setup, s, n, message, spaces).0.connections <==>
            c in s.connections && !Ends(setup, s, DeviceSends(n, message, spaces), c)
  {
    var visits := Visits(setup, s, message, setup.config.networks[n], spaces);
    assert forall i | 0 <= i < |s.filters| :: visits[i].filter == s.filters[i];
    if Refuses(setup, s, c, setup.config.networks[n], message, spaces) {
      var i :| 0 <= i < |s.filters| && s.filters[i].connection == c
        && Passes(setup, message, setup.config.networks[n], s.filters[i]) && !(c in s.connections && spaces[i]);
      assert visits[i].passes && !visits[i].routed;
    }
  }

  // --- Filters ---

  /** With connections exactly their filters go. */
  lemma ClosingTakesFilters(s: State, dead: set<nat>, f: Filter)
    ensures f in CloseAll(s, dead).filters <==> f in s.filters && f.connection !in dead
  {
    WithoutMembers(Of(dead), s.filters, f);
  }

  /** A client's filter command is accepted unless it names an unknown device; then the filter that was meant
      joins the end of the list, and the others stay. */
  lemma FilterAccepted(setup: Setup, s: State, f: ClientFilter, connection: nat)
    requires Valid(setup.config) && |s.up| == |setup.config.networks| && FilterToService(f).Ok?
    ensures var (t, ok) := HandleCommand(setup, s, FilterToService(f).value, connection);
      && (ok <==> f.device == "" || DeviceOf(setup.config, f).Just?)
      && t == if ok then
                s.(filters := s.filters +
                   [Filter(connection, DeviceOf(setup.config, f), And(f.address, f.mask), f.mask, f.oneTime, false)])
              else s
  {
    FilterUnderstood(setup.config, f, connection);
    assert FilterToService(f).value.action == "filter";
  }

  /** Any action but these three is refused. */
  lemma OtherCommandsRefused(setup: Setup, s: State, command: Command, connection: nat)
    requires Valid(setup.config) && |s.up| == |setup.config.networks|
    requires command.action !in {"send", "query", "filter"}
    ensures HandleCommand(setup, s, command, connection) == (s, false)
  {
  }
}
