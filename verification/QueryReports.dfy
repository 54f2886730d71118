/** What a client is told about its commands: a failure for each that the router refused
    (deephome/router/Router.cpp:371-391, deephome/common/source/client/Dispatcher.cpp:141-159). */
module QueryReports {
  import opened Sequences
  import opened Messages
  import opened RouterConfig
  import opened QueryProtocol
  import opened QuerySafety
  import R = Router
  import Runs = RouterRuns
  import Ledger = RouterLedger
  import D = Dispatcher

  predicate IsFailure(c: Command) {
    c.action == "fail"
  }

  predicate IsFailureReport(call: D.Call) {
    call == D.Reported(D.CommandFailed)
  }

  /** An answer reaches the client as a report exactly if it says so. */
  lemma AnswerIsHeard(s: D.State, action: string, ok: bool)
    ensures D.Acceptable(R.Answer(action, ok))
    ensures D.GetPacket(s, R.Answer(action, ok)) == (s, if ok then [] else [D.Reported(D.CommandFailed)])
  {
  }

  /** A packet of none of the four kinds is reported as unknown. */
  lemma OthersAreUnknown(s: D.State, c: Command)
    requires c.action !in {"ok", "fail", "send", "reply"}
    ensures D.GetPacket(s, c) == (s, [D.Reported(D.UnknownCommand)])
  {
  }

  /** The router reads the connection's command, answers it, and is left as it was. */
  ghost predicate Refused(setup: R.Setup, s: R.State, e: Runs.Event, c: nat)
    requires Runs.Inv(setup, s) && Runs.Enabled(setup, s, e)
  {
    && e.ClientSends? && e.connection == c && e.space && s.started && c in s.connections
    && Runs.Next(setup, s, e).0 == s
  }

  /** What the router says it has done changes its queue or its filters. */
  lemma AcceptedChanges(setup: R.Setup, s: R.State, command: Command, c: nat)
    requires Runs.Inv(setup, s)
    ensures R.HandleCommand(setup, s, command, c).1 <==> R.HandleCommand(setup, s, command, c).0 != s
  {
    var (t, ok) := R.HandleCommand(setup, s, command, c);
    assert ok ==> |t.queue| > |s.queue| || |t.filters| > |s.filters|;
  }

  lemma {:induction false} MessagesAreNoFailures(message: Message, device: Device, visits: seq<R.Visit>, c: nat)
    ensures Count(IsFailure, For(c, R.Deliveries(message, device, visits))) == 0
    decreases visits
  {
    if visits != [] {
      var v := visits[0];
      var now, later := R.SentBy(message, device)(v), R.Deliveries(message, device, visits[1..]);
      MessagesAreNoFailures(message, device, visits[1..], c);
      ForAppend(c, now, later);
      CountAppend(IsFailure, For(c, now), For(c, later));
      if R.Hit(v) {
        ForOne(c, v.filter.connection, R.RouteCommand(message, device, v.filter.reply));
        CountOne(IsFailure, R.RouteCommand(message, device, v.filter.reply));
      }
    }
  }

  lemma AnswerFails(setup: R.Setup, s: R.State, d: nat, command: Command, space: bool, c: nat)
    requires Runs.Inv(setup, s)
    ensures Count(IsFailure, For(c, Runs.Next(setup, s, Runs.ClientSends(d, command, space)).1)) ==
            if Refused(setup, s, Runs.ClientSends(d, command, space), c) then 1 else 0
  {
    var out := Runs.Next(setup, s, Runs.ClientSends(d, command, space)).1;
    AcceptedChanges(setup, s, command, d);
    if out != [] {
      assert out == [(d, out[0].1)];
      ForOne(c, d, out[0].1);
      CountOne(IsFailure, out[0].1);
    }
  }

  /** What the router sends to a connection holds a failure exactly for a command that it refuses. */
  lemma OutputFails(setup: R.Setup, s: R.State, e: Runs.Event, c: nat)
    requires Runs.Inv(setup, s) && Runs.Enabled(setup, s, e)
    ensures Count(IsFailure, For(c, Runs.Next(setup, s, e).1)) == if Refused(setup, s, e, c) then 1 else 0
  {
    match e
    case DeviceSends(n, message, spaces) =>
      if s.started && Ledger.PacketDevice(setup, n, message).Just? {
        MessagesAreNoFailures(message, Ledger.PacketDevice(setup, n, message).value,
                              R.Visits(setup, s, message, setup.config.networks[n], spaces), c);
      }
    case ClientSends(d, command, space) => AnswerFails(setup, s, d, command, space, c);
    case _ =>
  }

  // --- The whole system ---

  /** The failures a client has not read. */
  function Unread(sys: System, c: nat): nat {
    Count(IsFailure, ClientOf(sys, c).toClient)
  }

  ghost predicate RefusedBy(protocol: Protocol, sys: System, e: Event, c: nat)
    requires Frame(protocol, sys) && Enabled(protocol, sys, e)
  {
    e.RouterReads? && e.c == c && Refused(protocol.setup, sys.router, Runs.ClientSends(c, ClientOf(sys, c).toRouter[0], e.space), c)
  }

  function ReportsBy(protocol: Protocol, sys: System, e: Event, c: nat): nat
    requires Runs.Inv(protocol.setup, sys.router) && Enabled(protocol, sys, e)
  {
    if e.Hears? && e.c == c then Count(IsFailureReport, Next(protocol, sys, e).1) else 0
  }

  lemma RouterFails(protocol: Protocol, sys: System, e: Runs.Event, c: nat)
    requires Runs.Inv(protocol.setup, sys.router) && Runs.Enabled(protocol.setup, sys.router, e)
    requires e.ClientSends? ==> e.connection in sys.clients
    ensures Unread(RouterStep(protocol, sys, e), c) ==
            Unread(sys, c) + if Refused(protocol.setup, sys.router, e, c) then 1 else 0
  {
    var outputs := Runs.Next(protocol.setup, sys.router, e).1;
    DeliverTo(sys.clients, outputs, c);
    CountAppend(IsFailure, ClientOf(sys, c).toClient, For(c, outputs));
    OutputFails(protocol.setup, sys.router, e, c);
  }

  lemma ReadFails(protocol: Protocol, sys: System, e: Event, c: nat)
    requires Frame(protocol, sys) && e.RouterReads? && Enabled(protocol, sys, e)
    ensures Unread(Next(protocol, sys, e).0, c) == Unread(sys, c) + if RefusedBy(protocol, sys, e, c) then 1 else 0
  {
    var client := ClientOf(sys, e.c);
    var rest := WithClient(sys, e.c, client.(toRouter := client.toRouter[1..]));
    RouterFails(protocol, rest, Runs.ClientSends(e.c, client.toRouter[0], e.space), c);
  }

  /** A client that reads a failure is told of it, and of nothing else as a failure. */
  lemma HearFails(protocol: Protocol, sys: System, c: nat)
    requires Frame(protocol, sys) && Enabled(protocol, sys, Hears(c))
    ensures ReportsBy(protocol, sys, Hears(c), c) == if IsFailure(ClientOf(sys, c).toClient[0]) then 1 else 0
  {
    ReportsOf(ClientOf(sys, c).dispatcher, ClientOf(sys, c).toClient[0]);
  }

  lemma ReportsOf(s: D.State, command: Command)
    requires D.Acceptable(command)
    ensures Count(IsFailureReport, D.GetPacket(s, command).1) == if IsFailure(command) then 1 else 0
  {
    var calls := D.GetPacket(s, command).1;
    if calls != [] {
      assert calls == [calls[0]];
      CountOne(IsFailureReport, calls[0]);
    }
  }

  /** One step: the failures unread grow by a refusal and shrink by a report. */
  lemma StepFails(protocol: Protocol, sys: System, e: Event, c: nat)
    requires Frame(protocol, sys) && Enabled(protocol, sys, e)
    ensures Unread(Next(protocol, sys, e).0, c) + ReportsBy(protocol, sys, e, c) ==
            Unread(sys, c) + if RefusedBy(protocol, sys, e, c) then 1 else 0
  {
    if e.RouterReads? {
      ReadFails(protocol, sys, e, c);
    } else if e.RouterDoes? {
      RouterFails(protocol, sys, e.event, c);
    } else {
      ChannelStays(protocol, sys, e, c);
      if e == Hears(c) {
        HearFails(protocol, sys, c);
        CountTail(IsFailure, ClientOf(sys, c).toClient);
      }
    }
  }

  ghost function Refusals(protocol: Protocol, sys: System, events: seq<Event>, c: nat): nat
    requires Frame(protocol, sys) && Possible(protocol, sys, events)
    decreases events
  {
    if events == [] then 0 else
    StepKeepsFrame(protocol, sys, events[0]);
    (if RefusedBy(protocol, sys, events[0], c) then 1 else 0) + Refusals(protocol, Next(protocol, sys, events[0]).0, events[1..], c)
  }

  ghost function Reports(protocol: Protocol, sys: System, events: seq<Event>, c: nat): nat
    requires Frame(protocol, sys) && Possible(protocol, sys, events)
    decreases events
  {
    if events == [] then 0 else
    StepKeepsFrame(protocol, sys, events[0]);
    ReportsBy(protocol, sys, events[0], c) + Reports(protocol, Next(protocol, sys, events[0]).0, events[1..], c)
  }

  ghost function End(protocol: Protocol, sys: System, events: seq<Event>): System
    requires Frame(protocol, sys) && Possible(protocol, sys, events)
    decreases events
  {
    if events == [] then sys else
    StepKeepsFrame(protocol, sys, events[0]);
    End(protocol, Next(protocol, sys, events[0]).0, events[1..])
  }

  /** Over every run a client is told of a failure once for each of its commands that the router refused,
      but for those it has yet to read. */
  lemma {:induction false} FailuresAreReported(protocol: Protocol, sys: System, events: seq<Event>, c: nat)
    requires Frame(protocol, sys) && Possible(protocol, sys, events)
    ensures Unread(sys, c) + Refusals(protocol, sys, events, c) ==
            Reports(protocol, sys, events, c) + Unread(End(protocol, sys, events), c)
    decreases events
  {
    if events != [] {
      StepKeepsFrame(protocol, sys, events[0]);
      StepFails(protocol, sys, events[0], c);
      FailuresAreReported(protocol, Next(protocol, sys, events[0]).0, events[1..], c);
    }
  }
}
