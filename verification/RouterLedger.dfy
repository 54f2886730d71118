/** The ledger of queries and the order of the send queue, over all runs of the router
    (deephome/router/Router.cpp:159-212,393-405,464-558). */
module RouterLedger {
  import opened Messages
  import opened RouterConfig
  import opened Router
  import opened RouterRuns

  // --- Runs ---

  /** Each event happens in a state that allows it. */
  ghost predicate Possible(setup: Setup, s: State, events: seq<Event>)
    requires Inv(setup, s)
    decreases events
  {
    events == [] ||
    (Enabled(setup, s, events[0]) && (StepKeepsInv(setup, s, events[0]); Possible(setup, Next(setup, s, events[0]).0, events[1..])))
  }

  ghost function End(setup: Setup, s: State, events: seq<Event>): (t: State)
    requires Inv(setup, s) && Possible(setup, s, events)
    ensures Inv(setup, t)
    decreases events
  {
    if events == [] then s else
    StepKeepsInv(setup, s, events[0]);
    End(setup, Next(setup, s, events[0]).0, events[1..])
  }

  /** What the clients are sent. */
  ghost function Outputs(setup: Setup, s: State, events: seq<Event>): seq<(nat, Command)>
    requires Inv(setup, s) && Possible(setup, s, events)
    decreases events
  {
    if events == [] then [] else
    StepKeepsInv(setup, s, events[0]);
    Next(setup, s, events[0]).1 + Outputs(setup, Next(setup, s, events[0]).0, events[1..])
  }

  // --- Queries ---

  /** A query as its connection, its device and its address. */
  datatype Key = Key(connection: nat, device: Device, address: nat)

  function KeyOf(f: Filter): Key
    requires f.device.Just?
  {
    Key(f.connection, f.device.value, f.address)
  }

  predicate Waits(p: Key -> bool, f: Filter) {
    f.reply && f.device.Just? && p(KeyOf(f))
  }

  /** How many queries that satisfy `p` wait for their reply. */
  function Outstanding(p: Key -> bool, filters: seq<Filter>): nat
    decreases filters
  {
    if filters == [] then 0 else (if Waits(p, filters[0]) then 1 else 0) + Outstanding(p, filters[1..])
  }

  predicate Asks(p: Key -> bool, r: SendRecord) {
    r.kind == Request && Waits(p, r.response)
  }

  /** How many queries that satisfy `p` wait to be sent. */
  function Queued(p: Key -> bool, queue: seq<SendRecord>): nat
    decreases queue
  {
    if queue == [] then 0 else (if Asks(p, queue[0]) then 1 else 0) + Queued(p, queue[1..])
  }

  /** How many of the outstanding queries a removal of filters takes away. */
  function Removed(p: Key -> bool, drop: Drop, filters: seq<Filter>): nat
    decreases filters
  {
    if filters == [] then 0 else
      (if Drops(drop, filters[0]) && Waits(p, filters[0]) then 1 else 0) + Removed(p, drop, filters[1..])
  }

  /** How many of the filters visited get their reply. */
  function Answered(p: Key -> bool, visits: seq<Visit>): nat
    decreases visits
  {
    if visits == [] then 0 else
      (if Hit(visits[0]) && Waits(p, visits[0].filter) then 1 else 0) + Answered(p, visits[1..])
  }

  /** The device and the visits of a packet's filter loop, if there is one. */
  function PacketDevice(setup: Setup, n: nat, message: Message): Found<Device>
    requires n < |setup.config.networks|
  {
    FindById(setup.config.devices, setup.config.networks[n], message.deviceId)
  }

  function PacketVisits(setup: Setup, s: State, n: nat, message: Message, spaces: seq<bool>): seq<Visit>
    requires n < |setup.config.networks| && |spaces| == |s.filters|
  {
    if !s.started || PacketDevice(setup, n, message).Nothing? then []
    else Visits(setup, s, message, setup.config.networks[n], spaces)
  }

  /** The record an event puts into the send queue. */
  ghost function EnqueuedBy(setup: Setup, s: State, e: Event): seq<SendRecord>
    requires Inv(setup, s)
  {
    if e.ClientSends? && s.started && e.connection in s.connections && (e.command.action == "send" || e.command.action == "query") then
      var record := MakeRecord(setup.config, s.up, e.command, e.connection, if e.command.action == "send" then Data else Request);
      if record.Just? then [record.value] else []
    else []
  }

  ghost function AcceptedBy(p: Key -> bool, setup: Setup, s: State, e: Event): nat
    requires Inv(setup, s)
  {
    Queued(p, EnqueuedBy(setup, s, e))
  }

  ghost function DeliveredBy(p: Key -> bool, setup: Setup, s: State, e: Event): nat
    requires Inv(setup, s) && Enabled(setup, s, e)
  {
    if e.DeviceSends? then Answered(p, PacketVisits(setup, s, e.n, e.message, e.spaces)) else 0
  }

  /** Why a query is given up: its network is down or overflows when it is to be sent, its network is
      lost, or its connection is closed. */
  ghost function DiscardedBy(p: Key -> bool, setup: Setup, s: State, e: Event): nat
    requires Inv(setup, s) && Enabled(setup, s, e)
  {
    match e
    case SendFires(room) =>
      var record := s.queue[0];
      assert GoodRecord(setup.config, record);
      if !s.up[record.network] then Queued(p, [record])
      else if !room then Queued(p, [record]) + Removed(p, RepliesOn(setup.config.networks[record.network]), s.filters)
      else 0
    case NetworkDrops(n) => if s.started then Removed(p, RepliesOn(setup.config.networks[n]), s.filters) else 0
    case ClientLost(c) => if s.started && c in s.connections then Removed(p, Of({c}), s.filters) else 0
    case ClientSends(c, _, space) =>
      if s.started && c in s.connections && !space then Removed(p, Of({c}), s.filters) else 0
    case DeviceSends(n, message, spaces) =>
      var visits := PacketVisits(setup, s, n, message, spaces);
      Removed(p, Of(Dead(visits)), Survivors(visits))
    case Stops => if s.started then Outstanding(p, s.filters) else 0
    case _ => 0
  }

  lemma {:induction false} OutstandingAppend(p: Key -> bool, a: seq<Filter>, b: seq<Filter>)
    ensures Outstanding(p, a + b) == Outstanding(p, a) + Outstanding(p, b)
    decreases a
  {
    if a == [] {
      assert a + b == b;
    } else {
      OutstandingAppend(p, a[1..], b);
      assert (a + b)[1..] == a[1..] + b;
    }
  }

  lemma {:induction false} QueuedAppend(p: Key -> bool, a: seq<SendRecord>, b: seq<SendRecord>)
    ensures Queued(p, a + b) == Queued(p, a) + Queued(p, b)
    decreases a
  {
    if a == [] {
      assert a + b == b;
    } else {
      QueuedAppend(p, a[1..], b);
      assert (a + b)[1..] == a[1..] + b;
    }
  }

  lemma OutstandingOne(p: Key -> bool, f: Filter)
    ensures Outstanding(p, [f]) == if Waits(p, f) then 1 else 0
  {
    assert [f][1..] == [];
  }

  lemma QueuedOne(p: Key -> bool, r: SendRecord)
    ensures Queued(p, [r]) == if Asks(p, r) then 1 else 0
  {
    assert [r][1..] == [];
  }

  lemma {:induction false} RemovedFromOutstanding(p: Key -> bool, drop: Drop, filters: seq<Filter>)
    ensures Outstanding(p, filters) == Outstanding(p, Without(drop, filters)) + Removed(p, drop, filters)
    decreases filters
  {
    if filters != [] {
      var rest := Without(drop, filters[1..]);
      RemovedFromOutstanding(p, drop, filters[1..]);
      assert ([filters[0]] + rest)[1..] == rest && [] + rest == rest;
    }
  }

  function FiltersOf(visits: seq<Visit>): (filters: seq<Filter>)
    ensures |filters| == |visits|
  {
    seq(|visits|, i requires 0 <= i < |visits| => visits[i].filter)
  }

  lemma {:induction false} AnsweredFromOutstanding(p: Key -> bool, visits: seq<Visit>)
    ensures Outstanding(p, FiltersOf(visits)) == Outstanding(p, Survivors(visits)) + Answered(p, visits)
    decreases visits
  {
    if visits != [] {
      var rest := Survivors(visits[1..]);
      AnsweredFromOutstanding(p, visits[1..]);
      assert FiltersOf(visits)[1..] == FiltersOf(visits[1..]);
      assert ([visits[0].filter] + rest)[1..] == rest && [] + rest == rest;
    }
  }

  lemma PacketLedger(p: Key -> bool, setup: Setup, s: State, n: nat, message: Message, spaces: seq<bool>)
    requires n < |setup.config.networks| && |spaces| == |s.filters|
    ensures var visits, t := PacketVisits(setup, s, n, message, spaces), DevicePacket(setup, s, n, message, spaces).0;
      Outstanding(p, s.filters) ==
      Outstanding(p, t.filters) + Answered(p, visits) + Removed(p, Of(Dead(visits)), Survivors(visits))
  {
    var visits := PacketVisits(setup, s, n, message, spaces);
    if s.started && PacketDevice(setup, n, message).Just? {
      assert FiltersOf(visits) == s.filters;
      AnsweredFromOutstanding(p, visits);
      RemovedFromOutstanding(p, Of(Dead(visits)), Survivors(visits));
    }
  }

  lemma SendLedger(p: Key -> bool, setup: Setup, s: State, room: bool)
    requires Inv(setup, s) && s.sendTimer
    ensures var t := Next(setup, s, SendFires(room)).0;
      Queued(p, s.queue) + Outstanding(p, s.filters) ==
      Queued(p, t.queue) + Outstanding(p, t.filters) + DiscardedBy(p, setup, s, SendFires(room))
  {
    var record := s.queue[0];
    assert GoodRecord(setup.config, record);
    QueuedOne(p, record);
    if s.up[record.network] {
      if !room {
        RemovedFromOutstanding(p, RepliesOn(setup.config.networks[record.network]), s.filters);
      } else if record.kind == Request {
        OutstandingAppend(p, s.filters, [record.response]);
        OutstandingOne(p, record.response);
      }
    }
  }

  lemma CommandQueue(setup: Setup, s: State, c: nat, command: Command, space: bool)
    requires Inv(setup, s)
    ensures var e := ClientSends(c, command, space); Next(setup, s, e).0.queue == s.queue + EnqueuedBy(setup, s, e)
  {
    if s.started && c in s.connections { HandledQueue(setup, s, c, command, space); }
  }

  lemma HandledQueue(setup: Setup, s: State, c: nat, command: Command, space: bool)
    requires Inv(setup, s) && s.started && c in s.connections
    ensures HandleCommand(setup, s, command, c).0.queue == s.queue + EnqueuedBy(setup, s, ClientSends(c, command, space))
  {
  }

  lemma CommandLedger(p: Key -> bool, setup: Setup, s: State, c: nat, command: Command, space: bool)
    requires Inv(setup, s)
    ensures var e := ClientSends(c, command, space); var t := Next(setup, s, e).0;
      Outstanding(p, s.filters) == Outstanding(p, t.filters) + DiscardedBy(p, setup, s, e)
  {
    if s.started && c in s.connections {
      var (handled, _) := HandleCommand(setup, s, command, c);
      FilterCommandAddsNoReply(p, setup, s, command, c);
      RemovedFromOutstanding(p, Of({c}), handled.filters);
      RemovedFromOutstanding(p, Of({c}), s.filters);
      NewFilterRemoved(p, setup, s, command, c);
    }
  }

  lemma FilterCommandAddsNoReply(p: Key -> bool, setup: Setup, s: State, command: Command, c: nat)
    requires Valid(setup.config) && |s.up| == |setup.config.networks|
    ensures Outstanding(p, HandleCommand(setup, s, command, c).0.filters) == Outstanding(p, s.filters)
  {
    var made := MakeFilter(setup.config, command, c);
    if made.Just? {
      OutstandingAppend(p, s.filters, [made.value]);
      OutstandingOne(p, made.value);
    }
  }

  lemma NewFilterRemoved(p: Key -> bool, setup: Setup, s: State, command: Command, c: nat)
    requires Valid(setup.config) && |s.up| == |setup.config.networks|
    ensures Removed(p, Of({c}), HandleCommand(setup, s, command, c).0.filters) == Removed(p, Of({c}), s.filters)
  {
    var made := MakeFilter(setup.config, command, c);
    if made.Just? {
      RemovedAppend(p, Of({c}), s.filters, made.value);
    }
  }

  lemma {:induction false} RemovedAppend(p: Key -> bool, drop: Drop, filters: seq<Filter>, f: Filter)
    requires !f.reply
    ensures Removed(p, drop, filters + [f]) == Removed(p, drop, filters)
    decreases filters
  {
    if filters == [] {
      assert filters + [f] == [f] && [f][1..] == [];
    } else {
      RemovedAppend(p, drop, filters[1..], f);
      assert (filters + [f])[1..] == filters[1..] + [f];
    }
  }

  /** One step of the ledger, for the queries of any kind `p`. */
  lemma StepLedger(p: Key -> bool, setup: Setup, s: State, e: Event)
    requires Inv(setup, s) && Enabled(setup, s, e)
    ensures var t := Next(setup, s, e).0;
      Queued(p, s.queue) + Outstanding(p, s.filters) + AcceptedBy(p, setup, s, e) ==
      Queued(p, t.queue) + Outstanding(p, t.filters) + DeliveredBy(p, setup, s, e) + DiscardedBy(p, setup, s, e)
  {
    match e
    case SendFires(room) => SendLedger(p, setup, s, room);
    case ClientLost(c) => LossLedger(p, setup, s, c);
    case ClientSends(c, command, space) =>
      CommandLedger(p, setup, s, c, command, space);
      CommandQueue(setup, s, c, command, space);
      QueuedAppend(p, s.queue, EnqueuedBy(setup, s, e));
    case NetworkDrops(n) => DropLedger(p, setup, s, n);
    case DeviceSends(n, message, spaces) => PacketLedger(p, setup, s, n, message, spaces);
    case Stops =>
    case _ => QuietLedger(setup, s, e);
  }

  lemma LossLedger(p: Key -> bool, setup: Setup, s: State, c: nat)
    requires Inv(setup, s)
    ensures var e := ClientLost(c); var t := Next(setup, s, e).0;
      t.queue == s.queue && Outstanding(p, s.filters) == Outstanding(p, t.filters) + DiscardedBy(p, setup, s, e)
  {
    RemovedFromOutstanding(p, Of({c}), s.filters);
  }

  lemma DropLedger(p: Key -> bool, setup: Setup, s: State, n: nat)
    requires Inv(setup, s) && Enabled(setup, s, NetworkDrops(n))
    ensures var e := NetworkDrops(n); var t := Next(setup, s, e).0;
      t.queue == s.queue && Outstanding(p, s.filters) == Outstanding(p, t.filters) + DiscardedBy(p, setup, s, e)
  {
    RemovedFromOutstanding(p, RepliesOn(setup.config.networks[n]), s.filters);
  }

  lemma QuietLedger(setup: Setup, s: State, e: Event)
    requires Inv(setup, s) && Enabled(setup, s, e) && (e.Starts? || e.ReconnectFires? || e.ClientAccepted?)
    ensures Next(setup, s, e).0.queue == s.queue && Next(setup, s, e).0.filters == s.filters
  {
  }

  datatype Totals = Totals(accepted: nat, delivered: nat, discarded: nat)

  ghost function Sum(p: Key -> bool, setup: Setup, s: State, events: seq<Event>): Totals
    requires Inv(setup, s) && Possible(setup, s, events)
    decreases events
  {
    if events == [] then Totals(0, 0, 0) else
    StepKeepsInv(setup, s, events[0]);
    var rest := Sum(p, setup, Next(setup, s, events[0]).0, events[1..]);
    Totals(rest.accepted + AcceptedBy(p, setup, s, events[0]),
           rest.delivered + DeliveredBy(p, setup, s, events[0]),
           rest.discarded + DiscardedBy(p, setup, s, events[0]))
  }

  /** No query is lost or made up: those there were and those accepted are queued, outstanding,
      replied to or discarded. */
  lemma {:induction false} RunLedger(p: Key -> bool, setup: Setup, s: State, events: seq<Event>)
    requires Inv(setup, s) && Possible(setup, s, events)
    ensures var t, sum := End(setup, s, events), Sum(p, setup, s, events);
      Queued(p, s.queue) + Outstanding(p, s.filters) + sum.accepted ==
      Queued(p, t.queue) + Outstanding(p, t.filters) + sum.delivered + sum.discarded
    decreases events
  {
    if events != [] {
      StepKeepsInv(setup, s, events[0]);
      StepLedger(p, setup, s, events[0]);
      RunLedger(p, setup, Next(setup, s, events[0]).0, events[1..]);
    }
  }

  // --- What a client sees ---

  predicate FromClient(c: nat, k: Key) {
    k.connection == c
  }

  function Replies(c: nat, outputs: seq<(nat, Command)>): nat
    decreases outputs
  {
    if outputs == [] then 0 else
      (if outputs[0].0 == c && outputs[0].1.action == "reply" then 1 else 0) + Replies(c, outputs[1..])
  }

  /** Whether the router takes a query of connection `c`. */
  ghost predicate TakesQuery(setup: Setup, s: State, e: Event, c: nat)
    requires Inv(setup, s)
  {
    && e.ClientSends? && e.connection == c && s.started && c in s.connections
    && e.command.action == "query" && HandleCommand(setup, s, e.command, c).1
  }

  ghost function QueriesTaken(setup: Setup, s: State, events: seq<Event>, c: nat): nat
    requires Inv(setup, s) && Possible(setup, s, events)
    decreases events
  {
    if events == [] then 0 else
    StepKeepsInv(setup, s, events[0]);
    (if TakesQuery(setup, s, events[0], c) then 1 else 0) +
    QueriesTaken(setup, Next(setup, s, events[0]).0, events[1..], c)
  }

  lemma {:induction false} RepliesAppend(c: nat, a: seq<(nat, Command)>, b: seq<(nat, Command)>)
    ensures Replies(c, a + b) == Replies(c, a) + Replies(c, b)
    decreases a
  {
    if a == [] {
      assert a + b == b;
    } else {
      RepliesAppend(c, a[1..], b);
      assert (a + b)[1..] == a[1..] + b;
    }
  }

  lemma {:induction false} RepliesAreAnswers(c: nat, message: Message, device: Device, visits: seq<Visit>)
    requires forall i | 0 <= i < |visits| :: visits[i].filter.reply ==> visits[i].filter.device.Just?
    ensures Replies(c, Deliveries(message, device, visits)) == Answered((k: Key) => FromClient(c, k), visits)
    decreases visits
  {
    if visits != [] {
      var first, rest := visits[0], Deliveries(message, device, visits[1..]);
      RepliesAreAnswers(c, message, device, visits[1..]);
      var out := (first.filter.connection, RouteCommand(message, device, first.filter.reply));
      assert ([out] + rest)[1..] == rest && [] + rest == rest;
    }
  }

  lemma StepReplies(setup: Setup, s: State, e: Event, c: nat)
    requires Inv(setup, s) && Enabled(setup, s, e)
    ensures Replies(c, Next(setup, s, e).1) == DeliveredBy((k: Key) => FromClient(c, k), setup, s, e)
  {
    match e
    case DeviceSends(n, message, spaces) =>
      var visits := PacketVisits(setup, s, n, message, spaces);
      if visits != [] {
        forall i | 0 <= i < |visits|
          ensures visits[i].filter.reply ==> visits[i].filter.device.Just?
        {
          assert GoodFilter(setup.config, s.up, s.filters[i]);
        }
        RepliesAreAnswers(c, message, PacketDevice(setup, n, message).value, visits);
      }
    case ClientSends(d, command, space) =>
      var out := Next(setup, s, e).1;
      if out != [] { assert out[1..] == []; }
    case _ =>
  }

  lemma StepQueries(setup: Setup, s: State, e: Event, c: nat)
    requires Inv(setup, s)
    ensures AcceptedBy((k: Key) => FromClient(c, k), setup, s, e) == if TakesQuery(setup, s, e, c) then 1 else 0
  {
    var queued := EnqueuedBy(setup, s, e);
    if queued != [] { QueuedOne((k: Key) => FromClient(c, k), queued[0]); }
  }

  lemma {:induction false} RunOfClient(setup: Setup, s: State, events: seq<Event>, c: nat)
    requires Inv(setup, s) && Possible(setup, s, events)
    ensures var sum := Sum((k: Key) => FromClient(c, k), setup, s, events);
      && sum.accepted == QueriesTaken(setup, s, events, c)
      && sum.delivered == Replies(c, Outputs(setup, s, events))
    decreases events
  {
    if events != [] {
      var next := Next(setup, s, events[0]);
      StepKeepsInv(setup, s, events[0]);
      StepReplies(setup, s, events[0], c);
      StepQueries(setup, s, events[0], c);
      RunOfClient(setup, next.0, events[1..], c);
      RepliesAppend(c, next.1, Outputs(setup, next.0, events[1..]));
    }
  }

  /** Whatever happens from a router at rest on, a connection never gets more replies than it had
      queries taken. */
  lemma NoSpareReplies(setup: Setup, s: State, events: seq<Event>, c: nat)
    requires Inv(setup, s) && s.queue == [] && s.filters == [] && Possible(setup, s, events)
    ensures Replies(c, Outputs(setup, s, events)) <= QueriesTaken(setup, s, events, c)
  {
    RunLedger((k: Key) => FromClient(c, k), setup, s, events);
    RunOfClient(setup, s, events, c);
  }

  // --- The numbers of the connections ---

  /** The numbers given to the connections accepted. */
  ghost function Numbers(setup: Setup, s: State, events: seq<Event>): seq<nat>
    requires Inv(setup, s) && Possible(setup, s, events)
    decreases events
  {
    if events == [] then [] else
    StepKeepsInv(setup, s, events[0]);
    var next := Next(setup, s, events[0]).0;
    (if next.connections <= s.connections then [] else [next.nextId]) + Numbers(setup, next, events[1..])
  }

  lemma CommandNumbers(setup: Setup, s: State, c: Command, connection: nat, space: bool)
    requires Valid(setup.config) && |s.up| == |setup.config.networks|
    ensures var t := ConnectionCommand(setup, s, c, connection, space).0;
      t.connections <= s.connections && t.nextId == s.nextId
  {
  }

  lemma StepNumbers(setup: Setup, s: State, e: Event)
    requires Inv(setup, s) && Enabled(setup, s, e)
    ensures var t := Next(setup, s, e).0;
      if t.connections <= s.connections then t.nextId >= s.nextId
      else t.nextId > s.nextId && t.connections == s.connections + {t.nextId}
  {
    match e
    case ClientAccepted => if s.started { assert s.nextId + 1 !in s.connections; }
    case ClientSends(c, command, space) => CommandNumbers(setup, s, command, c, space);
    case _ =>
  }

  predicate AscendingAbove(bound: nat, numbers: seq<nat>) {
    && (forall i | 0 <= i < |numbers| :: numbers[i] > bound)
    && (forall i, j | 0 <= i < j < |numbers| :: numbers[i] < numbers[j])
  }

  lemma Later(first: seq<nat>, rest: seq<nat>, before: nat, after: nat)
    requires before <= after && (first == [] || (first == [after] && after > before)) && AscendingAbove(after, rest)
    ensures AscendingAbove(before, first + rest)
  {
  }

  /** A connection gets a number above all those given before, in every run and over stops and starts. */
  lemma {:induction false} NumbersAreNew(setup: Setup, s: State, events: seq<Event>)
    requires Inv(setup, s) && Possible(setup, s, events)
    ensures AscendingAbove(s.nextId, Numbers(setup, s, events))
    decreases events
  {
    if events != [] {
      var next := Next(setup, s, events[0]).0;
      StepKeepsInv(setup, s, events[0]);
      StepNumbers(setup, s, events[0]);
      NumbersAreNew(setup, next, events[1..]);
      Later(if next.connections <= s.connections then [] else [next.nextId], Numbers(setup, next, events[1..]),
            s.nextId, next.nextId);
    }
  }
}
