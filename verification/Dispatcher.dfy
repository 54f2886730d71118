/** The client's end of the query protocol (deephome/common/source/client/Dispatcher.cpp): pending
    queries, their timeouts and the filters for unasked messages. */
module Dispatcher {
  import opened Sequences
  import opened Messages
  import opened DeviceCommands
  import S = SocketConnection
  import opened Bitwise

  /** A pending query. Its handler is named by a number of its own; `id` is the 32-bit counter value
      by which its timeout finds it. */
  datatype PendingQuery = PendingQuery(id: Unsigned, handler: nat, device: string, address: Word, timed: bool)

  datatype FilterRecord = FilterRecord(filter: ClientFilter, handler: nat)

  datatype State = State(connected: bool, lastId: Unsigned, issued: nat, queries: seq<PendingQuery>, filters: seq<FilterRecord>)

  const INITIAL: State := State(false, 0, 0, [], [])

  datatype Report = CommandFailed | ConnectionClosed | UnknownCommand

  /** The calls the dispatcher makes to its user. */
  datatype Call =
    | Replied(handler: nat, command: DeviceCommand)
    | TimedOut(handler: nat)
    | Status(filterHandler: nat, command: DeviceCommand)
    | Unhandled(command: DeviceCommand)
    | Reported(report: Report)

  predicate Matches(q: PendingQuery, device: string, address: Word) {
    q.device == device && q.address == address
  }

  /** The first pending query for a device and address, or the length of the list. */
  function FindQuery(queries: seq<PendingQuery>, device: string, address: Word): (i: nat)
    ensures i <= |queries| && (i < |queries| ==> Matches(queries[i], device, address))
    ensures forall j | 0 <= j < i :: !Matches(queries[j], device, address)
    decreases queries
  {
    if queries == [] || Matches(queries[0], device, address) then 0 else 1 + FindQuery(queries[1..], device, address)
  }

  function FindId(queries: seq<PendingQuery>, id: Unsigned): (i: nat)
    ensures i <= |queries| && (i < |queries| ==> queries[i].id == id)
    ensures forall j | 0 <= j < i :: queries[j].id != id
    decreases queries
  {
    if queries == [] || queries[0].id == id then 0 else 1 + FindId(queries[1..], id)
  }

  predicate Accepts(f: ClientFilter, c: DeviceCommand) {
    && (f.device == "" || f.device == c.device)
    && And(f.address, f.mask) == And(c.address, f.mask)
  }

  function FindFilter(filters: seq<FilterRecord>, c: DeviceCommand): (i: nat)
    ensures i <= |filters| && (i < |filters| ==> Accepts(filters[i].filter, c))
    ensures forall j | 0 <= j < i :: !Accepts(filters[j].filter, c)
    decreases filters
  {
    if filters == [] || Accepts(filters[0].filter, c) then 0 else 1 + FindFilter(filters[1..], c)
  }

  // --- What each event does ---

  function SendQuery(s: State, query: DeviceCommand, timed: bool, room: bool): State {
    if !room then s else
    var id := (s.lastId + 1) % UNSIGNED;
    s.(lastId := id, issued := s.issued + 1,
       queries := s.queries + [PendingQuery(id, s.issued + 1, query.device, query.address, timed)])
  }

  function AddFilter(s: State, filter: ClientFilter, handler: nat, room: bool): State {
    if room then s.(filters := s.filters + [FilterRecord(filter, handler)]) else s
  }

  function GetReply(s: State, c: DeviceCommand): (State, seq<Call>) {
    var i := FindQuery(s.queries, c.device, c.address);
    if i == |s.queries| then (s, [Unhandled(c)])
    else (s.(queries := Erase(s.queries, i)), [Replied(s.queries[i].handler, c)])
  }

  function GetStatus(s: State, c: DeviceCommand): (State, seq<Call>) {
    var i := FindFilter(s.filters, c);
    if i == |s.filters| then (s, [Unhandled(c)]) else
    (if s.filters[i].filter.oneTime then s.(filters := Erase(s.filters, i)) else s,
     [Status(s.filters[i].handler, c)])
  }

  function QueryTimeout(s: State, id: Unsigned): (State, seq<Call>) {
    var i := FindId(s.queries, id);
    if i == |s.queries| then (s, []) else (s.(queries := Erase(s.queries, i)), [TimedOut(s.queries[i].handler)])
  }

  /** Whether on_packet gets past its checks. */
  predicate Acceptable(c: Command) {
    c.action == "send" || c.action == "reply" ==> FromService(FRESH_DEVICE_COMMAND, c).Ok?
  }

  /** on_packet for a service command */
  function GetPacket(s: State, c: Command): (State, seq<Call>)
    requires Acceptable(c)
  {
    if c.action == "ok" then (s, [])
    else if c.action == "fail" then (s, [Reported(CommandFailed)])
    else if c.action == "send" then GetStatus(s, FromService(FRESH_DEVICE_COMMAND, c).value)
    else if c.action == "reply" then GetReply(s, FromService(FRESH_DEVICE_COMMAND, c).value)
    else (s, [Reported(UnknownCommand)])
  }

  function Stop(s: State): State {
    if s.connected then s.(connected := false, queries := [], filters := []) else s
  }

  function Start(s: State): State {
    Stop(s).(connected := true)
  }

  class Dispatcher {
    var connected: bool
    var lastId: Unsigned
    var queries: seq<PendingQuery>
    var filters: seq<FilterRecord>
    ghost var issued: nat

    ghost function View(): State
      reads this
    {
      State(connected, lastId, issued, queries, filters)
    }

    constructor ()
      ensures View() == INITIAL
    {
      connected, lastId, issued, queries, filters := false, 0, 0, [], [];
    }

    method StartInternal()
      modifies this
      ensures View() == Start(old(View()))
    {
      if connected {
        var clean := StopDispatcher();
      }
      connected := true;
    }

    /** `clean` is false where a query takes a timeout with it that still runs, which the timeout's
        destructor does not allow. */
    method StopDispatcher() returns (clean: bool)
      modifies this
      ensures View() == Stop(old(View()))
      ensures clean <==> old(connected) ==> forall q | q in old(queries) :: !q.timed
    {
      if !connected {
        return true;
      }
      clean := forall q | q in queries :: !q.timed;
      connected := false;
      filters := [];
      queries := [];
    }

    /** `handler` is the number the model gives to the handler of the new query. */
    method IssueQuery(query: DeviceCommand, timed: bool, room: bool, handler: nat) returns (sent: seq<Command>)
      requires connected && query.kind == Query && ToService(query).Ok?
      requires handler == issued + 1
      modifies this
      ensures View() == SendQuery(old(View()), query, timed, room)
      ensures sent == if room then [ToService(query).value] else []
    {
      if !room {
        return []; // the connection's buffer is exhausted and `send` throws
      }
      lastId := (lastId + 1) % UNSIGNED;
      queries := queries + [PendingQuery(lastId, handler, query.device, query.address, timed)];
      issued := handler;
      return [ToService(query).value];
    }

    method AddClientFilter(filter: ClientFilter, handler: nat, room: bool) returns (sent: seq<Command>)
      requires connected && FilterToService(filter).Ok?
      modifies `filters
      ensures View() == AddFilter(old(View()), filter, handler, room)
      ensures sent == if room then [FilterToService(filter).value] else []
    {
      if !room {
        return [];
      }
      filters := filters + [FilterRecord(filter, handler)];
      return [FilterToService(filter).value];
    }

    /** Whatever the connection hands over; `Err` where a check ends the program. */
    method OnReceived(e: S.Event) returns (r: Result<seq<Call>>)
      modifies `queries, `filters
      ensures match e
        case Disconnected => r == Ok([Reported(ConnectionClosed)]) && View() == old(View())
        case Delivered(CommandPacket(c)) =>
          if Acceptable(c) then r.Ok? && (View(), r.value) == GetPacket(old(View()), c) else r.Err? && View() == old(View())
        case Delivered(_) => r.Err? && View() == old(View())
    {
      match e {
        case Disconnected =>
          return Ok([Reported(ConnectionClosed)]);
        case Delivered(CommandPacket(c)) =>
          if !Acceptable(c) {
            return Err;
          }
          var calls := OnPacket(c);
          return Ok(calls);
        case Delivered(_) =>
          return Err;
      }
    }

    method OnPacket(c: Command) returns (calls: seq<Call>)
      requires Acceptable(c)
      modifies `queries, `filters
      ensures (View(), calls) == GetPacket(old(View()), c)
    {
      if c.action == "ok" {
        return [];
      } else if c.action == "fail" {
        return [Reported(CommandFailed)];
      } else if c.action == "send" || c.action == "reply" {
        calls := HandleDeviceCommand(FromService(FRESH_DEVICE_COMMAND, c).value);
      } else {
        return [Reported(UnknownCommand)];
      }
    }

    method HandleDeviceCommand(c: DeviceCommand) returns (calls: seq<Call>)
      modifies `queries, `filters
      ensures (View(), calls) == if c.kind == Reply then GetReply(old(View()), c) else GetStatus(old(View()), c)
    {
      if c.kind == Reply {
        var i := FindQuery(queries, c.device, c.address);
        if i == |queries| {
          return [Unhandled(c)];
        }
        var handler := CloseQuery(i);
        return [Replied(handler, c)];
      } else {
        var i := FindFilter(filters, c);
        if i == |filters| {
          return [Unhandled(c)];
        }
        var handler := filters[i].handler;
        if filters[i].filter.oneTime {
          filters := Erase(filters, i);
        }
        return [Status(handler, c)];
      }
    }

    /** close_query up to the call of the handler, which is its last act. */
    method CloseQuery(i: nat) returns (handler: nat)
      requires i < |queries|
      modifies `queries
      ensures queries == Erase(old(queries), i) && handler == old(queries[i]).handler
    {
      handler := queries[i].handler;
      queries := Erase(queries, i);
    }

    method OnQueryTimeout(id: Unsigned) returns (calls: seq<Call>)
      modifies `queries
      ensures (View(), calls) == QueryTimeout(old(View()), id)
    {
      var i := FindId(queries, id);
      if i == |queries| {
        return [];
      }
      var handler := CloseQuery(i);
      return [TimedOut(handler)];
    }
  }

  // --- Runs ---

  datatype Event =
    | Starts
    | Stops
    | SendsQuery(query: DeviceCommand, timed: bool, room: bool)
    | AddsFilter(filter: ClientFilter, handler: nat, room: bool)
    | Gets(command: Command)
    | Closes
    | TimerFires(index: nat)

  predicate Enabled(s: State, e: Event) {
    match e
    case SendsQuery(query, _, _) => s.connected && query.kind == Query && ToService(query).Ok?
    case AddsFilter(filter, _, _) => s.connected && FilterToService(filter).Ok?
    case Gets(c) => s.connected && Acceptable(c)
    case Closes => s.connected
    case TimerFires(i) => i < |s.queries| && s.queries[i].timed
    case _ => true
  }

  function Next(s: State, e: Event): (State, seq<Call>)
    requires Enabled(s, e)
  {
    match e
    case Starts => (Start(s), [])
    case Stops => (Stop(s), [])
    case SendsQuery(query, timed, room) => (SendQuery(s, query, timed, room), [])
    case AddsFilter(filter, handler, room) => (AddFilter(s, filter, handler, room), [])
    case Gets(c) => GetPacket(s, c)
    case Closes => (s, [Reported(ConnectionClosed)])
    case TimerFires(i) => QueryTimeout(s, s.queries[i].id)
  }

  predicate Possible(s: State, events: seq<Event>)
    decreases events
  {
    events == [] || (Enabled(s, events[0]) && Possible(Next(s, events[0]).0, events[1..]))
  }

  function End(s: State, events: seq<Event>): State
    requires Possible(s, events)
    decreases events
  {
    if events == [] then s else End(Next(s, events[0]).0, events[1..])
  }

  function Calls(s: State, events: seq<Event>): seq<Call>
    requires Possible(s, events)
    decreases events
  {
    if events == [] then [] else Next(s, events[0]).1 + Calls(Next(s, events[0]).0, events[1..])
  }

  // --- The invariant ---

  /** Handlers are numbered in the order of issue, and ids are their numbers cut to 32 bits. */
  ghost predicate InOrder(issued: nat, queries: seq<PendingQuery>) {
    && (forall i | 0 <= i < |queries| :: 0 < queries[i].handler <= issued && queries[i].id == queries[i].handler % UNSIGNED)
    && (forall i, j | 0 <= i < j < |queries| :: queries[i].handler < queries[j].handler)
  }

  ghost predicate Inv(s: State) {
    s.lastId == s.issued % UNSIGNED && InOrder(s.issued, s.queries)
  }

  /** The pending query an event closes, or the length of the list. */
  function ClosedBy(s: State, e: Event): (i: nat)
    requires Enabled(s, e)
    ensures i <= |s.queries|
  {
    match e
    case Gets(c) =>
      if c.action != "reply" then |s.queries| else
      var reply := FromService(FRESH_DEVICE_COMMAND, c).value;
      FindQuery(s.queries, reply.device, reply.address)
    case TimerFires(k) => FindId(s.queries, s.queries[k].id)
    case _ => |s.queries|
  }

  predicate Closing(c: Call) {
    c.Replied? || c.TimedOut?
  }

  predicate FirstMatch(queries: seq<PendingQuery>, i: nat, c: DeviceCommand)
    requires i < |queries|
  {
    && Matches(queries[i], c.device, c.address)
    && forall j | 0 <= j < i :: !Matches(queries[j], c.device, c.address)
  }

  lemma StepCloses(s: State, e: Event)
    requires Enabled(s, e) && ClosedBy(s, e) < |s.queries|
    ensures var (t, calls) := Next(s, e); var i := ClosedBy(s, e);
      && t == s.(queries := Erase(s.queries, i))
      && |calls| == 1 && Closing(calls[0]) && calls[0].handler == s.queries[i].handler
      && (calls[0].Replied? ==> FirstMatch(s.queries, i, calls[0].command))
  {
  }

  predicate Issues(s: State, e: Event) {
    e.SendsQuery? && e.room
  }

  predicate Clears(s: State, e: Event) {
    (e.Starts? || e.Stops?) && s.connected
  }

  lemma StepLeaves(s: State, e: Event)
    requires Enabled(s, e) && ClosedBy(s, e) == |s.queries|
    ensures var (t, calls) := Next(s, e);
      && |calls| <= 1 && (forall i | 0 <= i < |calls| :: !Closing(calls[i]))
      && (Issues(s, e) ==> t == SendQuery(s, e.query, e.timed, true))
      && (!Issues(s, e) ==> t.lastId == s.lastId && t.issued == s.issued && t.queries == if Clears(s, e) then [] else s.queries)
  {
  }

  lemma EraseKeepsOrder(issued: nat, queries: seq<PendingQuery>, i: nat)
    requires InOrder(issued, queries) && i < |queries|
    ensures InOrder(issued, Erase(queries, i))
  {
    ErasedWas(queries, i);
  }

  lemma NextId(issued: nat)
    ensures (issued % UNSIGNED + 1) % UNSIGNED == (issued + 1) % UNSIGNED
  {
    var r := issued % UNSIGNED;
    assert issued + 1 == UNSIGNED * (issued / UNSIGNED) + (r + 1);
    if r + 1 == UNSIGNED { assert issued + 1 == UNSIGNED * (issued / UNSIGNED + 1); }
  }

  lemma StepKeepsInv(s: State, e: Event)
    requires Inv(s) && Enabled(s, e)
    ensures Inv(Next(s, e).0) && Next(s, e).0.issued == s.issued + (if Issues(s, e) then 1 else 0)
  {
    if ClosedBy(s, e) < |s.queries| {
      StepCloses(s, e);
      EraseKeepsOrder(s.issued, s.queries, ClosedBy(s, e));
    } else {
      StepLeaves(s, e);
      NextId(s.issued);
    }
  }

  /** As long as the oldest pending query is less than 2^32 queries old, ids identify the pending
      queries; until the counter wraps they are in ascending order. */
  lemma IdsIdentify(s: State)
    requires Inv(s) && s.queries != [] && s.issued - s.queries[0].handler < UNSIGNED
    ensures forall i, j | 0 <= i < j < |s.queries| :: s.queries[i].id != s.queries[j].id
    ensures s.issued < UNSIGNED ==> forall i, j | 0 <= i < j < |s.queries| :: s.queries[i].id < s.queries[j].id
  {
    forall i, j | 0 <= i < j < |s.queries|
      ensures s.queries[i].id != s.queries[j].id
    {
      var a, b := s.queries[i].handler, s.queries[j].handler;
      assert s.queries[0].handler <= a < b <= s.issued;
      Remainders(a, b);
    }
  }

  lemma Remainders(a: nat, b: nat)
    requires a < b && b - a < UNSIGNED
    ensures a % UNSIGNED != b % UNSIGNED
  {
    var quotients := b / UNSIGNED - a / UNSIGNED;
    assert b - a == UNSIGNED * quotients + b % UNSIGNED - a % UNSIGNED;
  }

  /** Then the timer of a query closes that query and no other. */
  lemma TimerClosesItsQuery(s: State, i: nat)
    requires Inv(s) && i < |s.queries| && s.queries[i].timed && s.issued - s.queries[0].handler < UNSIGNED
    ensures Next(s, TimerFires(i)) == (s.(queries := Erase(s.queries, i)), [TimedOut(s.queries[i].handler)])
  {
    IdsIdentify(s);
  }

  // --- Conservation ---

  function HandledBy(handler: nat): PendingQuery -> bool {
    (q: PendingQuery) => q.handler == handler
  }

  function AnswersTo(handler: nat): Call -> bool {
    (c: Call) => Closing(c) && c.handler == handler
  }

  function Waiting(handler: nat, queries: seq<PendingQuery>): nat {
    Count(HandledBy(handler), queries)
  }

  /** How often a query's handler is called. */
  function Called(handler: nat, calls: seq<Call>): nat {
    Count(AnswersTo(handler), calls)
  }

  /** The queries given up by a stop or a restart. */
  function DroppedBy(handler: nat, s: State, e: Event): nat {
    if Clears(s, e) then Waiting(handler, s.queries) else 0
  }

  function Dropped(handler: nat, s: State, events: seq<Event>): nat
    requires Possible(s, events)
    decreases events
  {
    if events == [] then 0 else DroppedBy(handler, s, events[0]) + Dropped(handler, Next(s, events[0]).0, events[1..])
  }

  /** One step: a pending query stays, has its handler called once, or is given up by a stop. */
  lemma StepConserves(handler: nat, s: State, e: Event)
    requires Inv(s) && Enabled(s, e)
    ensures var (t, calls) := Next(s, e);
      Waiting(handler, s.queries) + (if Issues(s, e) && handler == s.issued + 1 then 1 else 0) ==
      Waiting(handler, t.queries) + Called(handler, calls) + DroppedBy(handler, s, e)
  {
    var (t, calls) := Next(s, e);
    if calls != [] { CountOne(AnswersTo(handler), calls[0]); }
    if ClosedBy(s, e) < |s.queries| {
      StepCloses(s, e);
      CountErased(HandledBy(handler), s.queries, ClosedBy(s, e));
    } else {
      StepLeaves(s, e);
      if Issues(s, e) {
        var one := t.queries[|s.queries|..];
        assert one == [t.queries[|s.queries|]] && t.queries == s.queries + one;
        CountAppend(HandledBy(handler), s.queries, one);
        CountOne(HandledBy(handler), one[0]);
      }
    }
  }

  /** Over any run: every query issued is still waiting, has had its handler called exactly once, or
      was given up by a stop. */
  lemma {:induction false} RunConserves(handler: nat, s: State, events: seq<Event>)
    requires Inv(s) && Possible(s, events)
    ensures var t := End(s, events);
      && t.issued >= s.issued
      && Waiting(handler, s.queries) + (if s.issued < handler <= t.issued then 1 else 0) ==
         Waiting(handler, t.queries) + Called(handler, Calls(s, events)) + Dropped(handler, s, events)
    decreases events
  {
    if events != [] {
      StepKeepsInv(s, events[0]);
      StepConserves(handler, s, events[0]);
      RunConserves(handler, Next(s, events[0]).0, events[1..]);
      CountAppend(AnswersTo(handler), Next(s, events[0]).1, Calls(Next(s, events[0]).0, events[1..]));
    }
  }

  /** No handler is called twice. */
  lemma CalledAtMostOnce(handler: nat, events: seq<Event>)
    requires Possible(INITIAL, events)
    ensures Called(handler, Calls(INITIAL, events)) <= 1
  {
    RunConserves(handler, INITIAL, events);
  }

  // --- Order ---

  /** The handlers called for replies from one device and address. */
  function Served(device: string, address: Word, calls: seq<Call>): seq<nat>
    decreases calls
  {
    if calls == [] then [] else
      (if calls[0].Replied? && calls[0].command.device == device && calls[0].command.address == address
       then [calls[0].handler] else []) + Served(device, address, calls[1..])
  }

  predicate Above(bound: nat, handlers: seq<nat>) {
    forall i | 0 <= i < |handlers| :: handlers[i] > bound
  }

  predicate Ascending(handlers: seq<nat>) {
    forall i, j | 0 <= i < j < |handlers| :: handlers[i] < handlers[j]
  }

  /** No query up to `bound` waits for a reply from this device and address. */
  predicate NoneUpTo(bound: nat, device: string, address: Word, s: State) {
    && bound <= s.issued
    && forall i | 0 <= i < |s.queries| && Matches(s.queries[i], device, address) :: s.queries[i].handler > bound
  }

  lemma {:induction false} ServedAppend(device: string, address: Word, a: seq<Call>, b: seq<Call>)
    ensures Served(device, address, a + b) == Served(device, address, a) + Served(device, address, b)
    decreases a
  {
    if a == [] {
      assert a + b == b;
    } else {
      var rest, more := Served(device, address, a[1..]), Served(device, address, b);
      ServedAppend(device, address, a[1..], b);
      assert (a + b)[0] == a[0] && (a + b)[1..] == a[1..] + b;
      Regroup(if a[0].Replied? then [a[0].handler] else [], rest, more);
      Regroup([], rest, more);
    }
  }

  lemma ErasedWas(queries: seq<PendingQuery>, i: nat)
    requires i < |queries|
    ensures var left := Erase(queries, i);
      |left| == |queries| - 1 && forall j | 0 <= j < |left| :: left[j] == if j < i then queries[j] else queries[j + 1]
  {
  }

  /** The calls of one step serve at most one query. */
  lemma ServedBy(device: string, address: Word, calls: seq<Call>)
    requires |calls| <= 1
    ensures Served(device, address, calls) ==
            if calls != [] && calls[0].Replied? && calls[0].command.device == device && calls[0].command.address == address
            then [calls[0].handler] else []
  {
    if calls != [] { assert calls == [calls[0]]; }
  }

  /** Taking a query out leaves those that were above the bound, and the first match was the lowest. */
  lemma NoneUpToErased(s: State, i: nat, device: string, address: Word, bound: nat)
    requires Inv(s) && i < |s.queries| && NoneUpTo(bound, device, address, s)
    ensures var t := s.(queries := Erase(s.queries, i)); NoneUpTo(bound, device, address, t)
    ensures var t, q := s.(queries := Erase(s.queries, i)), s.queries[i];
      Matches(q, device, address) && (forall j | 0 <= j < i :: !Matches(s.queries[j], device, address)) ==>
        q.handler > bound && NoneUpTo(q.handler, device, address, t)
  {
    ErasedWas(s.queries, i);
  }

  lemma NoneUpToLeft(s: State, e: Event, device: string, address: Word, bound: nat)
    requires Inv(s) && Enabled(s, e) && ClosedBy(s, e) == |s.queries| && NoneUpTo(bound, device, address, s)
    ensures NoneUpTo(bound, device, address, Next(s, e).0)
  {
    StepLeaves(s, e);
  }

  /** One step serves at most one query, and that is the oldest that waits. */
  lemma StepServes(s: State, e: Event, device: string, address: Word, bound: nat)
    requires Inv(s) && Enabled(s, e) && NoneUpTo(bound, device, address, s)
    ensures var (t, calls) := Next(s, e); var served := Served(device, address, calls);
      && NoneUpTo(bound, device, address, t)
      && (served == [] || (|served| == 1 && served[0] > bound && NoneUpTo(served[0], device, address, t)))
  {
    if ClosedBy(s, e) < |s.queries| {
      StepCloses(s, e);
      NoneUpToErased(s, ClosedBy(s, e), device, address, bound);
    } else {
      StepLeaves(s, e);
      NoneUpToLeft(s, e, device, address, bound);
    }
    ServedBy(device, address, Next(s, e).1);
  }

  lemma InFront(now: seq<nat>, later: seq<nat>, bound: nat)
    requires Ascending(later) && Above(bound, later)
    requires now == [] || (|now| == 1 && now[0] > bound && Above(now[0], later))
    ensures Ascending(now + later) && Above(bound, now + later)
  {
  }

  lemma {:induction false} RunServes(s: State, events: seq<Event>, device: string, address: Word, bound: nat)
    requires Inv(s) && Possible(s, events) && NoneUpTo(bound, device, address, s)
    ensures var served := Served(device, address, Calls(s, events)); Ascending(served) && Above(bound, served)
    decreases events
  {
    if events != [] {
      var (next, calls) := Next(s, events[0]);
      var rest := Calls(next, events[1..]);
      StepKeepsInv(s, events[0]);
      var now, later := Served(device, address, calls), Served(device, address, rest);
      StepServes(s, events[0], device, address, bound);
      ServedAppend(device, address, calls, rest);
      RunServes(next, events[1..], device, address, bound);
      if now != [] { RunServes(next, events[1..], device, address, now[0]); }
      InFront(now, later, bound);
    }
  }

  /** Replies from one device and address serve the queries in the order in which these were issued. */
  lemma RepliesServeInOrder(events: seq<Event>, device: string, address: Word)
    requires Possible(INITIAL, events)
    ensures Ascending(Served(device, address, Calls(INITIAL, events)))
  {
    RunServes(INITIAL, events, device, address, 0);
  }
}
