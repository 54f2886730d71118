/** What becomes of unasked messages and of the filters for them over the runs of the dispatcher
    (deephome/common/source/client/Dispatcher.cpp:39-72,195-217). */
module DispatcherFilters {
  import opened Sequences
  import opened DeviceCommands
  import opened Dispatcher

  predicate IsStatus(e: Event) {
    e.Gets? && e.command.action == "send"
  }

  function StatusIn(s: State, e: Event): DeviceCommand
    requires Enabled(s, e) && IsStatus(e)
  {
    FromService(FRESH_DEVICE_COMMAND, e.command).value
  }

  predicate NoneAccepts(filters: seq<FilterRecord>, c: DeviceCommand) {
    forall i | 0 <= i < |filters| :: !Accepts(filters[i].filter, c)
  }

  predicate FirstToAccept(filters: seq<FilterRecord>, i: nat, c: DeviceCommand) {
    i < |filters| && Accepts(filters[i].filter, c) && NoneAccepts(filters[..i], c)
  }

  lemma FindsFirst(filters: seq<FilterRecord>, i: nat, c: DeviceCommand)
    ensures FirstToAccept(filters, i, c) ==> FindFilter(filters, c) == i
    ensures NoneAccepts(filters, c) <==> FindFilter(filters, c) == |filters|
  {
    if FirstToAccept(filters, i, c) {
      assert forall j | 0 <= j < i :: filters[..i][j] == filters[j];
    }
  }

  /** A status goes to the handler of the first filter that accepts it, which leaves if it is one-time; to
      the handler for unknown commands if and only if there is none. */
  lemma StatusGoesToFirst(s: State, e: Event, i: nat)
    requires Enabled(s, e) && IsStatus(e)
    ensures var (t, calls) := Next(s, e); var c := StatusIn(s, e);
      && (FirstToAccept(s.filters, i, c) ==>
            && calls == [Status(s.filters[i].handler, c)]
            && t == s.(filters := if s.filters[i].filter.oneTime then Erase(s.filters, i) else s.filters))
      && (NoneAccepts(s.filters, c) ==> calls == [Unhandled(c)] && t == s)
      && (calls == [Unhandled(c)] ==> NoneAccepts(s.filters, c))
  {
    var c := StatusIn(s, e);
    FindsFirst(s.filters, i, c);
    assert Next(s, e) == GetStatus(s, c);
  }

  /** Nothing but a status calls a filter's handler; and filters come and go otherwise only by being added
      and by a stop. */
  lemma OthersLeaveFilters(s: State, e: Event)
    requires Enabled(s, e) && !IsStatus(e)
    ensures var (t, calls) := Next(s, e);
      && (forall i | 0 <= i < |calls| :: !calls[i].Status?)
      && t.filters == if Clears(s, e) then [] else s.filters + AddedBy(e)
  {
    assert s.filters + [] == s.filters;
  }

  /** The filter an event adds. */
  function AddedBy(e: Event): seq<FilterRecord> {
    if e.AddsFilter? && e.room then [FilterRecord(e.filter, e.handler)] else []
  }

  function Added(events: seq<Event>): seq<FilterRecord> {
    FlatMap(AddedBy, events)
  }

  // --- Lasting filters stay ---

  function LastingOf(r: FilterRecord): seq<FilterRecord> {
    if r.filter.oneTime then [] else [r]
  }

  function Lasting(filters: seq<FilterRecord>): seq<FilterRecord> {
    FlatMap(LastingOf, filters)
  }

  ghost predicate NoClear(s: State, events: seq<Event>)
    requires Possible(s, events)
    decreases events
  {
    events == [] || (!Clears(s, events[0]) && NoClear(Next(s, events[0]).0, events[1..]))
  }

  lemma FlatMapErase<X, Y>(f: X -> seq<Y>, xs: seq<X>, i: nat)
    requires i < |xs| && f(xs[i]) == []
    ensures FlatMap(f, Erase(xs, i)) == FlatMap(f, xs)
  {
    var before, rest := xs[..i], xs[i + 1..];
    assert xs == before + ([xs[i]] + rest);
    FlatMapAppend(f, before, [xs[i]] + rest);
    FlatMapAppend(f, [xs[i]], rest);
    FlatMapOne(f, xs[i]);
    FlatMapAppend(f, before, rest);
    assert [] + FlatMap(f, rest) == FlatMap(f, rest);
  }

  lemma StepKeepsLasting(s: State, e: Event)
    requires Enabled(s, e) && !Clears(s, e)
    ensures Lasting(Next(s, e).0.filters) == Lasting(s.filters) + Lasting(AddedBy(e))
  {
    if IsStatus(e) {
      var i := FindFilter(s.filters, StatusIn(s, e));
      if i < |s.filters| && s.filters[i].filter.oneTime { FlatMapErase(LastingOf, s.filters, i); }
      assert Lasting(s.filters) + [] == Lasting(s.filters);
    } else {
      OthersLeaveFilters(s, e);
      FlatMapAppend(LastingOf, s.filters, AddedBy(e));
    }
  }

  /** Until the next stop a filter that is not one-time stays, in its place among the others. */
  lemma {:induction false} LastingStay(s: State, events: seq<Event>)
    requires Possible(s, events) && NoClear(s, events)
    ensures Lasting(End(s, events).filters) == Lasting(s.filters) + Lasting(Added(events))
    decreases events
  {
    if events == [] {
      assert Lasting(s.filters) + [] == Lasting(s.filters);
    } else {
      var e, rest := events[0], events[1..];
      StepKeepsLasting(s, e);
      LastingStay(Next(s, e).0, rest);
      FlatMapAppend(LastingOf, AddedBy(e), Added(rest));
      Regroup(Lasting(s.filters), Lasting(AddedBy(e)), Lasting(Added(rest)));
    }
  }

  // --- One-time filters are used up ---

  function OneTimeOf(handler: nat): FilterRecord -> bool {
    (r: FilterRecord) => r.handler == handler && r.filter.oneTime
  }

  function CallsOf(handler: nat): Call -> bool {
    (c: Call) => c.Status? && c.filterHandler == handler
  }

  /** How many one-time filters with this handler there are. */
  function Waits(handler: nat, filters: seq<FilterRecord>): nat {
    Count(OneTimeOf(handler), filters)
  }

  function StatusCalls(handler: nat, calls: seq<Call>): nat {
    Count(CallsOf(handler), calls)
  }

  /** The one-time filters given up by a stop or a restart. */
  function FiltersDropped(handler: nat, s: State, events: seq<Event>): nat
    requires Possible(s, events)
    decreases events
  {
    if events == [] then 0 else
    (if Clears(s, events[0]) then Waits(handler, s.filters) else 0) +
    FiltersDropped(handler, Next(s, events[0]).0, events[1..])
  }

  /** All filters with this handler are one-time. */
  predicate OnlyOneTime(handler: nat, filters: seq<FilterRecord>) {
    forall i | 0 <= i < |filters| && filters[i].handler == handler :: filters[i].filter.oneTime
  }

  lemma ErasedOneTime(handler: nat, filters: seq<FilterRecord>, i: nat)
    requires OnlyOneTime(handler, filters) && i < |filters|
    ensures OnlyOneTime(handler, Erase(filters, i))
    ensures Waits(handler, filters) == Waits(handler, Erase(filters, i)) + (if OneTimeOf(handler)(filters[i]) then 1 else 0)
  {
    CountErased(OneTimeOf(handler), filters, i);
    var left := Erase(filters, i);
    assert forall j | 0 <= j < |left| :: left[j] == filters[if j < i then j else j + 1];
  }

  lemma NoStatusCalls(handler: nat, calls: seq<Call>)
    requires forall i | 0 <= i < |calls| :: !calls[i].Status?
    ensures StatusCalls(handler, calls) == 0
  {
    CountPositive(CallsOf(handler), calls);
  }

  lemma StepUsesUp(handler: nat, s: State, e: Event)
    requires Enabled(s, e) && OnlyOneTime(handler, s.filters) && OnlyOneTime(handler, AddedBy(e))
    ensures var (t, calls) := Next(s, e);
      && OnlyOneTime(handler, t.filters)
      && Waits(handler, s.filters) + Waits(handler, AddedBy(e)) ==
         Waits(handler, t.filters) + StatusCalls(handler, calls) + (if Clears(s, e) then Waits(handler, s.filters) else 0)
  {
    var (t, calls) := Next(s, e);
    if IsStatus(e) {
      var c := StatusIn(s, e);
      var i := FindFilter(s.filters, c);
      StatusGoesToFirst(s, e, i);
      CountOne(CallsOf(handler), calls[0]);
      if i < |s.filters| { ErasedOneTime(handler, s.filters, i); }
    } else {
      OthersLeaveFilters(s, e);
      NoStatusCalls(handler, calls);
      CountAppend(OneTimeOf(handler), s.filters, AddedBy(e));
    }
  }

  /** Over any run a one-time filter is waiting, has had its handler called once, or was given up by a stop. */
  lemma {:induction false} OneTimeConserved(handler: nat, s: State, events: seq<Event>)
    requires Possible(s, events) && OnlyOneTime(handler, s.filters) && OnlyOneTime(handler, Added(events))
    ensures Waits(handler, s.filters) + Waits(handler, Added(events)) ==
            Waits(handler, End(s, events).filters) + StatusCalls(handler, Calls(s, events)) + FiltersDropped(handler, s, events)
    decreases events
  {
    if events != [] {
      var e, rest, next := events[0], events[1..], Next(s, events[0]);
      AddedSplit(handler, e, rest, events);
      StepUsesUp(handler, s, e);
      OneTimeConserved(handler, next.0, rest);
      CountAppend(CallsOf(handler), next.1, Calls(next.0, rest));
    }
  }

  lemma AddedSplit(handler: nat, e: Event, rest: seq<Event>, events: seq<Event>)
    requires events != [] && e == events[0] && rest == events[1..] && OnlyOneTime(handler, Added(events))
    ensures OnlyOneTime(handler, AddedBy(e)) && OnlyOneTime(handler, Added(rest))
    ensures Waits(handler, Added(events)) == Waits(handler, AddedBy(e)) + Waits(handler, Added(rest))
  {
    var all := Added(events);
    assert all == AddedBy(e) + Added(rest);
    assert forall i | 0 <= i < |AddedBy(e)| :: AddedBy(e)[i] == all[i];
    assert forall i | 0 <= i < |Added(rest)| :: Added(rest)[i] == all[|AddedBy(e)| + i];
    CountAppend(OneTimeOf(handler), AddedBy(e), Added(rest));
  }

  /** The handler of a one-time filter is called at most once. */
  lemma OneTimeCalledOnce(handler: nat, events: seq<Event>)
    requires Possible(INITIAL, events) && OnlyOneTime(handler, Added(events)) && Waits(handler, Added(events)) <= 1
    ensures StatusCalls(handler, Calls(INITIAL, events)) <= 1
  {
    OneTimeConserved(handler, INITIAL, events);
  }
}
