/** The event queue with scopes (deephome/common/source/util/EventLoop.cpp:54-106,
    deephome/common/include/util/EventLoop.h:22-120): a queue under a lock, emptied by one thread, whose
    entries die when the counter of their scope moves on. */
module EventLoops {

  /** An EventScope: a shared counter and the value it had. */
  datatype Scope<S> = Unscoped | Scoped(counter: S, valid: int)

  /** A queued handler is named by its place in the history. */
  datatype Entry<S> = Entry(handler: nat, scope: Scope<S>)

  datatype Log<S> = Enqueued(scope: Scope<S>) | Invalidated(counter: S) | Started(handler: nat) | Skipped(handler: nat)

  /** Where the loop's thread is in handle_events: with no event in hand, with one taken off the queue but
      not checked, or inside a handler. */
  datatype Phase<S> = Idle | Taken(entry: Entry<S>) | Running(entry: Entry<S>)

  datatype State<S> = State(counters: map<S, int>, queue: seq<Entry<S>>, phase: Phase<S>, log: seq<Log<S>>)

  function Initial<S>(): State<S> {
    State(map[], [], Idle, [])
  }

  // --- Steps. Any thread may enqueue and invalidate between any two steps of the loop. ---

  datatype Event<S> = Creates(counter: S) | Enqueues | EnqueuesIn(counter: S) | Invalidates(counter: S) | Takes | Checks | Finishes

  predicate Enabled<S(==)>(s: State<S>, e: Event<S>) {
    match e
    case Creates(c) => c !in s.counters
    case Enqueues => true
    case EnqueuesIn(c) => c in s.counters
    case Invalidates(c) => c in s.counters
    case Takes => s.phase.Idle? && s.queue != []
    case Checks => s.phase.Taken?
    case Finishes => s.phase.Running?
  }

  predicate IsValid<S(==)>(s: State<S>, scope: Scope<S>) {
    scope.Unscoped? || (scope.counter in s.counters && s.counters[scope.counter] == scope.valid)
  }

  function Enqueue<S>(s: State<S>, scope: Scope<S>): State<S> {
    s.(queue := s.queue + [Entry(|s.log|, scope)], log := s.log + [Enqueued(scope)])
  }

  function Next<S(==)>(s: State<S>, e: Event<S>): State<S>
    requires Enabled(s, e)
  {
    match e
    case Creates(c) => s.(counters := s.counters[c := 0])
    case Enqueues => Enqueue(s, Unscoped)
    case EnqueuesIn(c) => Enqueue(s, Scoped(c, s.counters[c]))
    case Invalidates(c) => s.(counters := s.counters[c := s.counters[c] + 1], log := s.log + [Invalidated(c)])
    case Takes => s.(queue := s.queue[1..], phase := Taken(s.queue[0]))
    case Checks =>
      var entry := s.phase.entry;
      if IsValid(s, entry.scope) then s.(phase := Running(entry), log := s.log + [Started(entry.handler)])
      else s.(phase := Idle, log := s.log + [Skipped(entry.handler)])
    case Finishes => s.(phase := Idle)
  }

  predicate Possible<S(==)>(s: State<S>, events: seq<Event<S>>)
    decreases events
  {
    events == [] || (Enabled(s, events[0]) && Possible(Next(s, events[0]), events[1..]))
  }

  function End<S(==)>(s: State<S>, events: seq<Event<S>>): State<S>
    requires Possible(s, events)
    decreases events
  {
    if events == [] then s else End(Next(s, events[0]), events[1..])
  }

  // --- The objects ---

  /** What becomes of queued entries that nothing interferes with. */
  function Outcomes<S(==)>(s: State<S>, queue: seq<Entry<S>>): (log: seq<Log<S>>)
    ensures |log| == |queue|
  {
    seq(|queue|, i requires 0 <= i < |queue| =>
      if IsValid(s, queue[i].scope) then Started(queue[i].handler) else Skipped(queue[i].handler))
  }

  class Counter {
    var value: int

    constructor ()
      ensures value == 0
    {
      value := 0;
    }
  }

  class EventLoop {
    var queue: seq<Entry<Counter>>
    var phase: Phase<Counter>
    ghost var counters: set<Counter>
    ghost var log: seq<Log<Counter>>

    ghost function View(): State<Counter>
      reads this, counters
    {
      State(map c | c in counters :: c.value, queue, phase, log)
    }

    constructor ()
      ensures View() == Initial() && fresh(counters)
    {
      queue, phase, counters, log := [], Idle, {}, [];
    }

    /** `handler` is the name the model gives to the handler. */
    method Push(handler: nat, scope: Scope<Counter>)
      requires handler == |log|
      modifies `queue, `log
      ensures View() == Enqueue(old(View()), scope)
    {
      queue := queue + [Entry(handler, scope)];
      log := log + [Enqueued(scope)];
    }

    /** The part of handle_events that holds the lock. */
    method Take()
      requires phase.Idle? && queue != []
      modifies `queue, `phase
      ensures View() == Next(old(View()), Takes)
    {
      phase := Taken(queue[0]);
      queue := queue[1..];
    }

    /** The test of EventScope::valid, and the start of the handler. */
    method Check() returns (run: bool)
      requires phase.Taken? && (phase.entry.scope.Scoped? ==> phase.entry.scope.counter in counters)
      modifies `phase, `log
      ensures run == IsValid(old(View()), old(phase.entry.scope)) && View() == Next(old(View()), Checks)
    {
      var scope := phase.entry.scope;
      run := scope.Unscoped? || scope.counter.value == scope.valid;
      if run {
        log := log + [Started(phase.entry.handler)];
        phase := Running(phase.entry);
      } else {
        log := log + [Skipped(phase.entry.handler)];
        phase := Idle;
      }
    }

    method Finish()
      requires phase.Running?
      modifies `phase
      ensures View() == Next(old(View()), Finishes)
    {
      phase := Idle;
    }

    /** handle_events while neither the handlers nor other threads touch the queue. */
    method HandleEvents()
      requires phase.Idle?
      requires forall i | 0 <= i < |queue| && queue[i].scope.Scoped? :: queue[i].scope.counter in counters
      modifies `queue, `phase, `log
      ensures queue == [] && phase.Idle? && View().counters == old(View()).counters
      ensures log == old(log) + Outcomes(old(View()), old(queue))
    {
      ghost var start, all, done := View(), queue, 0;
      while queue != []
        invariant 0 <= done <= |all| && queue == all[done..] && phase.Idle?
        invariant View().counters == start.counters
        invariant log == old(log) + Outcomes(start, all)[..done]
        decreases |queue|
      {
        Take();
        var run := Check();
        if run {
          Finish();
        }
        assert Outcomes(start, all)[..done + 1] == Outcomes(start, all)[..done] + [Outcomes(start, all)[done]];
        done := done + 1;
      }
    }
  }

  class ScopedEventLoop {
    const loop: EventLoop
    const counter: Counter

    constructor (loop: EventLoop)
      modifies loop`counters
      ensures this.loop == loop && fresh(counter)
      ensures loop.View() == Next(old(loop.View()), Creates(counter))
    {
      this.loop := loop;
      counter := new Counter();
      new;
      loop.counters := loop.counters + {counter};
      assert loop.View().counters == old(loop.View()).counters[counter := 0];
    }

    method Enqueue(handler: nat)
      requires handler == |loop.log| && counter in loop.counters
      modifies loop`queue, loop`log
      ensures loop.View() == Next(old(loop.View()), EnqueuesIn(counter))
    {
      loop.Push(handler, Scoped(counter, counter.value));
    }

    method Invalidate()
      requires counter in loop.counters
      modifies counter, loop`log
      ensures loop.View() == Next(old(loop.View()), Invalidates(counter))
    {
      counter.value := counter.value + 1;
      loop.log := loop.log + [Invalidated(counter)];
      assert loop.View().counters == old(loop.View()).counters[counter := counter.value];
    }
  }

  // --- What the history tells ---

  /** The places where something was enqueued. */
  function EnqueuedAt<S>(log: seq<Log<S>>): (at: seq<nat>)
    ensures forall k | 0 <= k < |at| :: at[k] < |log| && log[at[k]].Enqueued?
    ensures forall j, k | 0 <= j < k < |at| :: at[j] < at[k]
    decreases |log|
  {
    if log == [] then [] else
    var n := |log| - 1;
    EnqueuedAt(log[..n]) + (if log[n].Enqueued? then [n] else [])
  }

  /** The handlers the loop has started or skipped, in this order. */
  function Handled<S>(log: seq<Log<S>>): seq<nat>
    decreases |log|
  {
    if log == [] then [] else
    var n := |log| - 1;
    Handled(log[..n]) + (if log[n].Started? || log[n].Skipped? then [log[n].handler] else [])
  }

  function Invalidations<S(==)>(log: seq<Log<S>>, counter: S): nat
    decreases |log|
  {
    if log == [] then 0 else
    var n := |log| - 1;
    Invalidations(log[..n], counter) + (if log[n] == Invalidated(counter) then 1 else 0)
  }

  /** No invalidation of the handler's scope lies between its enqueueing and the place `j`. */
  ghost predicate StillWanted<S>(log: seq<Log<S>>, handler: nat, j: nat)
    requires handler < j <= |log| && log[handler].Enqueued?
  {
    log[handler].scope.Scoped? ==> forall k | handler < k < j :: log[k] != Invalidated(log[handler].scope.counter)
  }
}
