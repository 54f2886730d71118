/** The order in which the router's send queue is emptied, and when it is not
    (deephome/router/Router.cpp:43-74,507-558). */
module RouterSchedule {
  import opened Messages
  import opened Router
  import opened RouterRuns
  import opened RouterLedger

  // --- The queue is a FIFO, emptied by one record a tick ---

  /** The record an event takes out of the send queue. */
  function TakenBy(s: State, e: Event): seq<SendRecord> {
    if e.SendFires? && s.started && s.queue != [] then [s.queue[0]] else []
  }

  ghost function Enqueued(setup: Setup, s: State, events: seq<Event>): seq<SendRecord>
    requires Inv(setup, s) && Possible(setup, s, events)
    decreases events
  {
    if events == [] then [] else
    StepKeepsInv(setup, s, events[0]);
    EnqueuedBy(setup, s, events[0]) + Enqueued(setup, Next(setup, s, events[0]).0, events[1..])
  }

  ghost function Taken(setup: Setup, s: State, events: seq<Event>): seq<SendRecord>
    requires Inv(setup, s) && Possible(setup, s, events)
    decreases events
  {
    if events == [] then [] else
    StepKeepsInv(setup, s, events[0]);
    TakenBy(s, events[0]) + Taken(setup, Next(setup, s, events[0]).0, events[1..])
  }

  function Ticks(events: seq<Event>): nat
    decreases events
  {
    if events == [] then 0 else (if events[0].SendFires? then 1 else 0) + Ticks(events[1..])
  }

  lemma StepQueue(setup: Setup, s: State, e: Event)
    requires Inv(setup, s) && Enabled(setup, s, e)
    ensures s.queue + EnqueuedBy(setup, s, e) == TakenBy(s, e) + Next(setup, s, e).0.queue
    ensures |TakenBy(s, e)| == if e.SendFires? then 1 else 0
  {
    match e
    case ClientSends(c, command, space) => CommandQueue(setup, s, c, command, space);
    case SendFires(room) => TickQueue(setup, s, room);
    case _ => QueueStays(setup, s, e);
  }

  lemma TickQueue(setup: Setup, s: State, room: bool)
    requires Inv(setup, s) && Enabled(setup, s, SendFires(room))
    ensures s.queue == [s.queue[0]] + Next(setup, s, SendFires(room)).0.queue
  {
  }

  lemma QueueStays(setup: Setup, s: State, e: Event)
    requires Inv(setup, s) && Enabled(setup, s, e) && !e.ClientSends? && !e.SendFires?
    ensures Next(setup, s, e).0.queue == s.queue
  {
  }

  /** Records leave in the order in which they were accepted, one for every tick. */
  lemma {:induction false} QueueIsFifo(setup: Setup, s: State, events: seq<Event>)
    requires Inv(setup, s) && Possible(setup, s, events)
    ensures s.queue + Enqueued(setup, s, events) == Taken(setup, s, events) + End(setup, s, events).queue
    ensures |Taken(setup, s, events)| == Ticks(events)
    decreases events
  {
    if events == [] {
      assert s.queue + [] == [] + s.queue;
    } else {
      var next, e := Next(setup, s, events[0]).0, events[0];
      StepKeepsInv(setup, s, e);
      StepQueue(setup, s, e);
      QueueIsFifo(setup, next, events[1..]);
      RegroupRuns(s.queue, EnqueuedBy(setup, s, e), TakenBy(s, e), next.queue,
              Enqueued(setup, next, events[1..]), Taken(setup, next, events[1..]), End(setup, next, events[1..]).queue);
    }
  }

  lemma RegroupRuns<T>(q: seq<T>, e: seq<T>, t: seq<T>, q1: seq<T>, e1: seq<T>, t1: seq<T>, q2: seq<T>)
    requires q + e == t + q1 && q1 + e1 == t1 + q2
    ensures q + (e + e1) == t + t1 + q2
  {
    assert q + (e + e1) == q + e + e1 == t + q1 + e1 == t + (q1 + e1) == t + t1 + q2;
  }

  /** What is at place `k` of the queue is taken on tick k + 1, and until then it is still there. */
  ghost predicate OnTime<T>(queue: seq<T>, taken: seq<T>, left: seq<T>, ticks: nat, k: nat)
    requires k < |queue|
  {
    && |taken| == ticks
    && (k < ticks ==> taken[k] == queue[k])
    && (k >= ticks ==> k - ticks < |left| && left[k - ticks] == queue[k])
  }

  lemma AtPlace<T>(queue: seq<T>, enqueued: seq<T>, taken: seq<T>, left: seq<T>, ticks: nat, k: nat)
    requires queue + enqueued == taken + left && |taken| == ticks && k < |queue|
    ensures OnTime(queue, taken, left, ticks, k)
  {
    assert (queue + enqueued)[k] == queue[k];
  }

  /** A record with `k` ahead of it is what the (k + 1)-th tick takes, and it is in the queue before. */
  lemma LeavesAtItsTick(setup: Setup, s: State, events: seq<Event>, k: nat)
    requires Inv(setup, s) && Possible(setup, s, events) && k < |s.queue|
    ensures OnTime(s.queue, Taken(setup, s, events), End(setup, s, events).queue, Ticks(events), k)
  {
    QueueIsFifo(setup, s, events);
    AtPlace(s.queue, Enqueued(setup, s, events), Taken(setup, s, events), End(setup, s, events).queue, Ticks(events), k);
  }

  // --- The send timer ---

  /** The send timer runs exactly while there is something to send. */
  predicate Paced(s: State) {
    s.started ==> (s.sendTimer <==> s.queue != [])
  }

  /** Only a start that finds an old queue breaks the pace. */
  lemma StepKeepsPace(setup: Setup, s: State, e: Event)
    requires Inv(setup, s) && Enabled(setup, s, e) && Paced(s)
    ensures Paced(Next(setup, s, e).0) <==> !(e.Starts? && !s.started && s.queue != [])
  {
    match e
    case ClientSends(c, command, space) => CommandKeepsPace(setup, s, command, c, space);
    case SendFires(room) => TickKeepsPace(setup, s, room);
    case _ =>
  }

  lemma CommandKeepsPace(setup: Setup, s: State, c: Command, connection: nat, space: bool)
    requires Inv(setup, s) && Paced(s)
    ensures Paced(ConnectionCommand(setup, s, c, connection, space).0)
  {
  }

  lemma TickKeepsPace(setup: Setup, s: State, room: bool)
    requires Inv(setup, s) && Enabled(setup, s, SendFires(room)) && Paced(s)
    ensures Paced(Next(setup, s, SendFires(room)).0)
  {
  }

  predicate NoStop(events: seq<Event>) {
    forall i | 0 <= i < |events| :: !events[i].Stops?
  }

  /** Started and with a full queue, but without a timer. */
  predicate Stalled(s: State) {
    s.started && !s.sendTimer && s.queue != []
  }

  /** From a start on an empty queue to the next stop the timer keeps pace. */
  lemma {:induction false} PacedUntilStop(setup: Setup, s: State, events: seq<Event>)
    requires Inv(setup, s) && Possible(setup, s, events) && Paced(s) && NoStop(events)
    requires !s.started ==> s.queue == []
    ensures Paced(End(setup, s, events))
    decreases events
  {
    if events != [] {
      assert !events[0].Stops?;
      StepKeepsInv(setup, s, events[0]);
      StepKeepsPace(setup, s, events[0]);
      PacedUntilStop(setup, Next(setup, s, events[0]).0, events[1..]);
    }
  }

  /** `stop` leaves the send queue as it is, so the next start stalls exactly when something was left. */
  lemma RestartStalls(setup: Setup, s: State, reach: seq<bool>)
    requires Inv(setup, s) && s.started && |reach| == |s.up|
    ensures Stalled(Start(Stop(s), reach)) <==> s.queue != []
  {
  }

  /** A stalled router takes commands and says "ok", but sends nothing until it is stopped. */
  lemma {:induction false} StalledSendsNothing(setup: Setup, s: State, events: seq<Event>)
    requires Inv(setup, s) && Possible(setup, s, events) && Stalled(s) && NoStop(events)
    ensures Stalled(End(setup, s, events)) && Taken(setup, s, events) == []
    decreases events
  {
    if events != [] {
      assert !events[0].Stops?;
      StepKeepsInv(setup, s, events[0]);
      StallGoesOn(setup, s, events[0]);
      StalledSendsNothing(setup, Next(setup, s, events[0]).0, events[1..]);
    }
  }

  lemma StallGoesOn(setup: Setup, s: State, e: Event)
    requires Inv(setup, s) && Enabled(setup, s, e) && Stalled(s) && !e.Stops?
    ensures Stalled(Next(setup, s, e).0) && TakenBy(s, e) == []
  {
  }
}
