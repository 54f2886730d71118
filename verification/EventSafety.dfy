/** What every interleaving of enqueues, invalidations and loop steps keeps: handlers are dealt with once
    each and in order, and one is started if and only if its scope was not invalidated in the meantime
    (deephome/common/source/util/EventLoop.cpp:54-106, deephome/common/include/util/EventLoop.h:22-120). */
module EventSafety {
  import opened Sequences
  import opened EventLoops

  function HandlersOf<S>(queue: seq<Entry<S>>): (handlers: seq<nat>)
    ensures |handlers| == |queue| && forall i | 0 <= i < |queue| :: handlers[i] == queue[i].handler
  {
    seq(|queue|, i requires 0 <= i < |queue| => queue[i].handler)
  }

  function InHand<S>(phase: Phase<S>): seq<nat> {
    if phase.Taken? then [phase.entry.handler] else []
  }

  /** A pending entry is in the history, and its scope holds the counter's value of that time. */
  ghost predicate Tracked<S>(s: State<S>, e: Entry<S>) {
    && e.handler < |s.log| && s.log[e.handler] == Enqueued(e.scope)
    && (e.scope.Scoped? ==>
          e.scope.counter in s.counters && e.scope.valid == Invalidations(s.log[..e.handler], e.scope.counter))
  }

  /** Started handlers were still wanted, skipped ones were not. */
  ghost predicate Rightly<S>(log: seq<Log<S>>, j: nat)
    requires j < |log|
  {
    log[j].Started? || log[j].Skipped? ==> (
      && log[j].handler < j && log[log[j].handler].Enqueued?
      && (log[j].Started? <==> StillWanted(log, log[j].handler, j)))
  }

  ghost predicate Inv<S>(s: State<S>) {
    && (forall i | 0 <= i < |s.queue| :: Tracked(s, s.queue[i]))
    && (s.phase.Taken? ==> Tracked(s, s.phase.entry))
    && (forall c | c in s.counters :: s.counters[c] == Invalidations(s.log, c))
    && (forall j | 0 <= j < |s.log| && s.log[j].Invalidated? :: s.log[j].counter in s.counters)
    && Handled(s.log) + InHand(s.phase) + HandlersOf(s.queue) == EnqueuedAt(s.log)
    && (forall j | 0 <= j < |s.log| :: Rightly(s.log, j))
  }

  // --- Counting invalidations ---

  lemma Longer<S>(log: seq<Log<S>>, x: Log<S>)
    ensures (log + [x])[..|log|] == log
    ensures forall k | 0 <= k <= |log| :: (log + [x])[..k] == log[..k]
  {
  }

  lemma {:induction false} NeverInvalidated<S>(log: seq<Log<S>>, c: S)
    requires forall j | 0 <= j < |log| :: log[j] != Invalidated(c)
    ensures Invalidations(log, c) == 0
    decreases |log|
  {
    if log != [] { NeverInvalidated(log[..|log| - 1], c); }
  }

  /** The count has not moved since place `i` exactly when there was no invalidation since. */
  lemma {:induction false} CountStands<S>(log: seq<Log<S>>, c: S, i: nat)
    requires i <= |log|
    ensures Invalidations(log[..i], c) <= Invalidations(log, c)
    ensures Invalidations(log[..i], c) == Invalidations(log, c) <==> forall k | i <= k < |log| :: log[k] != Invalidated(c)
    decreases |log|
  {
    if i < |log| {
      var n := |log| - 1;
      CountStands(log[..n], c, i);
      assert log[..n][..i] == log[..i];
      assert forall k | i <= k < n :: log[..n][k] == log[k];
    } else {
      assert log[..i] == log;
    }
  }

  /** The validity test is right. */
  lemma ValidityIsRight<S>(s: State<S>, e: Entry<S>)
    requires Tracked(s, e) && forall c | c in s.counters :: s.counters[c] == Invalidations(s.log, c)
    ensures IsValid(s, e.scope) <==> StillWanted(s.log, e.handler, |s.log|)
  {
    if e.scope.Scoped? { CountStands(s.log, e.scope.counter, e.handler); }
  }

  // --- Every step keeps the invariant ---

  lemma TrackedOn<S>(s: State<S>, t: State<S>, x: Log<S>, e: Entry<S>)
    requires Tracked(s, e) && t.log == s.log + [x] && s.counters.Keys <= t.counters.Keys
    ensures Tracked(t, e)
  {
    Longer(s.log, x);
  }

  lemma RightlyOn<S>(log: seq<Log<S>>, x: Log<S>, j: nat)
    requires j < |log| && Rightly(log, j)
    ensures Rightly(log + [x], j)
  {
    var more := log + [x];
    assert forall k | 0 <= k <= j :: more[k] == log[k];
    if (log[j].Started? || log[j].Skipped?) && log[log[j].handler].scope.Scoped? {
      var h := log[j].handler;
      assert more[h] == log[h];
    }
  }

  /** Everything but the new entry of the history. */
  lemma LogGrows<S>(s: State<S>, t: State<S>, x: Log<S>)
    requires Inv(s) && t.log == s.log + [x] && s.counters.Keys <= t.counters.Keys
    ensures forall e | Tracked(s, e) :: Tracked(t, e)
    ensures forall j | 0 <= j < |s.log| :: Rightly(t.log, j)
    ensures t.log[..|s.log|] == s.log
  {
    Longer(s.log, x);
    forall e | Tracked(s, e)
      ensures Tracked(t, e)
    {
      TrackedOn(s, t, x, e);
    }
    forall j | 0 <= j < |s.log|
      ensures Rightly(t.log, j)
    {
      RightlyOn(s.log, x, j);
    }
  }

  lemma EnqueueKeeps<S>(s: State<S>, scope: Scope<S>)
    requires Inv(s)
    requires scope.Scoped? ==> scope.counter in s.counters && scope.valid == s.counters[scope.counter]
    ensures Inv(Enqueue(s, scope))
  {
    var t, x := Enqueue(s, scope), Enqueued(scope);
    LogGrows(s, t, x);
    var pending := Handled(s.log) + InHand(s.phase);
    assert HandlersOf(t.queue) == HandlersOf(s.queue) + [|s.log|];
    assert pending + HandlersOf(s.queue) + [|s.log|] == pending + (HandlersOf(s.queue) + [|s.log|]);
    assert Handled(t.log) == Handled(s.log) by { assert Handled(s.log) + [] == Handled(s.log); }
    assert EnqueuedAt(t.log) == EnqueuedAt(s.log) + [|s.log|];
    assert Tracked(t, Entry(|s.log|, scope));
  }

  lemma InvalidateKeeps<S>(s: State<S>, c: S)
    requires Inv(s) && c in s.counters
    ensures Inv(Next(s, Invalidates(c)))
  {
    var t := Next(s, Invalidates(c));
    LogGrows(s, t, Invalidated(c));
    assert Handled(t.log) == Handled(s.log) by { assert Handled(s.log) + [] == Handled(s.log); }
    assert EnqueuedAt(t.log) == EnqueuedAt(s.log) by { assert EnqueuedAt(s.log) + [] == EnqueuedAt(s.log); }
  }

  lemma TakeRegroups(done: seq<nat>, next: nat, rest: seq<nat>)
    ensures done + [] + ([next] + rest) == done + [next] + rest
  {
  }

  lemma TakeKeeps<S>(s: State<S>)
    requires Inv(s) && s.phase.Idle? && s.queue != []
    ensures Inv(Next(s, Takes))
  {
    var t := Next(s, Takes);
    assert HandlersOf(s.queue) == [s.queue[0].handler] + HandlersOf(t.queue);
    TakeRegroups(Handled(s.log), s.queue[0].handler, HandlersOf(t.queue));
  }

  lemma CheckIsRight<S>(s: State<S>)
    requires Inv(s) && s.phase.Taken?
    ensures var t := Next(s, Checks);
      |t.log| == |s.log| + 1 && Rightly(t.log, |s.log|)
  {
    var t, e := Next(s, Checks), s.phase.entry;
    Longer(s.log, t.log[|s.log|]);
    ValidityIsRight(s, e);
    assert StillWanted(t.log, e.handler, |s.log|) == StillWanted(s.log, e.handler, |s.log|);
  }

  lemma CheckHandles<S>(s: State<S>)
    requires Inv(s) && s.phase.Taken?
    ensures var t := Next(s, Checks);
      Handled(t.log) + InHand(t.phase) + HandlersOf(t.queue) == EnqueuedAt(t.log)
  {
    var t, e := Next(s, Checks), s.phase.entry;
    Longer(s.log, t.log[|s.log|]);
    assert Handled(t.log) == Handled(s.log) + [e.handler];
    assert Handled(t.log) + [] == Handled(s.log) + [e.handler];
    assert EnqueuedAt(t.log) == EnqueuedAt(s.log) by { assert EnqueuedAt(s.log) + [] == EnqueuedAt(s.log); }
  }

  lemma CheckKeeps<S>(s: State<S>)
    requires Inv(s) && s.phase.Taken?
    ensures Inv(Next(s, Checks))
  {
    var t := Next(s, Checks);
    LogGrows(s, t, t.log[|s.log|]);
    CheckIsRight(s);
    CheckHandles(s);
  }

  lemma CreateKeeps<S>(s: State<S>, c: S)
    requires Inv(s) && c !in s.counters
    ensures Inv(Next(s, Creates(c)))
  {
    NeverInvalidated(s.log, c);
  }

  lemma StepKeepsInv<S>(s: State<S>, e: Event<S>)
    requires Inv(s) && Enabled(s, e)
    ensures Inv(Next(s, e))
  {
    match e
    case Creates(c) => CreateKeeps(s, c);
    case Enqueues => EnqueueKeeps(s, Unscoped);
    case EnqueuesIn(c) => EnqueueKeeps(s, Scoped(c, s.counters[c]));
    case Invalidates(c) => InvalidateKeeps(s, c);
    case Takes => TakeKeeps(s);
    case Checks => CheckKeeps(s);
    case Finishes =>
  }

  lemma {:induction false} RunKeepsInv<S>(s: State<S>, events: seq<Event<S>>)
    requires Inv(s) && Possible(s, events)
    ensures Inv(End(s, events))
    decreases events
  {
    if events != [] {
      StepKeepsInv(s, events[0]);
      RunKeepsInv(Next(s, events[0]), events[1..]);
    }
  }

  /** In every run: handlers are started or skipped in the order of their enqueueing, each at most once;
      those that are not are still pending; and a handler is started if its scope was not invalidated
      after it was enqueued, and skipped if it was. */
  lemma EventsAreSafe<S>(events: seq<Event<S>>)
    requires Possible(Initial<S>(), events)
    ensures var t := End(Initial<S>(), events);
      && Handled(t.log) + InHand(t.phase) + HandlersOf(t.queue) == EnqueuedAt(t.log)
      && (forall i, j | 0 <= i < j < |Handled(t.log)| :: Handled(t.log)[i] < Handled(t.log)[j])
      && (forall j | 0 <= j < |t.log| :: Rightly(t.log, j))
  {
    RunKeepsInv(Initial<S>(), events);
    var t := End(Initial<S>(), events);
    assert forall i | 0 <= i < |Handled(t.log)| :: Handled(t.log)[i] == EnqueuedAt(t.log)[i];
  }

  // --- What the events alone tell ---

  /** What an event adds to the history. */
  function LogOf<S(==)>(s: State<S>, e: Event<S>): seq<Log<S>>
    requires Enabled(s, e)
  {
    match e
    case Enqueues => [Enqueued(Unscoped)]
    case EnqueuesIn(c) => [Enqueued(Scoped(c, s.counters[c]))]
    case Invalidates(c) => [Invalidated(c)]
    case Checks => [if IsValid(s, s.phase.entry.scope) then Started(s.phase.entry.handler) else Skipped(s.phase.entry.handler)]
    case _ => []
  }

  lemma StepLogs<S>(s: State<S>, e: Event<S>)
    requires Enabled(s, e)
    ensures Next(s, e).log == s.log + LogOf(s, e)
  {
    assert s.log + [] == s.log;
  }

  predicate IsEnqueue<S>(e: Event<S>) {
    e.Enqueues? || e.EnqueuesIn?
  }

  lemma OneLogged<S>(log: seq<Log<S>>, x: Log<S>, c: S)
    ensures |EnqueuedAt(log + [x])| == |EnqueuedAt(log)| + if x.Enqueued? then 1 else 0
    ensures |Handled(log + [x])| == |Handled(log)| + if x.Started? || x.Skipped? then 1 else 0
    ensures Invalidations(log + [x], c) == Invalidations(log, c) + if x == Invalidated(c) then 1 else 0
  {
    assert (log + [x])[..|log|] == log;
  }

  /** Over every run each event that enqueues adds one handler, each check deals with one, and each
      invalidation is one of its counter. */
  lemma {:induction false} RunCounts<S>(s: State<S>, events: seq<Event<S>>, c: S)
    requires Possible(s, events)
    ensures var t := End(s, events);
      && |EnqueuedAt(t.log)| == |EnqueuedAt(s.log)| + Count((e: Event<S>) => IsEnqueue(e), events)
      && |Handled(t.log)| == |Handled(s.log)| + Count((e: Event<S>) => e.Checks?, events)
      && Invalidations(t.log, c) == Invalidations(s.log, c) + Count((e: Event<S>) => e == Invalidates(c), events)
    decreases events
  {
    if events != [] {
      var e, next := events[0], Next(s, events[0]);
      StepLogs(s, e);
      if LogOf(s, e) == [] {
        assert s.log + [] == s.log;
      } else {
        OneLogged(s.log, LogOf(s, e)[0], c);
        assert LogOf(s, e) == [LogOf(s, e)[0]];
      }
      RunCounts(next, events[1..], c);
    }
  }
}
