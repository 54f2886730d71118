/** What repeated `search_rom` calls return (firmware/ti/onewire/Session.cpp:112-157): the walk of
    OneWire seen over a whole enumeration. */
module SearchEnumeration {
  import opened OneWire

  // --- Ascending order of codes: bit 0 is the most significant ---

  predicate BeforeAt(a: Rom, b: Rom, i: nat)
    requires i < ROM_BITS
  {
    a[..i] == b[..i] && !a[i] && b[i]
  }

  ghost predicate Before(a: Rom, b: Rom) {
    exists i: nat :: i < ROM_BITS && BeforeAt(a, b, i)
  }

  lemma {:induction false} FirstDifference(a: Rom, b: Rom, n: nat) returns (i: nat)
    requires a != b && n <= ROM_BITS && a[..n] == b[..n]
    ensures n <= i < ROM_BITS && a[..i] == b[..i] && a[i] != b[i]
    decreases ROM_BITS - n
  {
    assert a[..ROM_BITS] == a && b[..ROM_BITS] == b;
    if a[n] != b[n] {
      i := n;
    } else {
      assert a[..n + 1] == a[..n] + [a[n]] == b[..n + 1];
      i := FirstDifference(a, b, n + 1);
    }
  }

  lemma PrefixAgrees(a: Rom, b: Rom)
    ensures forall i, j {:trigger a[..i], a[j]} | 0 <= j < i <= ROM_BITS && a[..i] == b[..i] :: a[j] == b[j]
  {
    forall i, j {:trigger a[..i], a[j]} | 0 <= j < i <= ROM_BITS && a[..i] == b[..i]
      ensures a[j] == b[j]
    {
      assert a[j] == a[..i][j] && b[j] == b[..i][j];
    }
  }

  lemma BeforeStrict(a: Rom, b: Rom)
    requires Before(a, b)
    ensures !Before(b, a) && a != b
  {
    PrefixAgrees(a, b);
    PrefixAgrees(b, a);
    var i: nat :| i < ROM_BITS && BeforeAt(a, b, i);
    forall j: nat | j < ROM_BITS
      ensures !BeforeAt(b, a, j)
    {
    }
  }

  lemma BeforeTransitive(a: Rom, b: Rom, c: Rom)
    requires Before(a, b) && Before(b, c)
    ensures Before(a, c)
  {
    var i: nat :| i < ROM_BITS && BeforeAt(a, b, i);
    var j: nat :| j < ROM_BITS && BeforeAt(b, c, j);
    var k := if i < j then i else j;
    assert a[..k] == a[..i][..k] == b[..i][..k] == b[..k];
    assert b[..k] == b[..j][..k] == c[..j][..k] == c[..k];
    if i < j { assert b[..j][i] == c[..j][i]; }
    if j < i { assert a[..i][j] == b[..i][j]; }
    assert BeforeAt(a, c, k);
  }

  // --- One call ---

  lemma {:induction false} WalkFollows(codes: set<Rom>, context: Context, path: seq<bool>, i: nat)
    requires |path| <= i < ROM_BITS && Has(codes, path)
    ensures var id := Walk(codes, context, path); id[i] == Turn(codes, context, id[..i])
    decreases ROM_BITS - |path|
  {
    TurnKeeps(codes, context, path);
    var next := path + [Turn(codes, context, path)];
    if |path| == i {
      var id := Walk(codes, context, path);
      assert next <= id;
      assert id[..i] == path && id[i] == next[i];
    } else {
      WalkFollows(codes, context, next, i);
    }
  }

  /** Two codes that part at `i` make a collision there. */
  lemma Parting(codes: set<Rom>, a: Rom, b: Rom, i: nat)
    requires a in codes && b in codes && i < ROM_BITS && a[..i] == b[..i] && a[i] != b[i]
    ensures Collision(codes, a[..i])
  {
    assert a[..i] + [a[i]] <= a && b[..i] + [b[i]] <= b;
    assert Has(codes, a[..i] + [a[i]]) && Has(codes, a[..i] + [b[i]]);
    if a[i] {} else {}
  }

  /** Where the walk and another code part, the walk had the choice. */
  lemma WalkParts(codes: set<Rom>, context: Context, r: Rom, n: nat) returns (i: nat)
    requires r in codes && Has(codes, []) && n <= ROM_BITS
    requires var id := Walk(codes, context, []); r != id && r[..n] == id[..n]
    ensures var id := Walk(codes, context, []);
      n <= i < ROM_BITS && r[..i] == id[..i] && r[i] != id[i] && Collision(codes, id[..i]) &&
      id[i] == if i < context.fork then context.id[i] else i == context.fork
  {
    var id := Walk(codes, context, []);
    i := FirstDifference(id, r, n);
    Parting(codes, id, r, i);
    WalkFollows(codes, context, [], i);
  }

  lemma {:induction false} ForkBelowDeepest(codes: set<Rom>, path: seq<bool>, i: nat)
    requires i < |path| && Fork(codes, path, i)
    ensures i <= DeepestFork(codes, path)
  {
    var n := |path| - 1;
    if i < n && !Fork(codes, path, n) {
      assert path[..n][..i] == path[..i];
      ForkBelowDeepest(codes, path[..n], i);
    }
  }

  lemma {:induction false} DeepestIsFork(codes: set<Rom>, path: seq<bool>)
    ensures var fork := DeepestFork(codes, path); fork > 0 ==> Fork(codes, path, fork)
  {
    if path != [] {
      var n := |path| - 1;
      var fork := DeepestFork(codes, path);
      if fork < n {
        DeepestIsFork(codes, path[..n]);
        assert path[..n][..fork] == path[..fork];
      }
    }
  }

  /** A greater code parts from `id` at a fork of `id`. */
  lemma GreaterPartsAtFork(codes: set<Rom>, id: Rom, r: Rom, j: nat)
    requires id in codes && r in codes && j < ROM_BITS && BeforeAt(id, r, j)
    ensures Fork(codes, id, j) && j <= DeepestFork(codes, id)
    ensures j == 0 ==> Collision(codes, [])
  {
    assert id[..j] + [true] <= r;
    ForkBelowDeepest(codes, id, j);
    Parting(codes, id, r, j);
    if j == 0 { assert id[..0] == []; }
  }

  lemma {:induction false} SamePrefix(codes: set<Rom>, context: Context, k: nat)
    requires context.id in codes && k <= context.fork && k <= ROM_BITS && Has(codes, [])
    ensures Walk(codes, context, [])[..k] == context.id[..k]
  {
    if k > 0 {
      var id, old' := Walk(codes, context, []), context.id;
      SamePrefix(codes, context, k - 1);
      WalkFollows(codes, context, [], k - 1);
      if id[k - 1] != old'[k - 1] {
        Parting(codes, id, old', k - 1);
      }
      OneBitMore(id, old', k - 1);
    }
  }

  lemma OneBitMore(a: Rom, b: Rom, k: nat)
    requires k < ROM_BITS && a[..k] == b[..k] && a[k] == b[k]
    ensures a[..k + 1] == b[..k + 1]
  {
    assert a[..k + 1] == a[..k] + [a[k]];
    assert b[..k + 1] == b[..k] + [b[k]];
  }

  /** Index 0 doubles as "no fork": when codes differ in bit 0, the walk takes 1 there and never
      comes back, so only these codes are reached. */
  ghost function Reach(codes: set<Rom>): set<Rom> {
    if Collision(codes, []) then set r | r in codes && r[0] else codes
  }

  ghost predicate Least(codes: set<Rom>, id: Rom) {
    id in codes && forall r | r in codes && r != id :: Before(id, r)
  }

  ghost function Above(codes: set<Rom>, id: Rom): set<Rom> {
    set r | r in Reach(codes) && Before(id, r)
  }

  lemma ReachAgrees(codes: set<Rom>, a: Rom, b: Rom)
    requires a in Reach(codes) && b in Reach(codes)
    ensures a in codes && b in codes && a[0] == b[0]
  {
    if a[0] != b[0] {
      assert a[..0] == b[..0] == [];
      Parting(codes, a, b, 0);
    }
  }

  /** The first call finds the least reachable code, whatever `garbage` the context held. */
  lemma FirstCall(codes: set<Rom>, garbage: Rom)
    requires codes != {} && Has(codes, [])
    ensures Least(Reach(codes), Walk(codes, Context(garbage, 0, false), []))
  {
    var context := Context(garbage, 0, false);
    var id := Walk(codes, context, []);
    WalkFollows(codes, context, [], 0);
    assert id[..0] == [];
    assert id in Reach(codes);
    forall r | r in Reach(codes) && r != id
      ensures Before(id, r)
    {
      var i := WalkParts(codes, context, r, 0);
      ReachAgrees(codes, id, r);
      assert BeforeAt(id, r, i);
    }
  }

  /** `done` exactly on the greatest reachable code. */
  lemma DoneAtGreatest(codes: set<Rom>, id: Rom)
    requires id in Reach(codes) && Has(codes, [])
    ensures DeepestFork(codes, id) == 0 <==> Above(codes, id) == {}
  {
    if r :| r in Above(codes, id) {
      var j: nat :| j < ROM_BITS && BeforeAt(id, r, j);
      ReachAgrees(codes, id, r);
      GreaterPartsAtFork(codes, id, r, j);
    }
    if DeepestFork(codes, id) > 0 {
      NextCall(codes, Context(id, DeepestFork(codes, id), false));
    }
  }

  /** Every later call turns at the deepest fork and finds the least code above the last one. */
  lemma NextCall(codes: set<Rom>, context: Context)
    requires context.id in Reach(codes) && Has(codes, [])
    requires context.fork == DeepestFork(codes, context.id) > 0
    ensures Least(Above(codes, context.id), Walk(codes, context, []))
  {
    var old', id, fork := context.id, Walk(codes, context, []), context.fork;
    SamePrefix(codes, context, fork);
    DeepestIsFork(codes, old');
    assert old'[..fork] + [false] <= old';
    WalkFollows(codes, context, [], fork);
    assert Collision(codes, id[..fork]) && id[fork];
    assert BeforeAt(old', id, fork);
    assert id[0] == id[..fork][0] == old'[..fork][0] == old'[0];
    assert id in Above(codes, old');
    forall r | r in Above(codes, old') && r != id
      ensures Before(id, r)
    {
      NextCallLeast(codes, context, r);
    }
  }

  lemma TurnedPrefix(a: Rom, b: Rom, n: nat)
    requires n < ROM_BITS && a[..n] == b[..n] && a[n] == b[n]
    ensures a[..n + 1] == b[..n + 1]
  {
    assert a[..n + 1] == a[..n] + [a[n]] && b[..n + 1] == b[..n] + [b[n]];
  }

  lemma NextCallLeast(codes: set<Rom>, context: Context, r: Rom)
    requires context.id in Reach(codes) && Has(codes, [])
    requires context.fork == DeepestFork(codes, context.id) > 0
    requires var id := Walk(codes, context, []);
      id[..context.fork] == context.id[..context.fork] && id[context.fork] && r in Above(codes, context.id) && r != id
    ensures Before(Walk(codes, context, []), r)
  {
    var old', id, fork := context.id, Walk(codes, context, []), context.fork;
    var j: nat :| j < ROM_BITS && BeforeAt(old', r, j);
    GreaterPartsAtFork(codes, old', r, j);
    if j < fork {
      PartsEarlier(old', id, r, fork, j);
    } else {
      assert j == fork;
      PartsLater(codes, context, r);
    }
  }

  lemma PartsLater(codes: set<Rom>, context: Context, r: Rom)
    requires r in codes && Has(codes, []) && context.fork < ROM_BITS
    requires var id := Walk(codes, context, []);
      r[..context.fork] == id[..context.fork] && r[context.fork] && id[context.fork] && r != id
    ensures Before(Walk(codes, context, []), r)
  {
    var id := Walk(codes, context, []);
    TurnedPrefix(r, id, context.fork);
    var i := WalkParts(codes, context, r, context.fork + 1);
    assert BeforeAt(id, r, i);
  }

  lemma PartsEarlier(a: Rom, b: Rom, r: Rom, n: nat, j: nat)
    requires j < n <= ROM_BITS && a[..n] == b[..n] && BeforeAt(a, r, j)
    ensures Before(b, r)
  {
    PrefixAgrees(a, b);
    assert b[..j] == b[..n][..j] == a[..n][..j] == a[..j];
    assert BeforeAt(b, r, j);
  }

  // --- The whole enumeration ---

  /** A context some call has left behind. */
  ghost predicate Underway(codes: set<Rom>, context: Context) {
    && context.id in Reach(codes)
    && context.fork == DeepestFork(codes, context.id)
    && (context.done <==> context.fork == 0)
  }

  lemma CallMakesProgress(codes: set<Rom>, context: Context)
    requires Underway(codes, context) && !context.done
    ensures var next := Search(codes, context).0;
      && Underway(codes, next)
      && Least(Above(codes, context.id), next.id)
      && Above(codes, next.id) == Above(codes, context.id) - {next.id}
      && |Above(codes, next.id)| == |Above(codes, context.id)| - 1
  {
    NonEmptyHas(codes);
    NextCall(codes, context);
    var next := Search(codes, context).0;
    forall r | r in Reach(codes)
      ensures r in Above(codes, next.id) <==> r in Above(codes, context.id) - {next.id}
    {
      if Before(next.id, r) {
        BeforeTransitive(context.id, next.id, r);
        BeforeStrict(next.id, r);
      }
    }
  }

  /** The codes the following calls find. The measure is the number of codes still above. */
  ghost function Remaining(codes: set<Rom>, context: Context): seq<Rom>
    requires Underway(codes, context)
    decreases |Above(codes, context.id)|
  {
    if context.done then [] else
      CallMakesProgress(codes, context);
      var next := Search(codes, context).0;
      [next.id] + Remaining(codes, next)
  }

  lemma FirstUnderway(codes: set<Rom>, garbage: Rom)
    requires codes != {}
    ensures var first := Search(codes, Context(garbage, 0, false)).0;
      && Underway(codes, first)
      && Least(Reach(codes), first.id)
      && Above(codes, first.id) == Reach(codes) - {first.id}
  {
    NonEmptyHas(codes);
    FirstCall(codes, garbage);
    var first := Search(codes, Context(garbage, 0, false)).0;
    forall r | r in Reach(codes)
      ensures r in Above(codes, first.id) <==> r in Reach(codes) - {first.id}
    {
      if Before(first.id, r) { BeforeStrict(first.id, r); }
    }
  }

  /** The codes found from a fresh context until `done`, one reset before each call. */
  ghost function Enumeration(codes: set<Rom>, garbage: Rom): seq<Rom>
    requires codes != {}
  {
    FirstUnderway(codes, garbage);
    var first := Search(codes, Context(garbage, 0, false)).0;
    [first.id] + Remaining(codes, first)
  }

  ghost function AfterCalls(codes: set<Rom>, context: Context, calls: nat): Context
    decreases calls
  {
    if calls == 0 then context else AfterCalls(codes, Search(codes, context).0, calls - 1)
  }

  ghost predicate Ascending(ids: seq<Rom>) {
    forall i, j :: 0 <= i < j < |ids| ==> Before(ids[i], ids[j])
  }

  lemma AscendingCons(codes: set<Rom>, id: Rom, rest: seq<Rom>)
    requires Ascending(rest) && forall r | r in rest :: r in Above(codes, id)
    ensures Ascending([id] + rest)
  {
    var ids := [id] + rest;
    forall i, j | 0 <= i < j < |ids|
      ensures Before(ids[i], ids[j])
    {
      assert ids[j] == rest[j - 1] && rest[j - 1] in rest;
      if i > 0 { assert ids[i] == rest[i - 1]; }
    }
  }

  lemma {:induction false} RemainingEnumerates(codes: set<Rom>, context: Context)
    requires Underway(codes, context)
    ensures var ids := Remaining(codes, context);
      && Ascending(ids)
      && (forall r :: r in ids <==> r in Above(codes, context.id))
      && |ids| == |Above(codes, context.id)|
    decreases |Above(codes, context.id)|
  {
    var ids := Remaining(codes, context);
    if context.done {
      NonEmptyHas(codes);
      DoneAtGreatest(codes, context.id);
    } else {
      CallMakesProgress(codes, context);
      var next := Search(codes, context).0;
      var rest := Remaining(codes, next);
      RemainingEnumerates(codes, next);
      AscendingCons(codes, next.id, rest);
    }
  }

  lemma DoneWithLast(codes: set<Rom>, context: Context)
    requires Underway(codes, context)
    ensures context.done <==> |Remaining(codes, context)| == 0
  {
    RemainingEnumerates(codes, context);
    NonEmptyHas(codes);
    DoneAtGreatest(codes, context.id);
  }

  lemma {:induction false} RemainingCalls(codes: set<Rom>, context: Context, k: nat)
    requires Underway(codes, context) && k < |Remaining(codes, context)|
    ensures var after := AfterCalls(codes, context, k + 1);
      after.id == Remaining(codes, context)[k] &&
      (after.done <==> k == |Remaining(codes, context)| - 1)
    decreases |Above(codes, context.id)|
  {
    CallMakesProgress(codes, context);
    var next := Search(codes, context).0;
    assert Remaining(codes, context) == [next.id] + Remaining(codes, next);
    assert AfterCalls(codes, context, k + 1) == AfterCalls(codes, next, k);
    if k == 0 {
      DoneWithLast(codes, next);
    } else {
      RemainingCalls(codes, next, k - 1);
    }
  }

  /** Call number k + 1 finds code k of the enumeration and sets `done` exactly on the last one,
      after which a call finds nothing. */
  lemma CallFinds(codes: set<Rom>, garbage: Rom, k: nat)
    requires codes != {} && k < |Enumeration(codes, garbage)|
    ensures var ids := Enumeration(codes, garbage);
      var after := AfterCalls(codes, Context(garbage, 0, false), k + 1);
      && after.id == ids[k]
      && (after.done <==> k == |ids| - 1)
      && (Search(codes, after).1 <==> k != |ids| - 1)
  {
    FirstUnderway(codes, garbage);
    var first := Search(codes, Context(garbage, 0, false)).0;
    assert AfterCalls(codes, Context(garbage, 0, false), k + 1) == AfterCalls(codes, first, k);
    if k > 0 {
      RemainingCalls(codes, first, k - 1);
    } else {
      NonEmptyHas(codes);
      DoneAtGreatest(codes, first.id);
      RemainingEnumerates(codes, first);
    }
  }

  /** Every reachable code is found exactly once, in ascending order. */
  lemma SearchEnumerates(codes: set<Rom>, garbage: Rom)
    requires codes != {}
    ensures var ids := Enumeration(codes, garbage);
      && |ids| == |Reach(codes)|
      && (forall r :: r in ids <==> r in Reach(codes))
      && Ascending(ids)
  {
    FirstUnderway(codes, garbage);
    var first := Search(codes, Context(garbage, 0, false)).0;
    RemainingEnumerates(codes, first);
    AscendingCons(codes, first.id, Remaining(codes, first));
  }

  lemma CollisionWitness(codes: set<Rom>) returns (a: Rom, b: Rom)
    requires Collision(codes, [])
    ensures a in codes && b in codes && !a[0] && b[0]
  {
    a :| a in codes && [] + [false] <= a;
    b :| b in codes && [] + [true] <= b;
  }

  lemma AgreeWithoutCollision(codes: set<Rom>, a: Rom, b: Rom)
    requires a in codes && b in codes && a[0] != b[0]
    ensures Collision(codes, [])
  {
    assert a[..0] == b[..0] == [];
    Parting(codes, a, b, 0);
  }

  /** The walk visits every device on the bus exactly when all codes agree on bit 0. */
  lemma CompleteIffBit0Agrees(codes: set<Rom>, garbage: Rom)
    requires codes != {}
    ensures (forall r | r in codes :: r in Enumeration(codes, garbage)) <==>
            (forall a, b | a in codes && b in codes :: a[0] == b[0])
  {
    SearchEnumerates(codes, garbage);
    if Collision(codes, []) {
      var a, b := CollisionWitness(codes);
      assert a !in Reach(codes);
    } else {
      forall a, b | a in codes && b in codes
        ensures a[0] == b[0]
      {
        if a[0] != b[0] { AgreeWithoutCollision(codes, a, b); }
      }
    }
  }

  /** Resets and calls until the search is done: the enumeration. */
  method FindAll(session: Session, context: SearchContext) returns (ids: seq<Rom>)
    requires context.mode.Meant? && context.fork == 0 && !context.done
    modifies session.bus, context
    ensures var codes := Answering(session.bus, context);
      ids == (if codes == {} then [] else Enumeration(codes, old(context.id))) && (context.done <==> codes != {})
  {
    ids := [];
    ghost var codes := Answering(session.bus, context);
    ghost var all := if codes == {} then [] else Enumeration(codes, context.id);
    ghost var left := all;
    while !context.done
      invariant all == ids + left && Answering(session.bus, context) == codes
      invariant codes == {} ==> left == [] && !context.done
      invariant codes != {} ==> Ahead(codes, context.View(), left)
      decreases codes != {}, |left|
    {
      var found := FindNext(session, context, codes, left);
      if !found {
        break;
      }
      MoveOne(ids, left);
      ids := ids + [context.id];
      left := left[1..];
    }
    if codes != {} { NothingAhead(codes, context.View(), left); }
    assert ids + [] == ids;
  }

  lemma MoveOne<T>(done: seq<T>, left: seq<T>)
    requires left != []
    ensures done + left == done + [left[0]] + left[1..]
  {
  }

  lemma NothingAhead(codes: set<Rom>, context: Context, left: seq<Rom>)
    requires codes != {} && context.done && Ahead(codes, context, left)
    ensures left == []
  {
  }

  /** One reset and one call. */
  method FindNext(session: Session, context: SearchContext, ghost codes: set<Rom>, ghost left: seq<Rom>)
    returns (found: bool)
    requires context.mode.Meant? && !context.done && codes == Answering(session.bus, context)
    requires codes != {} ==> Ahead(codes, context.View(), left)
    modifies session.bus, context
    ensures found <==> codes != {}
    ensures found ==> left != [] && left[0] == context.id && Ahead(codes, context.View(), left[1..])
    ensures !found ==> context.View() == old(context.View())
  {
    var present := session.Reset();
    found := session.SearchRom(context);
    if codes != {} { NextAhead(codes, old(context.View()), left); }
  }

  /** What is still to be found from a context that is fresh or that some call has left behind. */
  ghost predicate Ahead(codes: set<Rom>, context: Context, left: seq<Rom>)
    requires codes != {}
  {
    if context.fork == 0 && !context.done then left == Enumeration(codes, context.id)
    else Underway(codes, context) && left == Remaining(codes, context)
  }

  lemma NextAhead(codes: set<Rom>, context: Context, left: seq<Rom>)
    requires codes != {} && !context.done && Ahead(codes, context, left)
    ensures var next := Search(codes, context).0;
      left != [] && left[0] == next.id && Ahead(codes, next, left[1..])
  {
    if context.fork == 0 {
      FirstUnderway(codes, context.id);
    } else {
      CallMakesProgress(codes, context);
    }
  }

  // --- READ ROM and MATCH ROM ---

  lemma {:induction false} SendsFrom(rom: Rom, i: nat)
    requires i < ROM_BITS
    ensures Levels(Wire(Sending(i), {rom}), ROM_BITS - i) == rom[i..]
    decreases ROM_BITS - i
  {
    var wire := Wire(Sending(i), {rom});
    if i + 1 < ROM_BITS {
      SendsFrom(rom, i + 1);
    } else {
      assert Levels(AfterRead(wire), 0) == [];
    }
    assert Levels(wire, ROM_BITS - i) == [rom[i]] + rom[i + 1..];
  }

  lemma {:induction false} MatchesFrom(active: set<Rom>, alarmed: set<Rom>, rom: Rom, i: nat)
    requires i < ROM_BITS
    ensures AfterWrites(Wire(Matching(i), active), alarmed, rom[i..]) ==
            Wire(Selected, set r | r in active && r[i..] == rom[i..])
    decreases ROM_BITS - i
  {
    var kept := Agreeing(active, i, rom[i]);
    assert rom[i..][0] == rom[i] && rom[i..][1..] == rom[i + 1..];
    forall r: Rom
      ensures r[i] == rom[i] && r[i + 1..] == rom[i + 1..] <==> r[i..] == rom[i..]
    {
      assert r[i..] == [r[i]] + r[i + 1..] && rom[i..] == [rom[i]] + rom[i + 1..];
    }
    if i + 1 < ROM_BITS {
      MatchesFrom(kept, alarmed, rom, i + 1);
    }
    assert (set r | r in kept && r[i + 1..] == rom[i + 1..]) == set r | r in active && r[i..] == rom[i..];
    if i + 1 == ROM_BITS {
      assert kept == set r | r in active && r[i..] == rom[i..];
      assert AfterWrites(Wire(Selected, kept), alarmed, rom[i + 1..]) == Wire(Selected, kept);
    }
  }

  /** The number read from a lone device, sent back by MATCH ROM, selects that device alone on any
      bus it shares. */
  lemma ReadThenMatchSelects(rom: Rom, present: set<Rom>, alarmed: set<Rom>)
    ensures var number := FromBits(Levels(Wire(Sending(0), {rom}), ROM_BITS));
      && number < Pow2(ROM_BITS)
      && AfterWrites(Wire(Matching(0), present), alarmed, ToBits(number, ROM_BITS)) ==
         Wire(Selected, present * {rom})
  {
    SendsFrom(rom, 0);
    assert rom[0..] == rom;
    BitsRoundTrip(rom);
    MatchesFrom(present, alarmed, rom, 0);
    assert (set r | r in present && r[0..] == rom[0..]) == present * {rom} by {
      forall r: Rom ensures r[0..] == r {}
    }
  }
}
