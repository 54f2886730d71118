/** The filter loop of handle_device_packet and its address test: what they are for, and where the
    source text falls short of it (deephome/router/Router.cpp:188-228). */
module RouterFilters {
  import opened Sequences
  import opened Messages
  import opened RouterConfig
  import opened Router
  import opened Bitwise

  // --- One pass over the list ---

  /** The positions of the flags that are set, ascending. */
  function Where(flags: seq<bool>): (at: seq<nat>)
    ensures forall k | 0 <= k < |at| :: at[k] < |flags| && flags[at[k]]
    ensures forall i | 0 <= i < |flags| && flags[i] :: i in at
    ensures forall j, k | 0 <= j < k < |at| :: at[j] < at[k]
  {
    if flags == [] then [] else
    var n := |flags| - 1;
    Where(flags[..n]) + (if flags[n] then [n] else [])
  }

  function HitFlags(visits: seq<Visit>): (flags: seq<bool>)
    ensures |flags| == |visits|
  {
    seq(|visits|, i requires 0 <= i < |visits| => Hit(visits[i]))
  }

  /** Which filters stay when the connections `dead` are closed after the pass. */
  function KeptFlags(visits: seq<Visit>, dead: set<nat>): (flags: seq<bool>)
    ensures |flags| == |visits|
  {
    seq(|visits|, i requires 0 <= i < |visits| => !UsedUp(visits[i]) && visits[i].filter.connection !in dead)
  }

  function Delivery(message: Message, device: Device, v: Visit): (nat, Command) {
    (v.filter.connection, RouteCommand(message, device, v.filter.reply))
  }

  lemma {:induction false} DeliveriesInOrder(message: Message, device: Device, visits: seq<Visit>)
    ensures var at, sent := Where(HitFlags(visits)), Deliveries(message, device, visits);
      |sent| == |at| && forall k | 0 <= k < |at| :: sent[k] == Delivery(message, device, visits[at[k]])
    decreases |visits|
  {
    if visits != [] {
      var n := |visits| - 1;
      DeliveriesInOrder(message, device, visits[..n]);
      assert HitFlags(visits)[..n] == HitFlags(visits[..n]);
      assert visits[..n + 1] == visits;
      Step(visits, n, message, device);
    }
  }

  lemma LastSurvivor(message: Message, device: Device, visits: seq<Visit>, dead: set<nat>, n: nat)
    requires |visits| == n + 1
    ensures Without(Of(dead), Survivors(visits)) ==
            Without(Of(dead), Survivors(visits[..n])) + (if KeptFlags(visits, dead)[n] then [visits[n].filter] else [])
  {
    var before, last := Survivors(visits[..n]), visits[n];
    assert visits[..n + 1] == visits;
    Step(visits, n, message, device);
    FlatMapAppend(KeptBy(Of(dead)), before, LeftBy(last));
    FlatMapOne(KeptBy(Of(dead)), last.filter);
  }

  lemma {:induction false} SurvivorsInOrder(message: Message, device: Device, visits: seq<Visit>, dead: set<nat>)
    ensures var at, kept := Where(KeptFlags(visits, dead)), Without(Of(dead), Survivors(visits));
      |kept| == |at| && forall k | 0 <= k < |at| :: kept[k] == visits[at[k]].filter
    decreases |visits|
  {
    if visits != [] {
      var n := |visits| - 1;
      SurvivorsInOrder(message, device, visits[..n], dead);
      assert KeptFlags(visits, dead)[..n] == KeptFlags(visits[..n], dead);
      LastSurvivor(message, device, visits, dead, n);
    }
  }

  /** The pass over the list visits every filter once, in order: the k-th delivery goes to the k-th
      filter that passes and is routed, and what is left is the old list without the filters used up
      and those of connections found dead. */
  lemma OnePass(setup: Setup, s: State, n: nat, message: Message, room: seq<bool>)
    requires n < |setup.config.networks| && |room| == |s.filters| && s.started
    requires FindById(setup.config.devices, setup.config.networks[n], message.deviceId).Just?
    ensures
      var device := FindById(setup.config.devices, setup.config.networks[n], message.deviceId).value;
      var visits := Visits(setup, s, message, setup.config.networks[n], room);
      var hits, kept := Where(HitFlags(visits)), Where(KeptFlags(visits, Dead(visits)));
      var (t, sent) := DevicePacket(setup, s, n, message, room);
      && |sent| == |hits| && (forall k | 0 <= k < |hits| :: sent[k] == Delivery(message, device, visits[hits[k]]))
      && |t.filters| == |kept| && (forall k | 0 <= k < |kept| :: t.filters[k] == s.filters[kept[k]])
  {
    var device := FindById(setup.config.devices, setup.config.networks[n], message.deviceId).value;
    var visits := Visits(setup, s, message, setup.config.networks[n], room);
    DeliveriesInOrder(message, device, visits);
    SurvivorsInOrder(message, device, visits, Dead(visits));
  }

  // --- The loop as it is written ---

  /** Where the loop of lines 188-209 stands after `steps` rounds: a filter that passes but cannot be
      routed is not stepped over. */
  function WrittenPosition(visits: seq<Visit>, steps: nat): (at: nat)
    ensures at <= |visits|
  {
    if steps == 0 then 0 else
    var at := WrittenPosition(visits, steps - 1);
    if at == |visits| || (visits[at].passes && !visits[at].routed) then at else at + 1
  }

  lemma {:induction false} MovesOn(visits: seq<Visit>, steps: nat)
    requires Dead(visits) == {} && steps <= |visits|
    ensures WrittenPosition(visits, steps) == steps
  {
    if steps > 0 {
      MovesOn(visits, steps - 1);
      var v := visits[steps - 1];
      assert v.passes && !v.routed ==> v.filter.connection in Dead(visits);
    }
  }

  lemma {:induction false} NeverPasses(visits: seq<Visit>, stuck: nat, steps: nat)
    requires stuck < |visits| && visits[stuck].passes && !visits[stuck].routed
    ensures WrittenPosition(visits, steps) <= stuck
    decreases steps
  {
    if steps > 0 { NeverPasses(visits, stuck, steps - 1); }
  }

  /** As written the loop ends exactly when every filter that passes can be routed. */
  lemma WrittenLoopEnds(visits: seq<Visit>)
    ensures (exists steps: nat :: WrittenPosition(visits, steps) == |visits|) <==> Dead(visits) == {}
  {
    if Dead(visits) == {} {
      MovesOn(visits, |visits|);
    } else {
      var c :| c in Dead(visits);
      var stuck :| 0 <= stuck < |visits| && visits[stuck].passes && !visits[stuck].routed && visits[stuck].filter.connection == c;
      forall steps: nat
        ensures WrittenPosition(visits, steps) != |visits|
      {
        NeverPasses(visits, stuck, steps);
      }
    }
  }

  // --- The address test ---

  /** As written the test passes every address when the mask equals the filter's address, and
      otherwise the even ones. */
  lemma WrittenTest(a: Word, f: Filter)
    ensures AddressPasses(Written, a, f) <==> f.mask == f.address || a % 2 == 0
  {
    AndBit(a);
  }

  /** The two tests agree on all addresses for two kinds of filter only: those without an address, and
      those that ask for an even one. */
  lemma TestsAgree(f: Filter)
    requires f.mask <= 0xffff
    ensures (forall a: Word :: AddressPasses(Intended, a, f) == AddressPasses(Written, a, f)) <==>
            f.address == 0 && f.mask <= 1
  {
    var zero: Word, one: Word := 0, 1;
    WrittenTest(zero, f);
    WrittenTest(one, f);
    if f.address == 0 && f.mask <= 1 {
      forall a: Word
        ensures AddressPasses(Intended, a, f) == AddressPasses(Written, a, f)
      {
        AndBit(a);
        WrittenTest(a, f);
      }
    } else if f.address == 0 && f.mask % 2 == 1 {
      AndEven(f.mask);
      WrittenTest(f.mask - 1, f);
      assert AddressPasses(Intended, f.mask - 1, f) != AddressPasses(Written, f.mask - 1, f);
    } else if f.address == 0 {
      AndBit(f.mask);
      assert AddressPasses(Intended, one, f) != AddressPasses(Written, one, f);
    } else {
      assert AddressPasses(Intended, zero, f) != AddressPasses(Written, zero, f);
    }
  }

  /** A reply filter is meant for its own address; as written it takes all even ones instead. */
  lemma ReplyFilterTests(connection: nat, device: Device, address: Word, a: Word)
    ensures AddressPasses(Intended, a, ReplyFilter(connection, device, address)) <==> a == address
    ensures AddressPasses(Written, a, ReplyFilter(connection, device, address)) <==> address == 0xffff || a % 2 == 0
  {
    AndWord(a);
    WrittenTest(a, ReplyFilter(connection, device, address));
  }
}
