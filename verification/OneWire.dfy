/** The 1-Wire master of the TI board (firmware/ti/onewire/Session.cpp): bit order of `read` and
    `write`, READ ROM, MATCH ROM and the SEARCH ROM walk, run against a model of the devices on a
    wired-AND bus as the DS18B20 data sheet describes them under "ROM Commands". */
module OneWire {

  const ROM_BITS: nat := 64

  const READ_ROM: nat := 0x33
  const MATCH_ROM: nat := 0x55
  const SKIP_ROM: nat := 0xCC
  const SEARCH_ROM: nat := 0xF0
  const ALARM_SEARCH: nat := 0xEC

  /** The 64 bits of a UniqueId, bit 0 (the first on the wire) first. */
  type Rom = r: seq<bool> | |r| == ROM_BITS witness seq(ROM_BITS, _ => false)

  // --- Words and their bits, least significant first ---

  function Pow2(n: nat): (p: nat)
    ensures p > 0
  {
    if n == 0 then 1 else 2 * Pow2(n - 1)
  }

  function FromBits(bits: seq<bool>): nat {
    if bits == [] then 0 else (if bits[0] then 1 else 0) + 2 * FromBits(bits[1..])
  }

  function ToBits(value: nat, n: nat): (bits: seq<bool>)
    ensures |bits| == n
  {
    if n == 0 then [] else [value % 2 == 1] + ToBits(value / 2, n - 1)
  }

  lemma {:induction false} FromBitsAppend(a: seq<bool>, b: seq<bool>)
    ensures FromBits(a + b) == FromBits(a) + Pow2(|a|) * FromBits(b)
  {
    if a == [] {
      assert a + b == b;
    } else {
      FromBitsAppend(a[1..], b);
      assert (a + b)[1..] == a[1..] + b;
      Double(Pow2(|a| - 1), FromBits(b));
    }
  }

  lemma Double(x: nat, y: nat)
    ensures 2 * x * y == 2 * (x * y)
  {
  }

  /** A word of `|bits|` bits and its bit string determine each other. */
  lemma {:induction false} BitsRoundTrip(bits: seq<bool>)
    ensures FromBits(bits) < Pow2(|bits|)
    ensures ToBits(FromBits(bits), |bits|) == bits
  {
    if bits != [] {
      BitsRoundTrip(bits[1..]);
    }
  }

  lemma {:induction false} WordRoundTrip(value: nat, n: nat)
    requires value < Pow2(n)
    ensures FromBits(ToBits(value, n)) == value
  {
    if n > 0 {
      WordRoundTrip(value / 2, n - 1);
      assert ToBits(value, n)[1..] == ToBits(value / 2, n - 1);
    }
  }

  /** A 64-bit word is sent as its low half followed by its high half. */
  lemma HalvesFirst(value: nat)
    requires value < 0x1_0000_0000_0000_0000
    ensures ToBits(value, ROM_BITS) == ToBits(value % 0x1_0000_0000, 32) + ToBits(value / 0x1_0000_0000, 32)
  {
    Pow2Of32();
    var lo, hi := ToBits(value % 0x1_0000_0000, 32), ToBits(value / 0x1_0000_0000, 32);
    WordRoundTrip(value % 0x1_0000_0000, 32);
    WordRoundTrip(value / 0x1_0000_0000, 32);
    FromBitsAppend(lo, hi);
    BitsRoundTrip(lo + hi);
  }

  // --- The devices on the bus ---

  /** Where every device is in the ROM command it is following. */
  datatype Phase =
    | Command(bits: seq<bool>)   // after a reset: collecting the command byte
    | Sending(index: nat)        // READ ROM: sending bit `index`
    | Matching(index: nat)       // MATCH ROM: expecting bit `index`
    | Bit(index: nat)            // search: sending bit `index`
    | Complement(index: nat)     // search: sending the complement of bit `index`
    | Direction(index: nat)      // search: expecting the direction for bit `index`
    | Selected                   // ROM command finished

  /** `active` are the devices still answering. */
  datatype Wire = Wire(phase: Phase, active: set<Rom>)

  predicate Valid(wire: Wire) {
    match wire.phase
    case Command(bits) => |bits| < 8
    case Selected => true
    case _ => wire.phase.index < ROM_BITS
  }

  function Next(index: nat, phase: Phase): Phase {
    if index + 1 == ROM_BITS then Selected else phase
  }

  /** A read slot: the line is high unless some active device pulls it low. */
  function Level(wire: Wire): bool
    requires Valid(wire)
  {
    match wire.phase
    case Sending(i) => forall r | r in wire.active :: r[i]
    case Bit(i) => forall r | r in wire.active :: r[i]
    case Complement(i) => forall r | r in wire.active :: !r[i]
    case _ => true
  }

  function AfterRead(wire: Wire): (after: Wire)
    requires Valid(wire)
    ensures Valid(after) && after.active == wire.active
  {
    match wire.phase
    case Sending(i) => wire.(phase := Next(i, Sending(i + 1)))
    case Bit(i) => wire.(phase := Complement(i))
    case Complement(i) => wire.(phase := Direction(i))
    case _ => wire
  }

  function Agreeing(active: set<Rom>, index: nat, bit: bool): set<Rom>
    requires index < ROM_BITS
  {
    set r | r in active && r[index] == bit
  }

  /** A write slot. `alarmed` are the devices that answer an alarm search. */
  function AfterWrite(wire: Wire, alarmed: set<Rom>, bit: bool): (after: Wire)
    requires Valid(wire)
    ensures Valid(after)
  {
    match wire.phase
    case Command(bits) =>
      if |bits| < 7 then wire.(phase := Command(bits + [bit])) else
        var command := FromBits(bits + [bit]);
        if command == READ_ROM then wire.(phase := Sending(0))
        else if command == MATCH_ROM then wire.(phase := Matching(0))
        else if command == SEARCH_ROM then wire.(phase := Bit(0))
        else if command == ALARM_SEARCH then Wire(Bit(0), wire.active * alarmed)
        else wire.(phase := Selected)
    case Matching(i) => Wire(Next(i, Matching(i + 1)), Agreeing(wire.active, i, bit))
    case Direction(i) => Wire(Next(i, Bit(i + 1)), Agreeing(wire.active, i, bit))
    case _ => wire
  }

  function Levels(wire: Wire, n: nat): (levels: seq<bool>)
    requires Valid(wire)
    ensures |levels| == n
    decreases n
  {
    if n == 0 then [] else [Level(wire)] + Levels(AfterRead(wire), n - 1)
  }

  function AfterReads(wire: Wire, n: nat): (after: Wire)
    requires Valid(wire)
    ensures Valid(after)
    decreases n
  {
    if n == 0 then wire else AfterReads(AfterRead(wire), n - 1)
  }

  function AfterWrites(wire: Wire, alarmed: set<Rom>, bits: seq<bool>): (after: Wire)
    requires Valid(wire)
    ensures Valid(after)
    decreases bits
  {
    if bits == [] then wire else AfterWrites(AfterWrite(wire, alarmed, bits[0]), alarmed, bits[1..])
  }

  lemma {:induction false} AfterReadsSplit(wire: Wire, n: nat)
    requires Valid(wire)
    ensures AfterReads(wire, n + 1) == AfterRead(AfterReads(wire, n))
    ensures Levels(wire, n + 1) == Levels(wire, n) + [Level(AfterReads(wire, n))]
    decreases n
  {
    if n > 0 {
      AfterReadsSplit(AfterRead(wire), n - 1);
    }
  }

  lemma {:induction false} AfterReadsAppend(wire: Wire, m: nat, n: nat)
    requires Valid(wire)
    ensures AfterReads(wire, m + n) == AfterReads(AfterReads(wire, m), n)
    ensures Levels(wire, m + n) == Levels(wire, m) + Levels(AfterReads(wire, m), n)
    decreases m
  {
    if m > 0 {
      AfterReadsAppend(AfterRead(wire), m - 1, n);
    }
  }

  lemma {:induction false} AfterWritesAppend(wire: Wire, alarmed: set<Rom>, a: seq<bool>, b: seq<bool>)
    requires Valid(wire)
    ensures AfterWrites(wire, alarmed, a + b) == AfterWrites(AfterWrites(wire, alarmed, a), alarmed, b)
    decreases a
  {
    if a == [] {
      assert a + b == b;
    } else {
      AfterWritesAppend(AfterWrite(wire, alarmed, a[0]), alarmed, a[1..], b);
      assert (a + b)[1..] == a[1..] + b;
    }
  }

  /** The command byte, sent least significant bit first, starts the command it names. */
  lemma CommandByte(present: set<Rom>, alarmed: set<Rom>, command: nat)
    requires command < 256
    ensures AfterWrites(Wire(Command([]), present), alarmed, ToBits(command, 8)) ==
            if command == READ_ROM then Wire(Sending(0), present)
            else if command == MATCH_ROM then Wire(Matching(0), present)
            else if command == SEARCH_ROM then Wire(Bit(0), present)
            else if command == ALARM_SEARCH then Wire(Bit(0), present * alarmed)
            else Wire(Selected, present)
  {
    var bits := ToBits(command, 8);
    var first := bits[..7];
    assert bits == first + [bits[7]];
    Collect(Wire(Command([]), present), alarmed, first);
    assert [] + first == first;
    AfterWritesAppend(Wire(Command([]), present), alarmed, first, [bits[7]]);
    assert [bits[7]][1..] == [];
    assert Pow2(8) == 256 by { assert Pow2(4) == 16; }
    WordRoundTrip(command, 8);
  }

  lemma {:induction false} Collect(wire: Wire, alarmed: set<Rom>, bits: seq<bool>)
    requires wire.phase.Command? && |wire.phase.bits| + |bits| < 8
    ensures AfterWrites(wire, alarmed, bits) == wire.(phase := Command(wire.phase.bits + bits))
    decreases bits
  {
    if bits == [] {
      assert wire.phase.bits + bits == wire.phase.bits;
    } else {
      Collect(wire.(phase := Command(wire.phase.bits + [bits[0]])), alarmed, bits[1..]);
      assert wire.phase.bits + [bits[0]] + bits[1..] == wire.phase.bits + bits;
    }
  }

  // --- The bits of the search context ---

  /** get_bit and set_bit shift a one: as it is meant, over all 64 bits; as it is written, over the 32
      bits of an unsigned. A shift by 32 or more is then undefined: `wide[i - 32]` is what `1u << i` gives. */
  datatype Shift = Meant | Written(wide: seq<seq<bool>>)

  const WORD: nat := 32

  type ShiftMode = m: Shift | m.Written? ==> |m.wide| == WORD && forall i | 0 <= i < WORD :: |m.wide[i]| == WORD
    witness Meant

  /** Bit `j` of the shifted one. */
  predicate MaskBit(mode: ShiftMode, i: nat, j: nat)
    requires i < ROM_BITS && j < ROM_BITS
  {
    match mode
    case Meant => j == i
    case Written(wide) => if i < WORD then j == i else j < WORD && wide[i - WORD][j]
  }

  /** Bit `j` of its complement, which as it is written has no bits above 31. */
  predicate KeepBit(mode: ShiftMode, i: nat, j: nat)
    requires i < ROM_BITS && j < ROM_BITS
  {
    !MaskBit(mode, i, j) && (mode.Meant? || j < WORD)
  }

  function SetBit(mode: ShiftMode, id: Rom, i: nat, value: bool): Rom
    requires i < ROM_BITS
  {
    seq(ROM_BITS, j requires 0 <= j < ROM_BITS =>
      if value then id[j] || MaskBit(mode, i, j) else id[j] && KeepBit(mode, i, j))
  }

  predicate GetBit(mode: ShiftMode, id: Rom, i: nat)
    requires i < ROM_BITS
  {
    exists j: nat | j < ROM_BITS :: id[j] && MaskBit(mode, i, j)
  }

  lemma MeantBits(id: Rom, i: nat, value: bool)
    requires i < ROM_BITS
    ensures SetBit(Meant, id, i, value) == id[i := value]
    ensures GetBit(Meant, id, i) == id[i]
  {
    if id[i] { assert MaskBit(Meant, i, i); }
  }

  // --- One call, index by index ---

  /** What the search loop has made of the code and the fork, which devices are still active, and whether
      they answered. */
  datatype Outcome = Outcome(id: Rom, fork: nat, active: set<Rom>, answered: bool)

  /** The first of the two slots at `index`, or their complement: high unless some active device is low. */
  ghost predicate Slot(active: set<Rom>, index: nat, bit: bool)
    requires index < ROM_BITS
  {
    forall r | r in active :: r[index] == bit
  }

  /** The code after the direction at `index` was chosen; `turn` is where to turn. */
  function Directed(mode: ShiftMode, turn: nat, id: Rom, index: nat, value: bool, complement: bool): Rom
    requires index < ROM_BITS
  {
    if !(value || complement) && index < turn then id
    else SetBit(mode, id, index, if value || complement then value else index == turn)
  }

  /** One round of the search loop. */
  ghost function Round(mode: ShiftMode, turn: nat, before: Outcome, index: nat): Outcome
    requires index < ROM_BITS
  {
    var value, complement := Slot(before.active, index, true), Slot(before.active, index, false);
    if value && complement then before.(answered := false) else
    var id := Directed(mode, turn, before.id, index, value, complement);
    var fork := if value || complement || index == turn || GetBit(mode, id, index) then before.fork else index;
    Outcome(id, fork, Agreeing(before.active, index, GetBit(mode, id, index)), true)
  }

  /** The rounds from `index` on. (That `before` is in the decreases clause keeps the verifier from
      unfolding all of them wherever they start at 0.) */
  ghost function Rounds(mode: ShiftMode, turn: nat, before: Outcome, index: nat): Outcome
    requires index <= ROM_BITS
    decreases ROM_BITS - index, before
  {
    if index == ROM_BITS || !before.answered then before
    else Rounds(mode, turn, Round(mode, turn, before, index), index + 1)
  }

  /** One call of search_rom on the devices that answer it. */
  ghost function Call(mode: ShiftMode, codes: set<Rom>, context: Context): (result: (Context, bool)) {
    if context.done then (context, false) else
    var end := Rounds(mode, context.fork, Outcome(context.id, 0, codes, true), 0);
    if end.answered then (Context(end.id, end.fork, end.fork == 0), true) else (context.(id := end.id), false)
  }

  // --- The search as a walk over the trie of codes ---

  /** Some code starts with `path`. */
  ghost predicate Has(codes: set<Rom>, path: seq<bool>) {
    exists r :: r in codes && path <= r
  }

  /** SearchContext: the last code found, the fork to turn at, and whether the walk is over. */
  datatype Context = Context(id: Rom, fork: nat, done: bool)

  /** Both directions are populated after `path`: the two read slots both give 0. */
  ghost predicate Collision(codes: set<Rom>, path: seq<bool>) {
    Has(codes, path + [false]) && Has(codes, path + [true])
  }

  ghost function Turn(codes: set<Rom>, context: Context, path: seq<bool>): bool
    requires |path| < ROM_BITS
  {
    if !Collision(codes, path) then Has(codes, path + [true])
    else if |path| < context.fork then context.id[|path|]
    else |path| == context.fork
  }

  lemma TurnKeeps(codes: set<Rom>, context: Context, path: seq<bool>)
    requires |path| < ROM_BITS && Has(codes, path)
    ensures Has(codes, path + [Turn(codes, context, path)])
  {
    var r :| r in codes && path <= r;
    assert path + [r[|path|]] <= r;
    if r[|path|] { assert Has(codes, path + [true]); } else { assert Has(codes, path + [false]); }
  }

  ghost function Walk(codes: set<Rom>, context: Context, path: seq<bool>): (code: Rom)
    requires |path| <= ROM_BITS && Has(codes, path)
    ensures code in codes && path <= code
    decreases ROM_BITS - |path|, context
  {
    if |path| == ROM_BITS then
      assert forall r :: r in codes && path <= r ==> r == path;
      path
    else
      TurnKeeps(codes, context, path);
      Walk(codes, context, path + [Turn(codes, context, path)])
  }

  /** At the last index of `path` the way 0 was taken while some code goes the way 1. */
  ghost predicate Fork(codes: set<Rom>, path: seq<bool>, index: nat)
    requires index < |path|
  {
    !path[index] && Has(codes, path[..index] + [true])
  }

  /** The deepest fork on `path`; 0 when there is none. */
  ghost function DeepestFork(codes: set<Rom>, path: seq<bool>): (fork: nat)
    ensures path != [] ==> fork < |path|
  {
    if path == [] then 0
    else if Fork(codes, path, |path| - 1) then |path| - 1
    else DeepestFork(codes, path[..|path| - 1])
  }

  /** What a call is meant to do: find the end of the walk, and remember its deepest fork. */
  ghost function Search(codes: set<Rom>, context: Context): (result: (Context, bool)) {
    if context.done || codes == {} then
      (context, false)
    else
      NonEmptyHas(codes);
      var id := Walk(codes, context, []);
      var fork := DeepestFork(codes, id);
      (Context(id, fork, fork == 0), true)
  }

  lemma NonEmptyHas(codes: set<Rom>)
    requires codes != {}
    ensures Has(codes, [])
  {
    var r :| r in codes;
    assert [] <= r;
  }

  // --- The master ---

  class Bus {
    const present: set<Rom>
    const alarmed: set<Rom>
    var wire: Wire

    constructor (present: set<Rom>, alarmed: set<Rom>)
      ensures this.present == present && this.alarmed == alarmed
      ensures wire == Wire(Selected, present)
    {
      this.present, this.alarmed := present, alarmed;
      wire := Wire(Selected, present);
    }
  }

  class SearchContext {
    const alarm: bool
    const mode: ShiftMode
    var id: Rom
    var done: bool
    var fork: nat

    /** The source leaves the code uninitialised: `id` is whatever was in memory. */
    constructor (alarm: bool, mode: ShiftMode, id: Rom)
      ensures this.alarm == alarm && this.mode == mode && View() == Context(id, 0, false)
    {
      this.alarm, this.mode, this.id, done, fork := alarm, mode, id, false, 0;
    }

    ghost function View(): Context
      reads this
    {
      Context(id, fork, done)
    }
  }

  class Session {
    const bus: Bus

    constructor (bus: Bus)
      ensures this.bus == bus
    {
      this.bus := bus;
    }

    method Reset() returns (presence: bool)
      modifies bus
      ensures bus.wire == Wire(Command([]), bus.present)
      ensures presence == (bus.present != {})
    {
      bus.wire := Wire(Command([]), bus.present);
      presence := bus.present != {};
    }

    method Read(bits: nat) returns (value: nat)
      requires Valid(bus.wire)
      modifies bus
      ensures bus.wire == AfterReads(old(bus.wire), bits)
      ensures value == FromBits(Levels(old(bus.wire), bits))
    {
      value := 0;
      var weight := 1;
      ghost var start := bus.wire;
      for bit := 0 to bits
        invariant Valid(bus.wire) && bus.wire == AfterReads(start, bit)
        invariant weight == Pow2(bit)
        invariant value == FromBits(Levels(start, bit))
      {
        AfterReadsSplit(start, bit);
        FromBitsAppend(Levels(start, bit), [Level(bus.wire)]);
        assert [Level(bus.wire)][1..] == [];
        if Level(bus.wire) {
          value := value + weight;
        }
        weight := 2 * weight;
        bus.wire := AfterRead(bus.wire);
      }
    }

    method Write(value: nat, bits: nat)
      requires Valid(bus.wire)
      modifies bus
      ensures bus.wire == AfterWrites(old(bus.wire), bus.alarmed, ToBits(value, bits))
    {
      var rest := value;
      ghost var start := bus.wire;
      for bit := 0 to bits
        invariant Valid(bus.wire)
        invariant AfterWrites(bus.wire, bus.alarmed, ToBits(rest, bits - bit))
               == AfterWrites(start, bus.alarmed, ToBits(value, bits))
      {
        assert ToBits(rest, bits - bit)[1..] == ToBits(rest / 2, bits - bit - 1);
        bus.wire := AfterWrite(bus.wire, bus.alarmed, rest % 2 == 1);
        rest := rest / 2;
      }
    }

    /** READ ROM: the 64 levels the devices put on the line, low word first. */
    method ReadRom() returns (rom: nat)
      requires bus.wire.phase == Command([])
      modifies bus
      ensures rom == FromBits(Levels(Wire(Sending(0), old(bus.wire.active)), ROM_BITS))
      ensures bus.wire == AfterReads(Wire(Sending(0), old(bus.wire.active)), ROM_BITS)
    {
      CommandByte(bus.wire.active, bus.alarmed, READ_ROM);
      Write(READ_ROM, 8);
      ghost var start := bus.wire;
      var lo := Read(32);
      var hi := Read(32);
      AfterReadsAppend(start, 32, 32);
      FromBitsAppend(Levels(start, 32), Levels(AfterReads(start, 32), 32));
      Pow2Of32();
      rom := hi * 0x1_0000_0000 + lo;
    }

    /** MATCH ROM: the low word of the code, then the high word, least significant bits first. */
    method MatchRom(rom: nat)
      requires bus.wire.phase == Command([]) && rom < 0x1_0000_0000_0000_0000
      modifies bus
      ensures bus.wire == AfterWrites(Wire(Matching(0), old(bus.wire.active)), bus.alarmed, ToBits(rom, ROM_BITS))
    {
      CommandByte(bus.wire.active, bus.alarmed, MATCH_ROM);
      Write(MATCH_ROM, 8);
      ghost var start := bus.wire;
      HalvesFirst(rom);
      AfterWritesAppend(start, bus.alarmed, ToBits(rom % 0x1_0000_0000, 32), ToBits(rom / 0x1_0000_0000, 32));
      Write(rom % 0x1_0000_0000, 32);
      Write(rom / 0x1_0000_0000, 32);
    }

    /** SKIP ROM: every active device is selected. */
    method SkipRom()
      requires bus.wire.phase == Command([])
      modifies bus
      ensures bus.wire == Wire(Selected, old(bus.wire).active)
    {
      CommandByte(bus.wire.active, bus.alarmed, SKIP_ROM);
      Write(SKIP_ROM, 8);
    }

    /** The call is the one of its mode; in the mode that is meant it ends with the device it found. */
    method SearchRom(context: SearchContext) returns (found: bool)
      requires bus.wire == Wire(Command([]), bus.present)
      modifies bus, context
      ensures (context.View(), found) == Call(context.mode, Answering(bus, context), old(context.View()))
      ensures context.mode.Meant? ==> (context.View(), found) == Search(Answering(bus, context), old(context.View()))
      ensures context.mode.Meant? && found ==> bus.wire == Wire(Selected, {context.id})
    {
      if context.done {
        return false;
      }
      CommandByte(bus.present, bus.alarmed, if context.alarm then ALARM_SEARCH else SEARCH_ROM);
      Write(if context.alarm then ALARM_SEARCH else SEARCH_ROM, 8);
      CallIsSearch(Answering(bus, context), context.View());
      var answered, nextFork := SearchBits(context);
      if !answered {
        return false;
      }
      context.fork := nextFork;
      context.done := nextFork == 0;
      return true;
    }

    /** The search loop. */
    method SearchBits(context: SearchContext) returns (answered: bool, nextFork: nat)
      requires bus.wire.phase == Bit(0)
      modifies bus, context`id
      ensures Outcome(context.id, nextFork, bus.wire.active, answered) ==
              Rounds(context.mode, context.fork, Outcome(old(context.id), 0, old(bus.wire.active), true), 0)
      ensures answered ==> bus.wire.phase == Selected
    {
      ghost var end := Rounds(context.mode, context.fork, Outcome(context.id, 0, bus.wire.active, true), 0);
      nextFork := 0;
      var index := 0;
      while index < ROM_BITS
        invariant 0 <= index <= ROM_BITS && bus.wire.phase == if index == ROM_BITS then Selected else Bit(index)
        invariant Rounds(context.mode, context.fork, Outcome(context.id, nextFork, bus.wire.active, true), index) == end
      {
        answered, nextFork := SearchBit(context, index, nextFork);
        if !answered {
          return false, nextFork;
        }
        index := index + 1;
      }
      return true, nextFork;
    }

    /** The body of the search loop: two read slots, the choice of direction, one write slot. No device
        answers only if none is active. */
    method SearchBit(context: SearchContext, index: nat, fork: nat) returns (answered: bool, nextFork: nat)
      requires index < ROM_BITS && bus.wire.phase == Bit(index)
      modifies bus, context`id
      ensures Outcome(context.id, nextFork, bus.wire.active, answered) ==
              Round(context.mode, context.fork, Outcome(old(context.id), fork, old(bus.wire.active), true), index)
      ensures answered ==> bus.wire.phase == Next(index, Bit(index + 1))
      ensures answered <==> old(bus.wire.active) != {}
    {
      var value, complement := ReadPair(index);
      NobodyLeft(bus.wire.active, index);
      if value && complement {
        return false, fork;
      }
      nextFork := Steer(context, index, fork, value, complement);
      WriteBit(GetBit(context.mode, context.id, index));
      return true, nextFork;
    }

    /** Two slots: in the one a device sends its bit of the code, in the other the inverse of it. The bus
        is wired-AND, so that two zeros tell of devices with either bit. */
    method ReadPair(index: nat) returns (value: bool, complement: bool)
      requires index < ROM_BITS && bus.wire.phase == Bit(index)
      modifies bus
      ensures bus.wire == old(bus.wire).(phase := Direction(index))
      ensures value == Slot(bus.wire.active, index, true) && complement == Slot(bus.wire.active, index, false)
    {
      TwoSlots(bus.wire, index);
      var answer := Read(2);
      value, complement := answer % 2 == 1, answer / 2 == 1;
    }

    /** The direction to take at `index`, from the bit read there and its complement. */
    method Steer(context: SearchContext, index: nat, fork: nat, value: bool, complement: bool)
      returns (nextFork: nat)
      requires index < ROM_BITS
      modifies context`id
      ensures context.id == Directed(context.mode, context.fork, old(context.id), index, value, complement)
      ensures nextFork == if value || complement || index == context.fork || GetBit(context.mode, context.id, index)
                          then fork else index
    {
      nextFork := fork;
      if value || complement {
        context.id := SetBit(context.mode, context.id, index, value);
      } else if index == context.fork {
        context.id := SetBit(context.mode, context.id, index, true);
      } else if index > context.fork {
        context.id := SetBit(context.mode, context.id, index, false);
        nextFork := index;
      } else if !GetBit(context.mode, context.id, index) {
        nextFork := index;
      }
    }

    method WriteBit(bit: bool)
      requires Valid(bus.wire)
      modifies bus
      ensures bus.wire == AfterWrite(old(bus.wire), bus.alarmed, bit)
    {
      var word := if bit then 1 else 0;
      assert ToBits(word, 1) == [bit] && [bit][1..] == [];
      Write(word, 1);
    }
  }

  lemma Pow2Of32()
    ensures Pow2(32) == 0x1_0000_0000
  {
    assert Pow2(8) == 256;
    assert Pow2(16) == 65536;
    assert Pow2(24) == 0x100_0000;
  }

  /** The devices that answer the search command of `context`. */
  ghost function Answering(bus: Bus, context: SearchContext): set<Rom> {
    if context.alarm then bus.present * bus.alarmed else bus.present
  }

  ghost function Under(codes: set<Rom>, path: seq<bool>): set<Rom> {
    set r | r in codes && path <= r
  }

  ghost predicate SameWalk(codes: set<Rom>, start: Context, path: seq<bool>)
    requires |path| <= ROM_BITS
  {
    Has(codes, path) && Has(codes, []) && Walk(codes, start, path) == Walk(codes, start, [])
  }

  /** After `index` bits of the walk from `start`: the bits so far lie on it, those after are the
      previous code's, and `fork` is the deepest fork so far. */
  ghost predicate OnWalk(codes: set<Rom>, start: Context, id: Rom, index: nat, fork: nat) {
    && index <= ROM_BITS
    && id[index..] == start.id[index..]
    && fork == DeepestFork(codes, id[..index])
    && (codes != {} ==> SameWalk(codes, start, id[..index]))
    && (codes == {} ==> index == 0)
  }

  /** What the two read slots tell. */
  lemma TwoSlots(wire: Wire, index: nat)
    requires index < ROM_BITS && wire.phase == Bit(index)
    ensures AfterReads(wire, 2) == wire.(phase := Direction(index))
    ensures FromBits(Levels(wire, 2)) ==
            (if Slot(wire.active, index, true) then 1 else 0) + (if Slot(wire.active, index, false) then 2 else 0)
  {
    var levels := Levels(wire, 2);
    assert AfterReads(wire, 2) == AfterReads(AfterRead(wire), 1);
    assert AfterReads(AfterRead(wire), 1) == AfterRead(AfterRead(wire));
    assert levels == [Level(wire)] + Levels(AfterRead(wire), 1);
    assert levels[1..] == [Level(AfterRead(wire))];
    assert levels[1..][1..] == [];
    assert FromBits(levels[1..]) == if levels[1] then 1 else 0;
  }

  lemma NobodyLeft(active: set<Rom>, index: nat)
    requires index < ROM_BITS
    ensures Slot(active, index, true) && Slot(active, index, false) <==> active == {}
  {
    if r :| r in active { assert r[index] || !r[index]; }
  }

  /** Below a path the slots tell which ways are populated. */
  lemma SlotsBelow(codes: set<Rom>, path: seq<bool>, bit: bool)
    requires |path| < ROM_BITS
    ensures Slot(Under(codes, path), |path|, bit) <==> !Has(codes, path + [!bit])
  {
    if Has(codes, path + [!bit]) {
      var r :| r in codes && path + [!bit] <= r;
      assert path == r[..|path|] && r[|path|] == !bit;
      assert r in Under(codes, path);
    }
    forall r | r in Under(codes, path) && r[|path|] != bit
      ensures Has(codes, path + [!bit])
    {
      assert path + [!bit] <= r;
    }
  }

  lemma AdvancePath(codes: set<Rom>, start: Context, path: seq<bool>, turn: bool)
    requires |path| < ROM_BITS && SameWalk(codes, start, path) && turn == Turn(codes, start, path)
    ensures SameWalk(codes, start, path + [turn])
    ensures DeepestFork(codes, path + [turn]) ==
            if !turn && Collision(codes, path) then |path| else DeepestFork(codes, path)
  {
    TurnKeeps(codes, start, path);
    assert (path + [turn])[..|path|] == path;
  }

  lemma Narrow(codes: set<Rom>, path: seq<bool>, turn: bool)
    requires |path| < ROM_BITS
    ensures Agreeing(Under(codes, path), |path|, turn) == Under(codes, path + [turn])
  {
    forall r: Rom
      ensures path <= r && r[|path|] == turn <==> path + [turn] <= r
    {
      if path <= r && r[|path|] == turn {
        assert r[..|path| + 1] == path + [turn];
      }
    }
  }

  /** One index further down the walk. */
  lemma Advance(codes: set<Rom>, start: Context, id: Rom, index: nat, fork: nat, turn: bool, nextFork: nat)
    requires index < ROM_BITS && OnWalk(codes, start, id, index, fork) && codes != {}
    requires turn == Turn(codes, start.(id := id), id[..index])
    requires nextFork == if !turn && Collision(codes, id[..index]) then index else fork
    ensures OnWalk(codes, start, id[index := turn], index + 1, nextFork)
    ensures Agreeing(Under(codes, id[..index]), index, turn) == Under(codes, id[index := turn][..index + 1])
  {
    TurnAt(id, start.id, index, turn);
    AdvancePath(codes, start, id[..index], turn);
    Narrow(codes, id[..index], turn);
  }

  lemma TurnAt(id: Rom, before: Rom, index: nat, turn: bool)
    requires index < ROM_BITS && id[index..] == before[index..]
    ensures id[index] == before[index]
    ensures id[index := turn][..index + 1] == id[..index] + [turn]
    ensures id[index := turn][index + 1..] == before[index + 1..]
  {
    assert id[index] == id[index..][0] == before[index..][0];
    assert id[index + 1..] == id[index..][1..] == before[index..][1..];
  }

  /** The direction steered is the turn of the walk. */
  lemma Steered(codes: set<Rom>, start: Context, id: Rom, index: nat, fork: nat, value: bool, complement: bool,
                turn: bool, nextFork: nat)
    requires index < ROM_BITS && OnWalk(codes, start, id, index, fork)
    requires value == !Has(codes, id[..index] + [false]) && complement == !Has(codes, id[..index] + [true])
    requires !(value && complement)
    requires turn == if value || complement then value else if index < start.fork then id[index] else index == start.fork
    requires nextFork == if value || complement || turn then fork else index
    ensures codes != {} && OnWalk(codes, start, id[index := turn], index + 1, nextFork)
    ensures Agreeing(Under(codes, id[..index]), index, turn) == Under(codes, id[index := turn][..index + 1])
  {
    Advance(codes, start, id, index, fork, turn, nextFork);
  }

  /** The per-index invariant of a search as it is meant: below index i the path lies on the walk, the
      active devices are exactly those whose first i bits are the path, and the fork is the deepest one
      so far. No device answers only if there is none. */
  lemma RoundOnWalk(codes: set<Rom>, start: Context, before: Outcome, index: nat)
    requires index < ROM_BITS && before.answered && before.active == Under(codes, before.id[..index])
    requires OnWalk(codes, start, before.id, index, before.fork)
    ensures var after := Round(Meant, start.fork, before, index);
      && (after.answered <==> codes != {})
      && (after.answered ==>
            && after.active == Under(codes, after.id[..index + 1])
            && OnWalk(codes, start, after.id, index + 1, after.fork))
      && (!after.answered ==> after.id == before.id)
  {
    var path := before.id[..index];
    var value, complement := Slot(before.active, index, true), Slot(before.active, index, false);
    SlotsBelow(codes, path, true);
    SlotsBelow(codes, path, false);
    NobodyLeft(before.active, index);
    if codes != {} { HasUnder(codes, path); }
    if !(value && complement) {
      MeantDirection(start.fork, before.id, index, value, complement);
      var turn := Directed(Meant, start.fork, before.id, index, value, complement)[index];
      Steered(codes, start, before.id, index, before.fork, value, complement, turn,
              if value || complement || turn then before.fork else index);
    }
  }

  lemma HasUnder(codes: set<Rom>, path: seq<bool>)
    requires Has(codes, path)
    ensures Under(codes, path) != {}
  {
    var r :| r in codes && path <= r;
    assert r in Under(codes, path);
  }

  lemma MeantDirection(turn: nat, id: Rom, index: nat, value: bool, complement: bool)
    requires index < ROM_BITS
    ensures var directed := Directed(Meant, turn, id, index, value, complement);
      && directed == id[index := if value || complement then value else if index < turn then id[index] else index == turn]
      && GetBit(Meant, directed, index) == directed[index]
  {
    MeantBits(id, index, if value || complement then value else index == turn);
    MeantBits(Directed(Meant, turn, id, index, value, complement), index, false);
  }

  /** Hence the rounds find the end of the walk. */
  lemma {:induction false} RoundsWalk(codes: set<Rom>, start: Context, before: Outcome, index: nat)
    requires index <= ROM_BITS && before.answered && before.active == Under(codes, before.id[..index])
    requires OnWalk(codes, start, before.id, index, before.fork)
    ensures var end := Rounds(Meant, start.fork, before, index);
      && (end.answered <==> codes != {})
      && (end.answered ==> OnWalk(codes, start, end.id, ROM_BITS, end.fork) && end.active == Under(codes, end.id))
      && (!end.answered ==> end.id == before.id)
    decreases ROM_BITS - index
  {
    if index == ROM_BITS {
      assert before.id[..ROM_BITS] == before.id;
    } else {
      var after := Round(Meant, start.fork, before, index);
      RoundOnWalk(codes, start, before, index);
      if after.answered { RoundsWalk(codes, start, after, index + 1); }
    }
  }

  /** A call in the mode that is meant does what it is meant to do. */
  lemma CallIsSearch(codes: set<Rom>, context: Context)
    ensures Call(Meant, codes, context) == Search(codes, context)
    ensures !context.done && codes != {} ==>
            Rounds(Meant, context.fork, Outcome(context.id, 0, codes, true), 0).active == {Search(codes, context).0.id}
  {
    var before := Outcome(context.id, 0, codes, true);
    assert before.id[..0] == [] && Under(codes, []) == codes;
    if codes != {} { NonEmptyHas(codes); }
    RoundsWalk(codes, context, before, 0);
    var end := Rounds(Meant, context.fork, before, 0);
    if codes != {} { WalkEnds(codes, context, end.id, end.fork); }
  }

  lemma WalkEnds(codes: set<Rom>, start: Context, id: Rom, fork: nat)
    requires OnWalk(codes, start, id, ROM_BITS, fork)
    ensures codes != {} && id == Walk(codes, start, []) && fork == DeepestFork(codes, id)
    ensures Under(codes, id) == {id}
  {
    assert id[..ROM_BITS] == id;
    assert forall r :: r in codes && id <= r ==> r == id;
  }
}
