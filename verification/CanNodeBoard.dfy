/** The board with its EEPROM: packets, clock ticks and power cycles
    (firmware/stm8/can_node/module.c, mod_proto.c, sysinfo.c and the channel modules). */
module CanNodeBoard {
  import opened CanNode

  const EEPROM_SIZE: nat := 2048

  datatype Board = Board(node: Node, eeprom: seq<Byte>)

  predicate Inv(b: Board) {
    Valid(b.node) && |b.eeprom| == EEPROM_SIZE
  }

  function Save(mode: SaveMode, b: Board): Board
    requires Sized(b.node) && |b.eeprom| == EEPROM_SIZE
  {
    var image := Image(mode, b.node);
    b.(eeprom := image + b.eeprom[|image|..])
  }

  // --- Writes ---

  function SwitchWrite(s: Switch, address: Byte, data: seq<Byte>): Switch {
    if address == 0 && |data| == 1 then s.(config := data[0] % 8)
    else if address == 1 && |data| == 1 then s.(on := data[0] != 0, offTimer := 0)
    else if address == 2 && |data| == 2 then s.(offDelay := ToWord(data[0], data[1]))
    else s
  }

  function ButtonWrite(b: Button, address: Byte, data: seq<Byte>, pin: bool): Button {
    if address == 0 && |data| == 1 && b.config != data[0] % 16 then SetState(b.(config := data[0] % 16), pin)
    else if address == 1 && data == [0] then SetState(b.(pressed := false), pin)
    else b
  }

  function AnalogWrite(a: Analog, address: Byte, data: seq<Byte>): Analog {
    if address == 0 && |data| == 1 then a.(config := data[0] % 4)
    else if address == 1 && |data| == 4 then
      a.(rangeMin := ToWord(data[0], data[1]), rangeMax := ToWord(data[2], data[3]))
    else a
  }

  function ChannelWrite(n: Node, channel: nat, address: Byte, data: seq<Byte>, pins: Pins): Node
    requires Sized(n) && channel < CHANNELS
  {
    match n.modules[channel]
    case SwitchModule => n.(switches := n.switches[channel := SwitchWrite(n.switches[channel], address, data)])
    case ButtonModule =>
      n.(buttons := n.buttons[channel := ButtonWrite(n.buttons[channel], address, data, pins[channel])])
    case AnalogModule => n.(analogs := n.analogs[channel := AnalogWrite(n.analogs[channel], address, data)])
    case _ => n
  }

  function NameOf(data: seq<Byte>): (name: seq<Byte>)
    ensures |name| == NAME_SIZE
  {
    seq(NAME_SIZE, i requires 0 <= i < NAME_SIZE => if i < |data| then data[i] else 0)
  }

  /** proto_write for a function number, or nothing. */
  function ProtoWrite(n: Node, address: Byte, data: seq<Byte>): Node
    requires Sized(n)
  {
    if 0x80 <= address < 0x80 + CHANNELS && |data| == 1 && data[0] < FUNCTIONS then
      SetChannel(n, address - 0x80, data[0])
    else n
  }

  /** CAN_Node_handle_packet for data */
  function HandleWrite(mode: SaveMode, b: Board, address: Word, data: seq<Byte>, pins: Pins): Board
    requires Sized(b.node) && |b.eeprom| == EEPROM_SIZE
  {
    var index, low := address / 256, address % 256;
    if index == 0 then if low == 4 then Save(mode, b.(node := b.node.(name := NameOf(data)))) else b
    else if index == 1 then if low == 0 then Save(mode, b) else b.(node := ProtoWrite(b.node, low, data))
    else if 0x80 <= index < 0x80 + CHANNELS then b.(node := ChannelWrite(b.node, index - 0x80, low, data, pins))
    else b
  }

  // --- Requests ---

  function ChannelRequest(n: Node, channel: nat, address: Byte): seq<seq<Byte>>
    requires Sized(n) && channel < CHANNELS
  {
    match n.modules[channel]
    case SwitchModule =>
      var s := n.switches[channel];
      if address == 0 then [[s.config]]
      else if address == 1 then [[if s.on then 1 else 0]]
      else if address == 2 then [[Hi(s.offDelay), Lo(s.offDelay)]]
      else []
    case ButtonModule =>
      var b := n.buttons[channel];
      if address == 0 then [[b.config]] else if address == 1 then [[if b.pressed then 1 else 0]] else []
    case AnalogModule =>
      var a := n.analogs[channel];
      if address == 0 then [[a.config]]
      else if address == 1 then [[Hi(a.rangeMin), Lo(a.rangeMin), Hi(a.rangeMax), Lo(a.rangeMax)]]
      else []
    case _ => []
  }

  /** label_length */
  function NameLength(name: seq<Byte>): (k: nat)
    ensures k <= |name| && (k < |name| ==> name[k] == 0) && forall i | 0 <= i < k :: name[i] != 0
  {
    if name == [] || name[0] == 0 then 0 else 1 + NameLength(name[1..])
  }

  /** The replies to a request, for the addresses whose value is part of the node. */
  function HandleRequest(n: Node, address: Word): seq<seq<Byte>>
    requires Sized(n)
  {
    var index, low := address / 256, address % 256;
    if index == 0 then if low == 4 then [n.name[..NameLength(n.name)]] else []
    else if index == 1 then
      if low == 1 then [[CHANNELS]] else if 0x80 <= low < 0x80 + CHANNELS then [[n.ids[low - 0x80]]] else []
    else if 0x80 <= index < 0x80 + CHANNELS then ChannelRequest(n, index - 0x80, low)
    else []
  }

  function ChannelAddress(channel: nat, field: Byte): Word
    requires channel < CHANNELS
  {
    256 * (0x80 + channel) + field
  }

  /** How many bits of a configuration byte a module keeps. */
  function ConfigValues(m: Module): nat {
    match m case SwitchModule => 8 case ButtonModule => 16 case AnalogModule => 4 case _ => 1
  }

  /** What is written to a channel's configuration is read back, cut to the bits there are. */
  lemma ConfigReadsBack(mode: SaveMode, b: Board, channel: nat, value: Byte, pins: Pins)
    requires Inv(b) && channel < CHANNELS && b.node.modules[channel] in {SwitchModule, ButtonModule, AnalogModule}
    ensures HandleRequest(HandleWrite(mode, b, ChannelAddress(channel, 0), [value], pins).node, ChannelAddress(channel, 0)) ==
            [[value % ConfigValues(b.node.modules[channel])]]
  {
    var address := ChannelAddress(channel, 0);
    assert address / 256 == 0x80 + channel && address % 256 == 0;
  }

  lemma BytesOfWord(hi: Byte, lo: Byte)
    ensures Hi(ToWord(hi, lo)) == hi && Lo(ToWord(hi, lo)) == lo
  {
  }

  /** Off delays and ranges are read back as they were written. */
  lemma WordsReadBack(mode: SaveMode, b: Board, channel: nat, data: seq<Byte>, pins: Pins)
    requires Inv(b) && channel < CHANNELS
    ensures b.node.modules[channel] == SwitchModule && |data| == 2 ==>
            HandleRequest(HandleWrite(mode, b, ChannelAddress(channel, 2), data, pins).node, ChannelAddress(channel, 2)) == [data]
    ensures b.node.modules[channel] == AnalogModule && |data| == 4 ==>
            HandleRequest(HandleWrite(mode, b, ChannelAddress(channel, 1), data, pins).node, ChannelAddress(channel, 1)) == [data]
  {
    assert ChannelAddress(channel, 2) / 256 == 0x80 + channel && ChannelAddress(channel, 2) % 256 == 2;
    assert ChannelAddress(channel, 1) / 256 == 0x80 + channel && ChannelAddress(channel, 1) % 256 == 1;
    if |data| == 2 {
      BytesOfWord(data[0], data[1]);
      assert data == [data[0], data[1]];
    }
    if |data| == 4 {
      BytesOfWord(data[0], data[1]);
      BytesOfWord(data[2], data[3]);
      assert data == [data[0], data[1], data[2], data[3]];
    }
  }

  lemma NameEnds(name: seq<Byte>, k: nat)
    requires k <= |name| && (k < |name| ==> name[k] == 0) && forall i | 0 <= i < k :: name[i] != 0
    ensures NameLength(name) == k
  {
  }

  lemma PaddedName(data: seq<Byte>)
    requires |data| <= NAME_SIZE
    ensures var k := NameLength(NameOf(data)); k == NameLength(data) && NameOf(data)[..k] == data[..k]
  {
    var name := NameOf(data);
    assert forall i | 0 <= i < |data| :: name[i] == data[i];
    NameEnds(name, NameLength(data));
  }

  /** A name of at most eight bytes is read back up to its first zero. */
  lemma NameReadsBack(mode: SaveMode, b: Board, data: seq<Byte>, pins: Pins)
    requires Inv(b) && |data| <= NAME_SIZE
    ensures HandleRequest(HandleWrite(mode, b, 4, data, pins).node, 4) == [data[..NameLength(data)]]
  {
    PaddedName(data);
    var address: Word := 4;
    assert HandleWrite(mode, b, address, data, pins).node.name == NameOf(data);
  }

  // --- Ticks ---

  function SwitchTick(s: Switch): Switch {
    if !s.on || !Bit(s.config, 4) then s else
    var timer := (s.offTimer + 1) % 0x1_0000;
    if timer >= s.offDelay then s.(on := false, offTimer := 0) else s.(offTimer := timer)
  }

  function ChannelTick(n: Node, channel: nat, pins: Pins): Node
    requires Sized(n) && channel < CHANNELS
  {
    match n.modules[channel]
    case SwitchModule => n.(switches := n.switches[channel := SwitchTick(n.switches[channel])])
    case ButtonModule => n.(buttons := n.buttons[channel := SetState(n.buttons[channel], pins[channel])])
    case _ => n
  }

  /** The first channels' ticks. (That `n` is in the decreases clause keeps the verifier from unfolding the
      ticks of all four.) */
  function Tick(n: Node, channels: nat, pins: Pins): (r: Node)
    requires Sized(n) && channels <= CHANNELS
    ensures Sized(r)
    decreases channels, n
  {
    if channels == 0 then n else ChannelTick(Tick(n, channels - 1, pins), channels - 1, pins)
  }

  function Ticked(s: Switch, ticks: nat): Switch {
    if ticks == 0 then s else SwitchTick(Ticked(s, ticks - 1))
  }

  /** A switch that was just turned on with an off delay in force goes off at its delay-th tick, and at
      the first one if the delay is 0. */
  lemma {:induction false} SwitchGoesOff(s: Switch, ticks: nat)
    requires s.on && Bit(s.config, 4) && s.offTimer == 0
    ensures Ticked(s, ticks).on <==> ticks == 0 || ticks < s.offDelay
    ensures Ticked(s, ticks).on ==> Ticked(s, ticks) == s.(offTimer := ticks)
  {
    if ticks > 0 { SwitchGoesOff(s, ticks - 1); }
  }

  // --- Runs ---

  datatype Event = Writes(address: Word, data: seq<Byte>) | SetsId(id: Byte) | Ticks | PowerCycles

  function Boot(eeprom: seq<Byte>, pins: Pins): Board
    requires |eeprom| == EEPROM_SIZE
  {
    Board(Load(INITIAL, eeprom, pins), eeprom)
  }

  /** Setting the device id saves and resets. */
  function Next(mode: SaveMode, b: Board, e: Event, pins: Pins): Board
    requires Sized(b.node) && |b.eeprom| == EEPROM_SIZE
  {
    match e
    case Writes(address, data) => HandleWrite(mode, b, address, data, pins)
    case SetsId(id) => Boot(Save(mode, b.(node := b.node.(deviceId := id))).eeprom, pins)
    case Ticks => b.(node := Tick(b.node, CHANNELS, pins))
    case PowerCycles => Boot(b.eeprom, pins)
  }

  /** The events that write to the EEPROM. */
  predicate Saves(e: Event) {
    e.SetsId? || (e.Writes? && (e.address == 0x0004 || e.address == 0x0100))
  }

  lemma {:induction false} TickKeeps(n: Node, channels: nat, pins: Pins)
    requires Sized(n) && channels <= CHANNELS
    ensures var t := Tick(n, channels, pins); t == n.(switches := t.switches, buttons := t.buttons)
    decreases channels
  {
    if channels > 0 { TickKeeps(n, channels - 1, pins); }
  }

  lemma StepKeepsInv(mode: SaveMode, b: Board, e: Event, pins: Pins)
    requires Inv(b)
    ensures Inv(Next(mode, b, e, pins))
    ensures !Saves(e) ==> Next(mode, b, e, pins).eeprom == b.eeprom
  {
    match e
    case Writes(address, data) =>
    case SetsId(id) => LoadIsValid(INITIAL, Save(mode, b.(node := b.node.(deviceId := id))).eeprom, pins);
    case Ticks => TickKeeps(b.node, CHANNELS, pins);
    case PowerCycles => LoadIsValid(INITIAL, b.eeprom, pins);
  }

  /** Each event comes with the pin levels it finds. */
  ghost function End(mode: SaveMode, b: Board, events: seq<(Event, Pins)>): (t: Board)
    requires Inv(b)
    ensures Inv(t)
    decreases events
  {
    if events == [] then b else
    StepKeepsInv(mode, b, events[0].0, events[0].1);
    End(mode, Next(mode, b, events[0].0, events[0].1), events[1..])
  }

  lemma {:induction false} ImageStays(mode: SaveMode, b: Board, events: seq<(Event, Pins)>)
    requires Inv(b) && forall i | 0 <= i < |events| :: !Saves(events[i].0)
    ensures End(mode, b, events).eeprom == b.eeprom
    decreases events
  {
    if events != [] {
      assert !Saves(events[0].0);
      StepKeepsInv(mode, b, events[0].0, events[0].1);
      ImageStays(mode, Next(mode, b, events[0].0, events[0].1), events[1..]);
    }
  }

  /** Whatever the EEPROM holds when the node is switched on, what it becomes is valid, and so is every
      board from there on. */
  lemma PowerOnIsValid(eeprom: seq<Byte>, pins: Pins)
    requires |eeprom| == EEPROM_SIZE
    ensures Inv(Boot(eeprom, pins))
  {
    LoadIsValid(INITIAL, eeprom, pins);
  }

  /** A power cycle after a save and the events `after` it brings back the device id, the name, the
      functions and the settings that were saved. */
  ghost predicate BroughtBack(mode: SaveMode, saved: Board, after: seq<(Event, Pins)>, pins: Pins)
    requires Inv(saved)
  {
    StepKeepsInv(mode, saved, Writes(0x0100, []), pins);
    Restored(Boot(End(mode, Next(mode, saved, Writes(0x0100, []), pins), after).eeprom, pins).node, saved.node)
  }

  /** When none of these events saves, everything comes back if and only if the sensors in use survive. */
  lemma {:induction false} SettingsSurvive(mode: SaveMode, saved: Board, after: seq<(Event, Pins)>, pins: Pins)
    requires Inv(saved) && forall i | 0 <= i < |after| :: !Saves(after[i].0)
    ensures BroughtBack(mode, saved, after, pins) <==> SensorsSurvive(mode, saved.node)
  {
    var b := Save(mode, saved);
    StepKeepsInv(mode, saved, Writes(0x0100, []), pins);
    assert Next(mode, saved, Writes(0x0100, []), pins) == b;
    ImageStays(mode, b, after);
    RoundTrip(mode, saved.node, INITIAL, b.eeprom, pins);
  }

  /** As the save is written it can be relied on, whatever is on the stack, if and only if no channel is
      analog. */
  lemma {:induction false} SettingsAlwaysSurvive(saved: Board, after: seq<(Event, Pins)>, pins: Pins)
    requires Inv(saved) && forall i | 0 <= i < |after| :: !Saves(after[i].0)
    ensures (forall mode: SaveMode | mode.Written? :: BroughtBack(mode, saved, after, pins)) <==> Sensorless(saved.node)
  {
    forall mode: SaveMode
      ensures BroughtBack(mode, saved, after, pins) <==> SensorsSurvive(mode, saved.node)
    {
      SettingsSurvive(mode, saved, after, pins);
    }
    SensorsNeverSure(saved.node);
  }
}
