/** What the channels of a CAN node do as its packets show it: writes and the requests after them, clock
    ticks, and power cycles (firmware/stm8/can_node/mod_switch.c, mod_button.c, mod_proto.c, module.c). */
module CanNodeChannels {
  import opened CanNode
  import opened CanNodeBoard

  lemma AddressParts(channel: nat, field: Byte)
    requires channel < CHANNELS
    ensures ChannelAddress(channel, field) / 256 == 0x80 + channel && ChannelAddress(channel, field) % 256 == field
  {
  }

  // --- Only clock ticks ---

  ghost predicate OnlyTicks(events: seq<(Event, Pins)>) {
    forall i | 0 <= i < |events| :: events[i].0 == Ticks
  }

  /** A tick goes to every channel with a timer, and to nothing else. */
  lemma {:induction false} TickIsPerChannel(n: Node, channels: nat, pins: Pins, i: nat)
    requires Sized(n) && channels <= CHANNELS && i < CHANNELS
    ensures var t := Tick(n, channels, pins);
      && t.modules == n.modules && t.analogs == n.analogs
      && t.switches[i] == (if i < channels && n.modules[i] == SwitchModule then SwitchTick(n.switches[i]) else n.switches[i])
      && t.buttons[i] == (if i < channels && n.modules[i] == ButtonModule then SetState(n.buttons[i], pins[i]) else n.buttons[i])
    decreases channels
  {
    if channels > 0 { TickIsPerChannel(n, channels - 1, pins, i); }
  }

  lemma {:induction false} TickedFirst(s: Switch, ticks: nat)
    ensures Ticked(SwitchTick(s), ticks) == Ticked(s, ticks + 1)
    decreases ticks
  {
    if ticks > 0 { TickedFirst(s, ticks - 1); }
  }

  lemma ClockTick(mode: SaveMode, b: Board, pins: Pins, i: nat)
    requires Inv(b) && i < CHANNELS
    ensures var t := Next(mode, b, Ticks, pins);
      && Inv(t) && t.node.modules == b.node.modules
      && t.node.switches[i] ==
         (if b.node.modules[i] == SwitchModule then SwitchTick(b.node.switches[i]) else b.node.switches[i])
      && t.node.buttons[i] ==
         (if b.node.modules[i] == ButtonModule then SetState(b.node.buttons[i], pins[i]) else b.node.buttons[i])
  {
    StepKeepsInv(mode, b, Ticks, pins);
    TickIsPerChannel(b.node, CHANNELS, pins, i);
  }

  /** The state of a button after it was updated at these pin levels. */
  function Updated(b: Button, levels: seq<bool>): Button
    decreases levels
  {
    if levels == [] then b else Updated(SetState(b, levels[0]), levels[1..])
  }

  function Levels(events: seq<(Event, Pins)>, channel: nat): (levels: seq<bool>)
    requires channel < CHANNELS
    ensures |levels| == |events| && forall i | 0 <= i < |events| :: levels[i] == events[i].1[channel]
  {
    seq(|events|, i requires 0 <= i < |events| => events[i].1[channel])
  }

  lemma {:induction false} TicksOfChannel(mode: SaveMode, b: Board, events: seq<(Event, Pins)>, channel: nat)
    requires Inv(b) && OnlyTicks(events) && channel < CHANNELS
    ensures var t := End(mode, b, events);
      && t.node.modules == b.node.modules
      && (b.node.modules[channel] == SwitchModule ==>
            t.node.switches[channel] == Ticked(b.node.switches[channel], |events|))
      && (b.node.modules[channel] == ButtonModule ==>
            t.node.buttons[channel] == Updated(b.node.buttons[channel], Levels(events, channel)))
    decreases events
  {
    if events != [] {
      var next := Next(mode, b, Ticks, events[0].1);
      assert events[0].0 == Ticks;
      ClockTick(mode, b, events[0].1, channel);
      TicksOfChannel(mode, next, events[1..], channel);
      TickedFirst(b.node.switches[channel], |events| - 1);
      assert Levels(events, channel)[1..] == Levels(events[1..], channel);
    }
  }

  // --- Switches ---

  /** What the request for a channel's value gives. */
  function ValueOf(b: Board, channel: nat): seq<seq<Byte>>
    requires Sized(b.node) && channel < CHANNELS
  {
    HandleRequest(b.node, ChannelAddress(channel, 1))
  }

  /** Writing a switch's value turns it on or off, and that is what a request then gives. */
  lemma SwitchReadsBack(mode: SaveMode, b: Board, channel: nat, value: Byte, pins: Pins)
    requires Inv(b) && channel < CHANNELS && b.node.modules[channel] == SwitchModule
    ensures var t := Next(mode, b, Writes(ChannelAddress(channel, 1), [value]), pins);
      && ValueOf(t, channel) == [[if value == 0 then 0 else 1]]
      && t == b.(node := b.node.(switches := b.node.switches[channel :=
           b.node.switches[channel].(on := value != 0, offTimer := 0)]))
  {
    AddressParts(channel, 1);
  }

  lemma {:induction false} StaysAsItIs(s: Switch, ticks: nat)
    requires !s.on || !Bit(s.config, 4)
    ensures Ticked(s, ticks) == s
    decreases ticks
  {
    if ticks > 0 { StaysAsItIs(s, ticks - 1); }
  }

  /** A switch that is turned on over the bus stays on for good without an off delay in force; with one it
      is on before the delay-th clock tick and off from it on, and off from the first if the delay is 0.
      One that is turned off stays off. */
  lemma {:induction false} SwitchObeysDelay(
      mode: SaveMode, b: Board, channel: nat, value: Byte, pins: Pins, events: seq<(Event, Pins)>)
    requires Inv(b) && channel < CHANNELS && b.node.modules[channel] == SwitchModule && OnlyTicks(events)
    requires Inv(Next(mode, b, Writes(ChannelAddress(channel, 1), [value]), pins))
    ensures var s := b.node.switches[channel];
      ValueOf(End(mode, Next(mode, b, Writes(ChannelAddress(channel, 1), [value]), pins), events), channel) ==
      [[if value != 0 && (!Bit(s.config, 4) || events == [] || |events| < s.offDelay) then 1 else 0]]
  {
    var t := Next(mode, b, Writes(ChannelAddress(channel, 1), [value]), pins);
    var s := t.node.switches[channel];
    SwitchReadsBack(mode, b, channel, value, pins);
    TicksOfChannel(mode, t, events, channel);
    AddressParts(channel, 1);
    if s.on && Bit(s.config, 4) { SwitchGoesOff(s, |events|); } else { StaysAsItIs(s, |events|); }
  }

  // --- Buttons ---

  /** Whether the button is held down, by its pin and its polarity. */
  predicate Held(b: Button, pin: bool) {
    pin != Bit(b.config, 1)
  }

  lemma {:induction false} UpdatedFollows(b: Button, levels: seq<bool>)
    requires levels != []
    ensures Updated(b, levels).config == b.config
    ensures Updated(b, levels).pressed ==
            if Bit(b.config, 4) then b.pressed || exists i :: 0 <= i < |levels| && Held(b, levels[i])
            else Held(b, levels[|levels| - 1])
    decreases levels
  {
    var next := SetState(b, levels[0]);
    if |levels| == 1 {
      assert levels[1..] == [];
    } else {
      UpdatedFollows(next, levels[1..]);
      assert forall i | 1 <= i < |levels| :: levels[i] == levels[1..][i - 1];
      assert (exists i :: 0 <= i < |levels| && Held(b, levels[i])) <==>
             Held(b, levels[0]) || exists i :: 0 <= i < |levels[1..]| && Held(next, levels[1..][i]);
    }
  }

  /** Over clock ticks a button follows its pin; one that locks stays pressed once it was, or was found held
      down by a tick. */
  lemma ButtonFollowsPin(mode: SaveMode, b: Board, events: seq<(Event, Pins)>, channel: nat)
    requires Inv(b) && OnlyTicks(events) && events != [] && channel < CHANNELS && b.node.modules[channel] == ButtonModule
    ensures var was, levels := b.node.buttons[channel], Levels(events, channel);
      ValueOf(End(mode, b, events), channel) ==
      [[if (if Bit(was.config, 4) then was.pressed || exists i :: 0 <= i < |levels| && Held(was, levels[i])
            else Held(was, levels[|levels| - 1])) then 1 else 0]]
  {
    TicksOfChannel(mode, b, events, channel);
    UpdatedFollows(b.node.buttons[channel], Levels(events, channel));
    AddressParts(channel, 1);
  }

  /** Writing 0 lets go of a button that is locked; a request then gives what the pin says. Other values
      change nothing. */
  lemma ButtonReleases(mode: SaveMode, b: Board, channel: nat, value: Byte, pins: Pins)
    requires Inv(b) && channel < CHANNELS && b.node.modules[channel] == ButtonModule
    ensures var t, was := Next(mode, b, Writes(ChannelAddress(channel, 1), [value]), pins), b.node.buttons[channel];
      ValueOf(t, channel) == [[if (if value == 0 then Held(was, pins[channel]) else was.pressed) then 1 else 0]]
  {
    AddressParts(channel, 1);
  }

  /** A new configuration takes effect at once, but does not let go of a button that it locks. */
  lemma ButtonReconfigured(mode: SaveMode, b: Board, channel: nat, value: Byte, pins: Pins)
    requires Inv(b) && channel < CHANNELS && b.node.modules[channel] == ButtonModule
    ensures var t, was := Next(mode, b, Writes(ChannelAddress(channel, 0), [value]), pins), b.node.buttons[channel];
      var config: Byte := value % 16;
      ValueOf(t, channel) ==
      [[if (if config == was.config || (Bit(config, 4) && was.pressed) then was.pressed
            else Held(Button(config, false), pins[channel])) then 1 else 0]]
  {
    AddressParts(channel, 0);
    AddressParts(channel, 1);
  }

  // --- Functions ---

  /** A function number written over the bus is read back and gives the channel its module, if there is such
      a function; otherwise nothing changes. Other channels keep theirs. */
  lemma FunctionReadsBack(mode: SaveMode, b: Board, channel: nat, id: Byte, pins: Pins, other: nat)
    requires Inv(b) && channel < CHANNELS && other < CHANNELS
    ensures var address: Word := 0x0180 + channel;
      var t := Next(mode, b, Writes(address, [id]), pins);
      && HandleRequest(t.node, 0x0180 + other) ==
         [[if other == channel && id < FUNCTIONS then id else b.node.ids[other]]]
      && t.node.modules[other] == Registered(t.node.ids[other])
      && t == b.(node := b.node.(ids := t.node.ids, modules := t.node.modules))
      && (id >= FUNCTIONS ==> t == b)
  {
    var address: Word := 0x0180 + channel;
    assert address / 256 == 1 && address % 256 == 0x80 + channel;
    var asked: Word := 0x0180 + other;
    assert asked / 256 == 1 && asked % 256 == 0x80 + other;
  }

  // --- Writes touch one field ---

  lemma ChannelWritten(mode: SaveMode, b: Board, channel: nat, field: Byte, data: seq<Byte>, pins: Pins)
    requires Inv(b) && channel < CHANNELS
    ensures Next(mode, b, Writes(ChannelAddress(channel, field), data), pins) ==
            b.(node := ChannelWrite(b.node, channel, field, data, pins))
    ensures var n := ChannelWrite(b.node, channel, field, data, pins); n.name == b.node.name && n.ids == b.node.ids && Sized(n)
  {
    AddressParts(channel, field);
  }

  /** A write to a field of a channel leaves every other request as it was, but for the state of a button
      whose configuration is written. */
  lemma WriteLeavesOthers(mode: SaveMode, b: Board, channel: nat, field: Byte, data: seq<Byte>, pins: Pins, asked: Word)
    requires Inv(b) && channel < CHANNELS && asked != ChannelAddress(channel, field)
    requires !(b.node.modules[channel] == ButtonModule && field == 0 && asked == ChannelAddress(channel, 1))
    ensures var t := Next(mode, b, Writes(ChannelAddress(channel, field), data), pins);
      HandleRequest(t.node, asked) == HandleRequest(b.node, asked) && t.eeprom == b.eeprom
  {
    var index, low := asked / 256, asked % 256;
    ChannelWritten(mode, b, channel, field, data, pins);
    if 0x80 <= index < 0x80 + CHANNELS {
      assert asked == ChannelAddress(index - 0x80, low);
      FieldStays(b.node, channel, field, data, pins, index - 0x80, low);
    }
    RequestsStay(b.node, ChannelWrite(b.node, channel, field, data, pins), asked);
  }

  lemma RequestsStay(n: Node, t: Node, asked: Word)
    requires Sized(n) && Sized(t) && t.name == n.name && t.ids == n.ids
    requires var index := asked / 256;
      0x80 <= index < 0x80 + CHANNELS ==>
        ChannelRequest(t, index - 0x80, asked % 256) == ChannelRequest(n, index - 0x80, asked % 256)
    ensures HandleRequest(t, asked) == HandleRequest(n, asked)
  {
  }

  lemma FieldStays(n: Node, channel: nat, field: Byte, data: seq<Byte>, pins: Pins, other: nat, low: Byte)
    requires Sized(n) && channel < CHANNELS && other < CHANNELS && !(other == channel && low == field)
    requires !(n.modules[channel] == ButtonModule && other == channel && field == 0 && low == 1)
    ensures ChannelRequest(ChannelWrite(n, channel, field, data, pins), other, low) == ChannelRequest(n, other, low)
  {
  }

  // --- Power cycles ---

  /** After a write that saves the EEPROM holds the node as it then is. */
  lemma SavingHolds(mode: SaveMode, b: Board, address: Word, data: seq<Byte>, pins: Pins)
    requires Inv(b) && Saves(Writes(address, data))
    ensures var t := Next(mode, b, Writes(address, data), pins);
      && Image(mode, t.node) <= t.eeprom
      && t.eeprom[|Image(mode, t.node)|..] == b.eeprom[|Image(mode, t.node)|..]
      && t.node == if address == 4 then b.node.(name := NameOf(data)) else b.node
  {
  }

  lemma NameRequest(n: Node)
    requires Sized(n)
    ensures HandleRequest(n, 4) == [n.name[..NameLength(n.name)]]
  {
    var address: Word := 4;
    assert address / 256 == 0 && address % 256 == 4;
  }

  lemma NameWritten(mode: SaveMode, b: Board, address: Word, data: seq<Byte>, pins: Pins)
    requires Inv(b) && address == 4
    ensures var t := Next(mode, b, Writes(address, data), pins);
      Inv(t) && Image(mode, t.node) <= t.eeprom && t.node.name == NameOf(data)
  {
    StepKeepsInv(mode, b, Writes(address, data), pins);
    SavingHolds(mode, b, address, data, pins);
  }

  /** So a name that was written is there after a power cycle. */
  lemma NameIsKept(mode: SaveMode, b: Board, address: Word, data: seq<Byte>, before: Pins, pins: Pins)
    requires Inv(b) && address == 4 && |data| <= NAME_SIZE
    ensures var written := Next(mode, b, Writes(address, data), before);
      && |written.eeprom| == EEPROM_SIZE
      && Sized(Boot(written.eeprom, pins).node)
      && HandleRequest(Boot(written.eeprom, pins).node, address) == [data[..NameLength(data)]]
  {
    NameWritten(mode, b, address, data, before);
    StartsWithName(mode, Next(mode, b, Writes(address, data), before), data, pins);
  }

  lemma StartsWithName(mode: SaveMode, b: Board, data: seq<Byte>, pins: Pins)
    requires Inv(b) && Image(mode, b.node) <= b.eeprom && |data| <= NAME_SIZE && b.node.name == NameOf(data)
    ensures Sized(Boot(b.eeprom, pins).node) && HandleRequest(Boot(b.eeprom, pins).node, 4) == [data[..NameLength(data)]]
  {
    RoundTrip(mode, b.node, INITIAL, b.eeprom, pins);
    PowerOnIsValid(b.eeprom, pins);
    NameRequest(Boot(b.eeprom, pins).node);
    PaddedName(data);
  }

  lemma {:induction false} LoadedStates(n: Node, channels: nat, bytes: seq<Byte>, pins: Pins, i: nat)
    requires Sized(n) && channels <= CHANNELS && IMAGE_LIMIT <= |bytes| && i < channels
    ensures var t := LoadChannels(n, channels, bytes, pins).0;
      && (n.modules[i] == SwitchModule ==> t.switches[i].on == Bit(t.switches[i].config, 2) && t.switches[i].offTimer == 0)
      && (n.modules[i] == ButtonModule ==> t.buttons[i].pressed == Held(t.buttons[i], pins[i]))
    decreases channels
  {
    if i < channels - 1 { LoadedStates(n, channels - 1, bytes, pins, i); }
  }

  /** Whatever the EEPROM holds, after a power cycle a switch is on exactly if its configuration asks for it,
      and a button is pressed exactly if it is held down. */
  lemma StatesAfterPowerCycle(mode: SaveMode, b: Board, pins: Pins, channel: nat)
    requires Inv(b) && channel < CHANNELS
    ensures var t := Next(mode, b, PowerCycles, pins);
      && Sized(t.node)
      && (t.node.modules[channel] == SwitchModule ==>
            ValueOf(t, channel) == [[if Bit(t.node.switches[channel].config, 2) then 1 else 0]])
      && (t.node.modules[channel] == ButtonModule ==>
            ValueOf(t, channel) == [[if Held(t.node.buttons[channel], pins[channel]) then 1 else 0]])
  {
    var bytes := b.eeprom;
    PowerOnIsValid(bytes, pins);
    AddressParts(channel, 1);
    if bytes[0] == HEADER {
      var withIds := LoadIds(INITIAL.(deviceId := bytes[1], name := bytes[2..10]), CHANNELS, bytes);
      LoadedStates(withIds, CHANNELS, bytes, pins, channel);
    }
  }

  /** Setting the device id saves everything and starts anew under this id. */
  lemma IdIsSet(mode: SaveMode, b: Board, id: Byte, pins: Pins)
    requires Inv(b)
    ensures var t := Next(mode, b, SetsId(id), pins); var meant := b.node.(deviceId := id);
      && Inv(t)
      && (Restored(t.node, meant) <==> SensorsSurvive(mode, meant))
      && t.node.deviceId == id && t.node.name == b.node.name && t.node.ids == b.node.ids
  {
    var meant := b.(node := b.node.(deviceId := id));
    var saved := Save(mode, meant);
    RoundTrip(mode, meant.node, INITIAL, saved.eeprom, pins);
  }
}
