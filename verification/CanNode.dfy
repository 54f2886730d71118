/** The CAN node's modules, what a packet or a clock tick does to them, and how they are saved to and
    loaded from the EEPROM (firmware/stm8/can_node). */
module CanNode {
  type Byte = n: nat | n < 256
  type Word = n: nat | n < 0x1_0000

  const CHANNELS: nat := 4
  const NAME_SIZE: nat := 8
  const HEADER: Byte := 0x53

  // Function ids; those of None and PWM have no module.
  const NONE: Byte := 0
  const FUNCTIONS: nat := 6

  datatype Module = NoModule | SwitchModule | ButtonModule | AnalogModule | ThermometerModule

  function Registered(id: Byte): Module {
    if id == 1 then SwitchModule
    else if id == 2 then ButtonModule
    else if id == 3 then AnalogModule
    else if id == 5 then ThermometerModule
    else NoModule
  }

  datatype Switch = Switch(config: Byte, on: bool, offDelay: Word, offTimer: Word)
  datatype Button = Button(config: Byte, pressed: bool)
  datatype Analog = Analog(config: Byte, rangeMin: Word, rangeMax: Word)

  datatype Node = Node(
    deviceId: Byte, name: seq<Byte>, ids: seq<Byte>, modules: seq<Module>,
    switches: seq<Switch>, buttons: seq<Button>, analogs: seq<Analog>)

  const INITIAL: Node := Node(
    0xff, [0, 0, 0, 0, 0, 0, 0, 0], [0, 0, 0, 0], [NoModule, NoModule, NoModule, NoModule],
    [OFF, OFF, OFF, OFF], [RELEASED, RELEASED, RELEASED, RELEASED], [UNUSED, UNUSED, UNUSED, UNUSED])

  const OFF: Switch := Switch(0, false, 0, 0)
  const RELEASED: Button := Button(0, false)
  const UNUSED: Analog := Analog(0, 0, 0)

  predicate Sized(n: Node) {
    |n.name| == NAME_SIZE && |n.ids| == |n.modules| == |n.switches| == |n.buttons| == |n.analogs| == CHANNELS
  }

  /** Every channel has the module of its function. */
  predicate Valid(n: Node) {
    Sized(n) && forall i | 0 <= i < CHANNELS :: n.ids[i] < FUNCTIONS && n.modules[i] == Registered(n.ids[i])
  }

  predicate Bit(config: Byte, mask: nat)
    requires mask > 0
  {
    config / mask % 2 == 1
  }

  function Hi(w: Word): Byte {
    w / 256
  }

  function Lo(w: Word): Byte {
    w % 256
  }

  function ToWord(hi: Byte, lo: Byte): Word {
    256 * hi + lo
  }

  // --- Saving ---

  /** How analog_save fills its buffer: as it is meant, or as it is written, where both range bounds go
      to the buffer's start and its last three bytes keep what was on the stack. */
  datatype AnalogSave = Meant | Written(stack: seq<(Byte, Byte, Byte)>)

  type SaveMode = mode: AnalogSave | mode.Written? ==> |mode.stack| == 4 witness Meant

  function SwitchBytes(s: Switch): seq<Byte> {
    [s.config, Hi(s.offDelay), Lo(s.offDelay)]
  }

  function AnalogBytes(mode: SaveMode, channel: nat, a: Analog): seq<Byte>
    requires channel < CHANNELS
  {
    match mode
    case Meant => [a.config, Hi(a.rangeMin), Lo(a.rangeMin), Hi(a.rangeMax), Lo(a.rangeMax)]
    case Written(stack) => [Hi(a.rangeMax), Lo(a.rangeMax), stack[channel].0, stack[channel].1, stack[channel].2]
  }

  function ChannelBytes(mode: SaveMode, n: Node, channel: nat): seq<Byte>
    requires Sized(n) && channel < CHANNELS
  {
    match n.modules[channel]
    case SwitchModule => SwitchBytes(n.switches[channel])
    case ButtonModule => [n.buttons[channel].config]
    case AnalogModule => AnalogBytes(mode, channel, n.analogs[channel])
    case _ => []
  }

  // (In this and the loops below, that `n` is in the decreases clause keeps the verifier from unfolding all
  // four channels.)

  function ChannelsBytes(mode: SaveMode, n: Node, channels: nat): (bytes: seq<Byte>)
    requires Sized(n) && channels <= CHANNELS
    ensures |bytes| <= 5 * channels
    decreases channels, n
  {
    if channels == 0 then [] else ChannelsBytes(mode, n, channels - 1) + ChannelBytes(mode, n, channels - 1)
  }

  const FIXED_SIZE: nat := 14

  function FixedBytes(n: Node): (bytes: seq<Byte>)
    requires Sized(n)
    ensures |bytes| == FIXED_SIZE
  {
    [HEADER] + [n.deviceId] + n.name + n.ids
  }

  /** What CAN_Node_save_modules writes. */
  function Image(mode: SaveMode, n: Node): (bytes: seq<Byte>)
    requires Sized(n)
    ensures FIXED_SIZE <= |bytes| <= IMAGE_LIMIT
  {
    FixedBytes(n) + ChannelsBytes(mode, n, CHANNELS)
  }

  const IMAGE_LIMIT: nat := 34

  // --- Loading ---

  function LoadedSwitch(bytes: seq<Byte>, at: nat): Switch
    requires at + 3 <= |bytes|
  {
    Switch(bytes[at], Bit(bytes[at], 2), ToWord(bytes[at + 1], bytes[at + 2]), 0)
  }

  /** button_set_state; `pin` is the level read from the channel's pin. */
  function SetState(b: Button, pin: bool): Button {
    var current := pin != Bit(b.config, 1);
    if b.pressed == current || (Bit(b.config, 4) && b.pressed) then b else b.(pressed := current)
  }

  function LoadedAnalog(bytes: seq<Byte>, at: nat): Analog
    requires at + 5 <= |bytes|
  {
    Analog(bytes[at], ToWord(bytes[at + 1], bytes[at + 2]), ToWord(bytes[at + 3], bytes[at + 4]))
  }

  type Pins = pins: seq<bool> | |pins| == 4 witness [false, false, false, false]

  /** The node after a channel's on_load, and where the stream then is. */
  function LoadChannel(n: Node, channel: nat, bytes: seq<Byte>, at: nat, pins: Pins): (Node, nat)
    requires Sized(n) && channel < CHANNELS && at + 5 <= |bytes|
  {
    match n.modules[channel]
    case SwitchModule => (n.(switches := n.switches[channel := LoadedSwitch(bytes, at)]), at + 3)
    case ButtonModule =>
      (n.(buttons := n.buttons[channel := SetState(Button(bytes[at], false), pins[channel])]), at + 1)
    case AnalogModule => (n.(analogs := n.analogs[channel := LoadedAnalog(bytes, at)]), at + 5)
    case _ => (n, at)
  }

  function LoadChannels(n: Node, channels: nat, bytes: seq<Byte>, pins: Pins): (r: (Node, nat))
    requires Sized(n) && channels <= CHANNELS && IMAGE_LIMIT <= |bytes|
    ensures Sized(r.0) && r.0.modules == n.modules && r.0.ids == n.ids && r.0.name == n.name && r.0.deviceId == n.deviceId
    ensures r.1 <= FIXED_SIZE + 5 * channels
    decreases channels, n
  {
    if channels == 0 then (n, FIXED_SIZE) else
    var (before, at) := LoadChannels(n, channels - 1, bytes, pins);
    LoadChannel(before, channels - 1, bytes, at, pins)
  }

  function LoadedId(id: Byte): Byte {
    if id < FUNCTIONS then id else NONE
  }

  function SetChannel(n: Node, channel: nat, id: Byte): Node
    requires Sized(n) && channel < CHANNELS && id < FUNCTIONS
  {
    n.(modules := n.modules[channel := Registered(id)], ids := n.ids[channel := id])
  }

  function LoadIds(n: Node, channels: nat, bytes: seq<Byte>): (r: Node)
    requires Sized(n) && channels <= CHANNELS && IMAGE_LIMIT <= |bytes|
    ensures Sized(r)
    decreases channels, n
  {
    if channels == 0 then n else
    SetChannel(LoadIds(n, channels - 1, bytes), channels - 1, LoadedId(bytes[10 + (channels - 1)]))
  }

  /** CAN_Node_load_modules */
  function Load(n: Node, bytes: seq<Byte>, pins: Pins): Node
    requires Sized(n) && IMAGE_LIMIT <= |bytes|
  {
    if bytes[0] != HEADER then n else
    LoadChannels(LoadIds(n.(deviceId := bytes[1], name := bytes[2..10]), CHANNELS, bytes), CHANNELS, bytes, pins).0
  }

  // --- What is to survive ---

  datatype Settings =
    | NoSettings
    | SwitchSettings(config: Byte, offDelay: Word)
    | ButtonSettings(config: Byte)
    | AnalogSettings(config: Byte, rangeMin: Word, rangeMax: Word)

  function ChannelSettings(n: Node, channel: nat): Settings
    requires Sized(n) && channel < CHANNELS
  {
    match n.modules[channel]
    case SwitchModule => SwitchSettings(n.switches[channel].config, n.switches[channel].offDelay)
    case ButtonModule => ButtonSettings(n.buttons[channel].config)
    case AnalogModule =>
      AnalogSettings(n.analogs[channel].config, n.analogs[channel].rangeMin, n.analogs[channel].rangeMax)
    case _ => NoSettings
  }

  /** The loaded node has the saved node's identity, functions and settings. */
  predicate Restored(loaded: Node, saved: Node)
    requires Sized(loaded) && Sized(saved)
  {
    && loaded.deviceId == saved.deviceId && loaded.name == saved.name
    && loaded.ids == saved.ids && loaded.modules == saved.modules
    && forall i | 0 <= i < CHANNELS :: ChannelSettings(loaded, i) == ChannelSettings(saved, i)
  }

  /** Whether a sensor's settings come back: always from the buffer as it is meant; from the buffer as
      it is written only if the bytes that end up in it are the right ones by accident. */
  predicate SensorSurvives(mode: SaveMode, channel: nat, a: Analog)
    requires channel < CHANNELS
  {
    match mode
    case Meant => true
    case Written(stack) =>
      && a.config == Hi(a.rangeMax) && Hi(a.rangeMin) == Lo(a.rangeMax)
      && stack[channel] == (Lo(a.rangeMin), Hi(a.rangeMax), Lo(a.rangeMax))
  }

  predicate ChannelSurvives(mode: SaveMode, n: Node, channel: nat)
    requires Sized(n) && channel < CHANNELS
  {
    n.modules[channel] == AnalogModule ==> SensorSurvives(mode, channel, n.analogs[channel])
  }

  predicate SensorsSurvive(mode: SaveMode, n: Node)
    requires Sized(n)
  {
    forall i | 0 <= i < CHANNELS :: ChannelSurvives(mode, n, i)
  }

  predicate Sensorless(n: Node)
    requires Sized(n)
  {
    forall i | 0 <= i < CHANNELS :: n.modules[i] != AnalogModule
  }

  /** As the save is written, what is on the stack is out of anyone's hands; so it can be relied on exactly
      for a node without analog sensors. */
  lemma SensorsNeverSure(n: Node)
    requires Sized(n)
    ensures (forall mode: SaveMode | mode.Written? :: SensorsSurvive(mode, n)) <==> Sensorless(n)
  {
    if i :| 0 <= i < CHANNELS && n.modules[i] == AnalogModule {
      var wrong: Byte := if Lo(n.analogs[i].rangeMin) == 0 then 1 else 0;
      var mode: SaveMode := Written([(wrong, 0, 0), (wrong, 0, 0), (wrong, 0, 0), (wrong, 0, 0)]);
      assert !ChannelSurvives(mode, n, i);
      assert !SensorsSurvive(mode, n);
    }
  }

  // --- Round trip ---

  lemma SwitchRead(s: Switch, bytes: seq<Byte>, at: nat)
    requires at + 3 <= |bytes| && bytes[at..at + 3] == SwitchBytes(s)
    ensures LoadedSwitch(bytes, at).config == s.config && LoadedSwitch(bytes, at).offDelay == s.offDelay
  {
    assert forall k | 0 <= k < 3 :: bytes[at + k] == SwitchBytes(s)[k];
  }

  lemma AnalogRead(mode: SaveMode, channel: nat, a: Analog, bytes: seq<Byte>, at: nat)
    requires channel < CHANNELS && at + 5 <= |bytes| && bytes[at..at + 5] == AnalogBytes(mode, channel, a)
    ensures LoadedAnalog(bytes, at) == a <==> SensorSurvives(mode, channel, a)
  {
    assert forall k | 0 <= k < 5 :: bytes[at + k] == AnalogBytes(mode, channel, a)[k];
  }

  /** Reading at the place where a channel's bytes were written restores its settings and stops where
      the writing stopped. */
  lemma ChannelRoundTrip(mode: SaveMode, saved: Node, n: Node, channel: nat, bytes: seq<Byte>, at: nat, pins: Pins)
    requires Sized(saved) && Sized(n) && n.modules == saved.modules && channel < CHANNELS && at + 5 <= |bytes|
    requires bytes[at..at + |ChannelBytes(mode, saved, channel)|] == ChannelBytes(mode, saved, channel)
    ensures var (loaded, end) := LoadChannel(n, channel, bytes, at, pins);
      && end == at + |ChannelBytes(mode, saved, channel)|
      && (ChannelSettings(loaded, channel) == ChannelSettings(saved, channel) <==> ChannelSurvives(mode, saved, channel))
      && (forall i | 0 <= i < CHANNELS && i != channel :: ChannelSettings(loaded, i) == ChannelSettings(n, i))
  {
    match saved.modules[channel]
    case SwitchModule => SwitchRead(saved.switches[channel], bytes, at);
    case ButtonModule => assert bytes[at] == bytes[at..at + 1][0];
    case AnalogModule => AnalogRead(mode, channel, saved.analogs[channel], bytes, at);
    case _ =>
  }

  lemma PrefixGrows<T>(a: seq<T>, b: seq<T>, c: seq<T>)
    requires a <= b
    ensures a <= b + c
  {
  }

  lemma {:induction false} EarlierChannels(mode: SaveMode, n: Node, channel: nat, channels: nat)
    requires Sized(n) && channel < channels <= CHANNELS
    ensures ChannelsBytes(mode, n, channel) + ChannelBytes(mode, n, channel) <= ChannelsBytes(mode, n, channels)
    decreases channels
  {
    if channel < channels - 1 {
      EarlierChannels(mode, n, channel, channels - 1);
      PrefixGrows(ChannelsBytes(mode, n, channel) + ChannelBytes(mode, n, channel),
                  ChannelsBytes(mode, n, channels - 1), ChannelBytes(mode, n, channels - 1));
    }
  }

  lemma Slice<T>(fixed: seq<T>, before: seq<T>, slice: seq<T>, all: seq<T>, bytes: seq<T>)
    requires before + slice <= all && fixed + all <= bytes
    ensures var at := |fixed| + |before|; at + |slice| <= |bytes| && bytes[at..at + |slice|] == slice
  {
    var at := |fixed| + |before|;
    forall k | 0 <= k < |slice|
      ensures bytes[at + k] == slice[k]
    {
      assert bytes[at + k] == (fixed + all)[at + k] == all[|before| + k];
      assert all[|before| + k] == (before + slice)[|before| + k];
    }
  }

  /** The bytes of a channel are where they are in the image. */
  ghost predicate Placed(mode: SaveMode, n: Node, channel: nat, bytes: seq<Byte>)
    requires Sized(n) && channel < CHANNELS
  {
    var at, slice := FIXED_SIZE + |ChannelsBytes(mode, n, channel)|, ChannelBytes(mode, n, channel);
    at + |slice| <= |bytes| && bytes[at..at + |slice|] == slice
  }

  lemma ChannelPlace(mode: SaveMode, n: Node, channel: nat, all: nat, fixed: seq<Byte>, bytes: seq<Byte>)
    requires Sized(n) && channel < all <= CHANNELS && |fixed| == FIXED_SIZE
    requires fixed + ChannelsBytes(mode, n, all) <= bytes
    ensures Placed(mode, n, channel, bytes)
  {
    EarlierChannels(mode, n, channel, all);
    Slice(fixed, ChannelsBytes(mode, n, channel), ChannelBytes(mode, n, channel), ChannelsBytes(mode, n, all), bytes);
  }

  /** The channels below `channels` have been read, and the others are as they were. */
  ghost predicate ReadUpTo(mode: SaveMode, saved: Node, n: Node, loaded: Node, channels: nat)
    requires Sized(saved) && Sized(n) && Sized(loaded)
  {
    && (forall i | 0 <= i < CHANNELS && i < channels ::
          ChannelSettings(loaded, i) == ChannelSettings(saved, i) <==> ChannelSurvives(mode, saved, i))
    && (forall i | channels <= i < CHANNELS :: ChannelSettings(loaded, i) == ChannelSettings(n, i))
  }

  lemma OneMoreRead(mode: SaveMode, saved: Node, n: Node, before: Node, channel: nat, bytes: seq<Byte>, at: nat, pins: Pins)
    requires Sized(saved) && Sized(n) && Sized(before) && before.modules == saved.modules
    requires channel < CHANNELS && at + 5 <= |bytes| && ReadUpTo(mode, saved, n, before, channel)
    requires bytes[at..at + |ChannelBytes(mode, saved, channel)|] == ChannelBytes(mode, saved, channel)
    ensures var (loaded, end) := LoadChannel(before, channel, bytes, at, pins);
      end == at + |ChannelBytes(mode, saved, channel)| && ReadUpTo(mode, saved, n, loaded, channel + 1)
  {
    ChannelRoundTrip(mode, saved, before, channel, bytes, at, pins);
  }

  /** The load of the first channels stops where the save of them did, and has read these. */
  ghost predicate ReadBack(mode: SaveMode, saved: Node, n: Node, channels: nat, bytes: seq<Byte>, pins: Pins)
    requires Sized(saved) && Sized(n) && channels <= CHANNELS && IMAGE_LIMIT <= |bytes|
  {
    var (loaded, end) := LoadChannels(n, channels, bytes, pins);
    end == FIXED_SIZE + |ChannelsBytes(mode, saved, channels)| && ReadUpTo(mode, saved, n, loaded, channels)
  }

  lemma NextReadBack(mode: SaveMode, saved: Node, n: Node, channel: nat, bytes: seq<Byte>, pins: Pins)
    requires Sized(saved) && Sized(n) && n.modules == saved.modules && channel < CHANNELS && IMAGE_LIMIT <= |bytes|
    requires Placed(mode, saved, channel, bytes) && ReadBack(mode, saved, n, channel, bytes, pins)
    ensures ReadBack(mode, saved, n, channel + 1, bytes, pins)
  {
    var (before, at) := LoadChannels(n, channel, bytes, pins);
    OneMoreRead(mode, saved, n, before, channel, bytes, at, pins);
    assert LoadChannels(n, channel + 1, bytes, pins) == LoadChannel(before, channel, bytes, at, pins);
    assert ChannelsBytes(mode, saved, channel + 1) ==
           ChannelsBytes(mode, saved, channel) + ChannelBytes(mode, saved, channel);
  }

  lemma {:induction false} ChannelsRoundTrip(
      mode: SaveMode, saved: Node, n: Node, channels: nat, bytes: seq<Byte>, pins: Pins)
    requires Sized(saved) && Sized(n) && n.modules == saved.modules && channels <= CHANNELS && IMAGE_LIMIT <= |bytes|
    requires forall i | 0 <= i < channels :: Placed(mode, saved, i, bytes)
    ensures ReadBack(mode, saved, n, channels, bytes, pins)
    decreases channels
  {
    if channels > 0 {
      ChannelsRoundTrip(mode, saved, n, channels - 1, bytes, pins);
      assert Placed(mode, saved, channels - 1, bytes);
      NextReadBack(mode, saved, n, channels - 1, bytes, pins);
    }
  }

  lemma {:induction false} IdsLoaded(n: Node, channels: nat, bytes: seq<Byte>)
    requires Sized(n) && channels <= CHANNELS && IMAGE_LIMIT <= |bytes|
    ensures var t := LoadIds(n, channels, bytes);
      && t == n.(ids := t.ids, modules := t.modules)
      && (forall i | 0 <= i < channels :: t.ids[i] == LoadedId(bytes[10 + i]) && t.modules[i] == Registered(t.ids[i]))
    decreases channels
  {
    if channels > 0 { IdsLoaded(n, channels - 1, bytes); }
  }

  lemma FixedPlaces(mode: SaveMode, saved: Node, bytes: seq<Byte>)
    requires Sized(saved) && IMAGE_LIMIT <= |bytes| && Image(mode, saved) <= bytes
    ensures bytes[0] == HEADER && bytes[1] == saved.deviceId && bytes[2..10] == saved.name
    ensures forall i | 0 <= i < CHANNELS :: bytes[10 + i] == saved.ids[i]
  {
    var fixed := FixedBytes(saved);
    assert bytes[..FIXED_SIZE] == Image(mode, saved)[..FIXED_SIZE] == fixed;
    assert bytes[2..10] == bytes[..FIXED_SIZE][2..10] == saved.name;
    assert forall i | 0 <= i < FIXED_SIZE :: bytes[i] == fixed[i];
  }

  /** Where the stream is after the load. */
  function LoadEnd(n: Node, bytes: seq<Byte>, pins: Pins): nat
    requires Sized(n) && IMAGE_LIMIT <= |bytes|
  {
    LoadChannels(LoadIds(n.(deviceId := bytes[1], name := bytes[2..10]), CHANNELS, bytes), CHANNELS, bytes, pins).1
  }

  /** Loading what was saved, into whatever node: the load reads exactly the bytes that were written, and
      it restores everything if and only if the analog sensors in use survive their save. */
  lemma RoundTrip(mode: SaveMode, saved: Node, n: Node, bytes: seq<Byte>, pins: Pins)
    requires Valid(saved) && Sized(n) && IMAGE_LIMIT <= |bytes| && Image(mode, saved) <= bytes
    ensures LoadEnd(n, bytes, pins) == |Image(mode, saved)|
    ensures Valid(Load(n, bytes, pins))
    ensures Restored(Load(n, bytes, pins), saved) <==> SensorsSurvive(mode, saved)
    ensures var t := Load(n, bytes, pins);
      t.deviceId == saved.deviceId && t.name == saved.name && t.ids == saved.ids && t.modules == saved.modules
  {
    FixedPlaces(mode, saved, bytes);
    var named := n.(deviceId := bytes[1], name := bytes[2..10]);
    IdsLoaded(named, CHANNELS, bytes);
    var withIds := LoadIds(named, CHANNELS, bytes);
    assert withIds.ids == saved.ids && withIds.modules == saved.modules;
    forall i | 0 <= i < CHANNELS
      ensures Placed(mode, saved, i, bytes)
    {
      ChannelPlace(mode, saved, i, CHANNELS, FixedBytes(saved), bytes);
    }
    ChannelsRoundTrip(mode, saved, withIds, CHANNELS, bytes, pins);
    var loaded := LoadChannels(withIds, CHANNELS, bytes, pins).0;
    assert Load(n, bytes, pins) == loaded;
    if Restored(loaded, saved) {
      forall i | 0 <= i < CHANNELS
        ensures ChannelSurvives(mode, saved, i)
      {
        assert ChannelSettings(loaded, i) == ChannelSettings(saved, i);
      }
    }
  }

  /** A load leaves every channel with the module of a known function, whatever the EEPROM holds. */
  lemma LoadIsValid(n: Node, bytes: seq<Byte>, pins: Pins)
    requires Valid(n) && IMAGE_LIMIT <= |bytes|
    ensures Valid(Load(n, bytes, pins))
  {
    IdsLoaded(n.(deviceId := bytes[1], name := bytes[2..10]), CHANNELS, bytes);
  }
}
