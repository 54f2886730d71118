/** The firmware's static data and the procedures that work on it in place
    (firmware/stm8/can_node/eestream.c, module.c, sysinfo.c, mod_switch.c, mod_button.c, mod_analog.c). */
module CanNodeFirmware {
  import opened Sequences
  import opened CanNode
  import opened CanNodeBoard

  /** A stream over the EEPROM; `written` is what was written since it was opened. */
  class Stream {
    const eeprom: array<Byte>
    var offset: Word
    ghost var written: seq<Byte>
    ghost const before: seq<Byte>

    ghost predicate Valid()
      reads this, eeprom
    {
      && eeprom.Length == |before| == EEPROM_SIZE
      && offset == |written| <= EEPROM_SIZE
      && eeprom[..] == written + before[offset..]
    }

    constructor (eeprom: array<Byte>)
      requires eeprom.Length == EEPROM_SIZE
      ensures Valid() && this.eeprom == eeprom && written == [] && before == eeprom[..]
    {
      this.eeprom := eeprom;
      offset, written, before := 0, [], eeprom[..];
    }

    method WriteByte(byte: Byte)
      requires Valid() && offset < EEPROM_SIZE
      modifies this, eeprom
      ensures Valid() && written == old(written) + [byte]
    {
      eeprom[offset] := byte;
      offset := offset + 1;
      written := written + [byte];
    }
  }

  /** A stream opened for reading. */
  class Reader {
    const eeprom: array<Byte>
    var offset: Word

    constructor (eeprom: array<Byte>)
      ensures this.eeprom == eeprom && offset == 0
    {
      this.eeprom := eeprom;
      offset := 0;
    }

    method ReadByte() returns (byte: Byte)
      requires offset < eeprom.Length && offset < 0xffff
      modifies this
      ensures byte == eeprom[old(offset)] && offset == old(offset) + 1
    {
      byte := eeprom[offset];
      offset := offset + 1;
    }
  }

  class Firmware {
    var deviceId: Byte
    const name: array<Byte>
    const ids: array<Byte>
    const modules: array<Module>
    const switches: array<Switch>
    const buttons: array<Button>
    const analogs: array<Analog>
    const eeprom: array<Byte>

    ghost predicate Ready() {
      && name.Length == NAME_SIZE && ids.Length == CHANNELS && modules.Length == CHANNELS
      && switches.Length == CHANNELS && buttons.Length == CHANNELS && analogs.Length == CHANNELS
      && eeprom.Length == EEPROM_SIZE
      && name != ids && name != eeprom && ids != eeprom
    }

    ghost function View(): (n: Node)
      requires Ready()
      reads this, name, ids, modules, switches, buttons, analogs
      ensures Sized(n)
    {
      Node(deviceId, name[..], ids[..], modules[..], switches[..], buttons[..], analogs[..])
    }

    constructor (eeprom: array<Byte>)
      requires eeprom.Length == EEPROM_SIZE
      ensures Ready() && View() == INITIAL && this.eeprom == eeprom
    {
      deviceId := 0xff;
      name := new Byte[8](_ => 0);
      ids := new Byte[4](_ => 0);
      modules := new Module[4](_ => NoModule);
      switches := new Switch[4](_ => OFF);
      buttons := new Button[4](_ => RELEASED);
      analogs := new Analog[4](_ => UNUSED);
      this.eeprom := eeprom;
    }

    // --- Saving ---

    method SaveModules(mode: SaveMode)
      requires Ready()
      modifies eeprom
      ensures View() == old(View())
      ensures var image := Image(mode, View()); eeprom[..] == image + old(eeprom[..])[|image|..]
    {
      var stream := new Stream(eeprom);
      SaveFixed(stream);
      SaveChannels(mode, CHANNELS, stream);
    }

    method SaveFixed(stream: Stream)
      requires Ready() && stream.Valid() && stream.eeprom == eeprom && stream.offset == 0
      modifies stream, eeprom
      ensures stream.Valid() && View() == old(View()) && stream.written == FixedBytes(View())
    {
      stream.WriteByte(HEADER);
      SysinfoSave(stream);
      SaveIds(stream);
    }

    method SaveChannels(mode: SaveMode, channels: nat, stream: Stream)
      requires Ready() && channels <= CHANNELS && stream.Valid() && stream.eeprom == eeprom && stream.offset == FIXED_SIZE
      modifies stream, eeprom
      ensures stream.Valid() && View() == old(View())
      ensures stream.written == old(stream.written) + ChannelsBytes(mode, View(), channels)
    {
      ghost var n, start := View(), stream.written;
      for i := 0 to channels
        invariant stream.Valid() && View() == n
        invariant stream.written == start + ChannelsBytes(mode, n, i)
      {
        SaveChannel(mode, i, stream);
        Regroup(start, ChannelsBytes(mode, n, i), ChannelBytes(mode, n, i));
      }
    }

    method SysinfoSave(stream: Stream)
      requires Ready() && stream.Valid() && stream.eeprom == eeprom && stream.offset == 1
      modifies stream, eeprom
      ensures stream.Valid() && View() == old(View())
      ensures stream.written == old(stream.written) + [deviceId] + name[..]
    {
      stream.WriteByte(deviceId);
      for i := 0 to NAME_SIZE
        invariant stream.Valid() && View() == old(View())
        invariant stream.written == old(stream.written) + [deviceId] + name[..i]
      {
        stream.WriteByte(name[i]);
        assert name[..i + 1] == name[..i] + [name[i]];
      }
      assert name[..NAME_SIZE] == name[..];
    }

    method SaveIds(stream: Stream)
      requires Ready() && stream.Valid() && stream.eeprom == eeprom && stream.offset == 10
      modifies stream, eeprom
      ensures stream.Valid() && View() == old(View())
      ensures stream.written == old(stream.written) + ids[..]
    {
      for i := 0 to CHANNELS
        invariant stream.Valid() && View() == old(View())
        invariant stream.written == old(stream.written) + ids[..i]
      {
        stream.WriteByte(ids[i]);
        assert ids[..i + 1] == ids[..i] + [ids[i]];
      }
      assert ids[..CHANNELS] == ids[..];
    }

    method SaveChannel(mode: SaveMode, channel: nat, stream: Stream)
      requires Ready() && channel < CHANNELS && stream.Valid() && stream.eeprom == eeprom && stream.offset <= 29
      modifies stream, eeprom
      ensures stream.Valid() && View() == old(View())
      ensures stream.written == old(stream.written) + ChannelBytes(mode, View(), channel)
    {
      match modules[channel]
      case SwitchModule =>
        stream.WriteByte(switches[channel].config);
        stream.WriteByte(Hi(switches[channel].offDelay));
        stream.WriteByte(Lo(switches[channel].offDelay));
      case ButtonModule =>
        stream.WriteByte(buttons[channel].config);
      case AnalogModule =>
        var data := FillBuffer(mode, channel);
        for i := 0 to 5
          invariant stream.Valid() && View() == old(View()) && data[..] == AnalogBytes(mode, channel, analogs[channel])
          invariant stream.written == old(stream.written) + data[..i]
        {
          stream.WriteByte(data[i]);
          assert data[..i + 1] == data[..i] + [data[i]];
        }
        assert data[..5] == data[..];
      case _ =>
    }

    /** The buffer of analog_save. */
    method FillBuffer(mode: SaveMode, channel: nat) returns (data: array<Byte>)
      requires Ready() && channel < CHANNELS
      ensures fresh(data) && data[..] == AnalogBytes(mode, channel, analogs[channel])
    {
      var a := analogs[channel];
      data := new Byte[5](_ => 0);
      if mode.Written? {
        data[2], data[3], data[4] := mode.stack[channel].0, mode.stack[channel].1, mode.stack[channel].2;
      }
      data[0] := a.config;
      WriteWord(data, if mode.Meant? then 1 else 0, a.rangeMin);
      WriteWord(data, if mode.Meant? then 3 else 0, a.rangeMax);
    }

    /** write_uint16 */
    static method WriteWord(data: array<Byte>, at: nat, value: Word)
      requires at + 2 <= data.Length
      modifies data
      ensures data[..] == old(data[..])[at := Hi(value)][at + 1 := Lo(value)]
    {
      data[at] := Hi(value);
      data[at + 1] := Lo(value);
    }

    // --- Loading ---

    method LoadModules(pins: Pins)
      requires Ready()
      modifies this, name, ids, modules, switches, buttons, analogs
      ensures View() == Load(old(View()), eeprom[..], pins)
    {
      var reader := new Reader(eeprom);
      var header := reader.ReadByte();
      if header != HEADER {
        return;
      }
      SysinfoLoad(reader);
      FunctionsLoad(reader);
      ghost var start := View();
      for i := 0 to CHANNELS
        invariant (View(), reader.offset as nat) == LoadChannels(start, i, eeprom[..], pins)
        invariant fresh(reader) && reader.eeprom == eeprom && eeprom[..] == old(eeprom[..])
      {
        ReadChannel(i, reader, pins);
      }
    }

    /** The loop that reads the functions of the channels. */
    method FunctionsLoad(reader: Reader)
      requires Ready() && reader.eeprom == eeprom && reader.offset == 10
      modifies ids, modules, reader
      ensures View() == LoadIds(old(View()), CHANNELS, eeprom[..])
      ensures reader.offset == 14
    {
      for i := 0 to CHANNELS
        invariant View() == LoadIds(old(View()), i, eeprom[..]) && reader.offset == 10 + i
      {
        var id := reader.ReadByte();
        PutChannel(i, if id < FUNCTIONS then id else NONE);
      }
    }

    method SysinfoLoad(reader: Reader)
      requires Ready() && reader.eeprom == eeprom && reader.offset == 1
      modifies this, name, reader
      ensures View() == old(View()).(deviceId := eeprom[1], name := eeprom[2..10])
      ensures reader.offset == 10
    {
      deviceId := reader.ReadByte();
      for i := 0 to NAME_SIZE
        invariant reader.offset == 2 + i
        invariant View() == old(View()).(deviceId := eeprom[1], name := name[..])
        invariant name[..i] == eeprom[2..2 + i]
      {
        name[i] := reader.ReadByte();
        assert name[..i + 1] == name[..i] + [name[i]];
        assert eeprom[2..2 + i + 1] == eeprom[2..2 + i] + [eeprom[2 + i]];
      }
      assert name[..NAME_SIZE] == name[..];
    }

    /** CAN_Node_set_channel */
    method PutChannel(channel: nat, id: Byte)
      requires Ready() && channel < CHANNELS && id < FUNCTIONS
      modifies ids, modules
      ensures View() == SetChannel(old(View()), channel, id)
    {
      if modules[channel] != NoModule {
        modules[channel] := NoModule;
      }
      modules[channel] := Registered(id);
      ids[channel] := id;
      assert modules[..] == old(modules[..])[channel := Registered(id)];
    }

    method ReadChannel(channel: nat, reader: Reader, pins: Pins)
      requires Ready() && channel < CHANNELS && reader.eeprom == eeprom && reader.offset <= 29
      modifies switches, buttons, analogs, reader
      ensures (View(), reader.offset as nat) == LoadChannel(old(View()), channel, eeprom[..], old(reader.offset), pins)
    {
      match modules[channel]
      case SwitchModule =>
        var config := reader.ReadByte();
        var delayHi := reader.ReadByte();
        var delayLo := reader.ReadByte();
        switches[channel] := Switch(config, Bit(config, 2), ToWord(delayHi, delayLo), 0);
      case ButtonModule =>
        var config := reader.ReadByte();
        buttons[channel] := SetState(Button(config, false), pins[channel]);
      case AnalogModule =>
        var data := ReadBuffer(reader);
        analogs[channel] := Analog(data[0], ToWord(data[1], data[2]), ToWord(data[3], data[4]));
      case _ =>
    }

    /** The loop of analog_load. */
    method ReadBuffer(reader: Reader) returns (data: array<Byte>)
      requires reader.offset + 5 <= reader.eeprom.Length && reader.offset + 5 <= 0xffff
      modifies reader
      ensures fresh(data) && data.Length == 5 && reader.offset == old(reader.offset) + 5
      ensures data[..] == reader.eeprom[old(reader.offset)..old(reader.offset) + 5]
    {
      data := new Byte[5](_ => 0);
      ghost var at := reader.offset;
      for i := 0 to 5
        invariant reader.offset as nat == at as nat + i
        invariant forall k | 0 <= k < i :: data[k] == reader.eeprom[at + k]
      {
        data[i] := reader.ReadByte();
      }
    }

    // --- Packets and ticks ---

    method HandleData(mode: SaveMode, address: Word, data: seq<Byte>, pins: Pins)
      requires Ready()
      modifies name, ids, modules, switches, buttons, analogs, eeprom
      ensures Board(View(), eeprom[..]) == HandleWrite(mode, old(Board(View(), eeprom[..])), address, data, pins)
    {
      var index, low := address / 256, address % 256;
      if index == 0 {
        if low == 4 {
          WriteName(data);
          SaveModules(mode);
        }
      } else if index == 1 {
        if low == 0 {
          SaveModules(mode);
        } else if 0x80 <= low < 0x80 + CHANNELS && |data| == 1 && data[0] < FUNCTIONS {
          PutChannel(low - 0x80, data[0]);
        }
      } else if 0x80 <= index < 0x80 + CHANNELS {
        WriteChannel(index - 0x80, low, data, pins);
      }
    }

    method WriteName(data: seq<Byte>)
      requires Ready()
      modifies name
      ensures View() == old(View()).(name := NameOf(data))
    {
      for i := 0 to NAME_SIZE
        invariant View() == old(View()).(name := name[..])
        invariant name[..i] == NameOf(data)[..i]
      {
        name[i] := if i < |data| then data[i] else 0;
        assert name[..i + 1] == name[..i] + [name[i]];
      }
      assert name[..NAME_SIZE] == name[..];
    }

    method WriteChannel(channel: nat, address: Byte, data: seq<Byte>, pins: Pins)
      requires Ready() && channel < CHANNELS
      modifies switches, buttons, analogs
      ensures View() == ChannelWrite(old(View()), channel, address, data, pins)
    {
      match modules[channel]
      case SwitchModule => switches[channel] := SwitchWrite(switches[channel], address, data);
      case ButtonModule => buttons[channel] := ButtonWrite(buttons[channel], address, data, pins[channel]);
      case AnalogModule => analogs[channel] := AnalogWrite(analogs[channel], address, data);
      case _ =>
    }

    method HandleTimer(pins: Pins)
      requires Ready()
      modifies switches, buttons
      ensures View() == Tick(old(View()), CHANNELS, pins)
    {
      for i := 0 to CHANNELS
        invariant View() == Tick(old(View()), i, pins)
      {
        TickChannel(i, pins);
      }
    }

    method TickChannel(channel: nat, pins: Pins)
      requires Ready() && channel < CHANNELS
      modifies switches, buttons
      ensures View() == ChannelTick(old(View()), channel, pins)
    {
      match modules[channel]
      case SwitchModule => switches[channel] := SwitchTick(switches[channel]);
      case ButtonModule => buttons[channel] := SetState(buttons[channel], pins[channel]);
      case _ =>
    }
  }
}
