/** The client's commands to devices and their form as service commands
    (deephome/common/source/client/Command.cpp). */
module DeviceCommands {
  import opened Messages
  import opened WireFormat

  datatype CommandType = Send | Query | Reply

  datatype DeviceCommand = DeviceCommand(device: string, kind: CommandType, address: Word, body: seq<Byte>)

  const FRESH_DEVICE_COMMAND: DeviceCommand := DeviceCommand("", Send, 0, [])

  function ActionOf(kind: CommandType): string {
    match kind case Send => "send" case Query => "query" case Reply => "reply"
  }

  function DeviceArguments(c: DeviceCommand): Arguments {
    var named := Insert(Insert([], "device", c.device), "address", PrintNumber(c.address));
    if c.kind == Query then named else Insert(named, "data", PrintBytes(c.body))
  }

  /** service_command; `Err` where one of its checks ends the program. */
  function ToService(c: DeviceCommand): Result<Command> {
    if !Legal(c.device) || (c.kind == Query && c.body != []) then Err
    else Ok(Command(ActionOf(c.kind), DeviceArguments(c)))
  }

  /** The client's filters for unasked messages, and their form as service commands. */
  datatype ClientFilter = ClientFilter(device: string, address: Word, mask: Word, oneTime: bool)

  /** Filter::service_command */
  function FilterToService(f: ClientFilter): Result<Command> {
    if !Legal(f.device) then Err else
    var named := if f.device == "" then [] else Insert([], "device", f.device);
    var masked := Insert(Insert(named, "address", PrintNumber(f.address)), "mask", PrintNumber(f.mask));
    Ok(Command("filter", if f.oneTime then Insert(masked, "options", "one-time") else masked))
  }

  function KindOf(action: string): Result<CommandType> {
    if action == "send" then Ok(Send)
    else if action == "query" then Ok(Query)
    else if action == "reply" then Ok(Reply)
    else Err
  }

  /** set_from_service_command on an object that held `before`: without usable data the body stays
      what it was. `Err` where one of its checks ends the program. */
  function FromService(before: DeviceCommand, c: Command): Result<DeviceCommand> {
    var kind, device := KindOf(c.action), GetText(c, "device", "");
    var address := GetNumber(c, "address", UNSIGNED - 1);
    if kind.Err? || device == "" || address > 0xffff then Err else
    var body := if kind.value != Query && GetRaw(c, "data").Ok? then GetRaw(c, "data").value else before.body;
    if kind.value != Query && |body| > 8 then Err else Ok(DeviceCommand(device, kind.value, address, body))
  }

  class DeviceCommandObject {
    var device: string
    var kind: CommandType
    var address: Word
    var body: seq<Byte>

    ghost function View(): DeviceCommand
      reads this
    {
      DeviceCommand(device, kind, address, body)
    }

    constructor ()
      ensures View() == FRESH_DEVICE_COMMAND
    {
      device, kind, address, body := "", Send, 0, [];
    }

    method ServiceCommand() returns (command: CommandObject?)
      ensures command == null <==> ToService(View()).Err?
      ensures command != null ==> fresh(command) && Ok(command.View()) == ToService(View())
    {
      if !Legal(device) || (kind == Query && body != []) {
        return null;
      }
      assert Legal(ActionOf(kind));
      command := new CommandObject(ActionOf(kind));
      command.AddArgument("device", device);
      command.AddNumber("address", address);
      if kind != Query {
        command.AddRaw("data", body);
      }
    }

    method SetFromServiceCommand(c: Command) returns (ok: bool)
      modifies this
      ensures ok <==> FromService(old(View()), c).Ok?
      ensures ok ==> View() == FromService(old(View()), c).value
    {
      if c.action == "send" {
        kind := Send;
      } else if c.action == "query" {
        kind := Query;
      } else if c.action == "reply" {
        kind := Reply;
      } else {
        return false;
      }
      device := GetText(c, "device", "");
      var rawAddress := GetNumber(c, "address", UNSIGNED - 1);
      if device == "" || rawAddress == UNSIGNED - 1 || rawAddress > 0xffff {
        return false;
      }
      address := rawAddress;
      if kind != Query {
        var raw := GetRaw(c, "data");
        if raw.Ok? {
          body := raw.value;
        }
        if |body| > 8 {
          return false;
        }
      }
      return true;
    }
  }

  // --- What survives the trip ---

  lemma InsertForAll(arguments: Arguments, key: string, value: string)
    requires Sorted(arguments)
    ensures Sorted(Insert(arguments, key, value))
    ensures forall other :: Get(Insert(arguments, key, value), other) == if other == key then Present(value) else Get(arguments, other)
  {
    forall other
      ensures Get(Insert(arguments, key, value), other) == if other == key then Present(value) else Get(arguments, other)
    {
      InsertUpdates(arguments, key, value, other);
    }
    InsertUpdates(arguments, key, value, key);
  }

  /** The raw argument is read back, except that an empty one counts as missing. */
  lemma RawInverse(c: Command, body: seq<Byte>)
    requires GetText(c, "data", "") == PrintBytes(body)
    ensures GetRaw(c, "data") == if body == [] then Err else Ok(body)
  {
    ReadBytesInverse(body);
  }

  lemma ArgumentsReadBack(c: DeviceCommand)
    requires ToService(c).Ok?
    ensures var s := ToService(c).value;
      && s.action == ActionOf(c.kind)
      && GetText(s, "device", "") == c.device && GetNumber(s, "address", UNSIGNED - 1) == c.address
      && GetText(s, "data", "") == if c.kind == Query then "" else PrintBytes(c.body)
  {
    var one := Insert([], "device", c.device);
    var two := Insert(one, "address", PrintNumber(c.address));
    InsertForAll([], "device", c.device);
    InsertForAll(one, "address", PrintNumber(c.address));
    InsertForAll(two, "data", PrintBytes(c.body));
    PrintedNumber(c.address);
    assert GetText(ToService(c).value, "address", "") == PrintNumber(c.address);
  }

  /** A command survives the trip into an object that held `before` exactly when it names a device,
      has a body that fits and, if it has none, finds none there. */
  lemma DeviceCommandRoundTrip(c: DeviceCommand, before: DeviceCommand)
    requires ToService(c).Ok?
    ensures FromService(before, ToService(c).value) == Ok(c) <==>
            c.device != "" && |c.body| <= 8 && (c.body == [] ==> before.body == [])
  {
    ArgumentsReadBack(c);
    if c.kind != Query { RawInverse(ToService(c).value, c.body); }
  }

  lemma InsertLegal(arguments: Arguments, key: string, value: string)
    requires Sorted(arguments) && LegalArguments(arguments) && key != "" && Legal(key) && Legal(value)
    ensures Sorted(Insert(arguments, key, value)) && LegalArguments(Insert(arguments, key, value))
  {
    InsertUpdates(arguments, key, value, "");
  }

  lemma DeviceArgumentsLegal(c: DeviceCommand)
    requires Legal(c.device)
    ensures Sorted(DeviceArguments(c)) && LegalArguments(DeviceArguments(c))
  {
    var one := Insert([], "device", c.device);
    PrintedNumber(c.address);
    HexIsLegal(PrintBytes(c.body));
    InsertLegal([], "device", c.device);
    InsertLegal(one, "address", PrintNumber(c.address));
    InsertLegal(Insert(one, "address", PrintNumber(c.address)), "data", PrintBytes(c.body));
  }

  /** What a command prints on the wire is parsed back into the same service command. */
  lemma ServiceCommandTravels(c: DeviceCommand)
    requires ToService(c).Ok?
    ensures Parse(Print(CommandPacket(ToService(c).value))) == Ok(CommandPacket(ToService(c).value))
  {
    DeviceArgumentsLegal(c);
    assert Legal(ActionOf(c.kind));
    PacketRoundTrip(CommandPacket(ToService(c).value));
  }

  /** Every service command is read that names a device, an address of 16 bits and at most 8 bytes, and it is
      read as what it says; data that is missing or no pairs of digits leaves the body alone. */
  lemma ReadAsItSays(before: DeviceCommand, s: Command)
    requires s.action in {"send", "query", "reply"}
    ensures var r := FromService(before, s);
      var device, address, data := GetText(s, "device", ""), GetNumber(s, "address", UNSIGNED - 1), GetRaw(s, "data");
      && (r.Ok? <==> device != "" && address <= 0xffff &&
                     (s.action != "query" ==> |if data.Ok? then data.value else before.body| <= 8))
      && (r.Ok? ==> r.value.device == device && r.value.address == address && ActionOf(r.value.kind) == s.action)
      && (r.Ok? ==> r.value.body == if s.action != "query" && data.Ok? then data.value else before.body)
  {
  }
}
