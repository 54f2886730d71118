/** What route_to does to a socket connection (deephome/router/Router.cpp:230-256): a device message put into
    the send buffer as a command that the client reads as this message. */
module RouterSockets {
  import opened Messages
  import opened WireFormat
  import opened DeviceCommands
  import opened RouterConfig
  import opened QueryProtocol
  import opened EndToEnd
  import R = Router
  import S = SocketConnection

  predicate LegalArgument(a: (string, string)) {
    a.0 != "" && Legal(a.0) && Legal(a.1)
  }

  lemma FourLegal(a: (string, string), b: (string, string), c: (string, string), d: (string, string))
    requires LegalArgument(a) && LegalArgument(b) && LegalArgument(c) && LegalArgument(d)
    ensures var all := Insert(Insert(Insert(Insert([], a.0, a.1), b.0, b.1), c.0, c.1), d.0, d.1);
      Sorted(all) && LegalArguments(all)
  {
    var one := Insert([], a.0, a.1);
    var two := Insert(one, b.0, b.1);
    InsertLegal([], a.0, a.1);
    InsertLegal(one, b.0, b.1);
    InsertLegal(two, c.0, c.1);
    InsertLegal(Insert(two, c.0, c.1), d.0, d.1);
  }

  lemma KeysLegal()
    ensures LegalArgument(("device", "")) && LegalArgument(("network", ""))
    ensures LegalArgument(("address", "")) && LegalArgument(("data", ""))
  {
  }

  lemma RouteArgumentsLegal(message: Message, device: Device, reply: bool)
    requires Legal(device.name) && Legal(device.network)
    ensures WellFormedCommand(R.RouteCommand(message, device, reply))
  {
    var address, data := PrintNumber(message.address), PrintBytes(message.body);
    PrintedNumber(message.address);
    HexIsLegal(data);
    KeysLegal();
    FourLegal(("device", device.name), ("network", device.network), ("address", address), ("data", data));
  }

  /** The line for a message is taken for one command, and that for the device's name, address and data. */
  lemma RoutedLine(message: Message, device: Device, reply: bool)
    requires Legal(device.name) && device.name != "" && Legal(device.network) && WellFormedMessage(message)
    ensures var command := R.RouteCommand(message, device, reply);
      && S.LineEvents(Print(CommandPacket(command))) == [S.Delivered(CommandPacket(command))]
      && FromService(FRESH_DEVICE_COMMAND, command) ==
         Ok(DeviceCommand(device.name, if reply then Reply else Send, message.address, message.body))
  {
    RouteArgumentsLegal(message, device, reply);
    DeliveredAsPrinted(CommandPacket(R.RouteCommand(message, device, reply)));
    RoutedMessage(message, device, reply);
  }

  /** A message is routed exactly if the connection exists and its buffer takes the line, or the connection
      is in error and takes anything. Then the bytes it has accepted end with one line, which its receiver
      hands on as a single packet and reads as the device's name, address and data. Otherwise they stay. */
  method RouteTo(connections: map<nat, S.SocketConnection>, message: Message, device: Device, connection: nat, reply: bool)
    returns (routed: bool)
    requires Legal(device.name) && device.name != "" && Legal(device.network) && WellFormedMessage(message)
    requires connection in connections ==> connections[connection].Valid()
    modifies if connection in connections then {connections[connection]} else {}
    ensures connection !in connections ==> !routed
    ensures connection in connections ==>
      var c, line := connections[connection], Print(CommandPacket(R.RouteCommand(message, device, reply)));
      && c.Valid() && c.gotError == old(c.gotError)
      && routed == (c.gotError || |old(c.writeBuffer)| + |line| + 2 <= S.WRITE_BUFFER_LIMIT)
      && c.accepted == old(c.accepted) + if routed && !c.gotError then line + "\r\n" else ""
    ensures exists command ::
      && S.LineEvents(Print(CommandPacket(R.RouteCommand(message, device, reply)))) == [S.Delivered(CommandPacket(command))]
      && FromService(FRESH_DEVICE_COMMAND, command) ==
         Ok(DeviceCommand(device.name, if reply then Reply else Send, message.address, message.body))
  {
    RoutedLine(message, device, reply);
    if connection !in connections {
      return false;
    }
    var packet := CommandPacket(R.RouteCommand(message, device, reply));
    routed := connections[connection].Send(packet);
  }
}
