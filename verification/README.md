# Verified model of the home automation router, its clients and its devices

The repository is a home automation network. A router connects clients to networks of devices over a
line-based text protocol; the clients use a library with an event loop; the devices are CAN nodes and
1-Wire sensors with their own firmware. This project models the parts with the hardest behaviour and
proves what they are for, over all inputs and all runs.

- `OneWire.dfy`, `SearchEnumeration.dfy`, `SearchShifts.dfy`: the wired-AND bus as a set of 64-bit codes
  and an active subset, the session that drives it, and which devices repeated SEARCH ROM calls find.
  `Crc.dfy`: the table-driven CRC-8 against the shift register (the "Search ROM" and "CRC Generation"
  sections of the DS18B20 data sheet).
- `Text.dfy`, `Messages.dfy`, `WireFormat.dfy`, `WireGrammar.dfy`: printers and parsers of the packets, their
  round trips and the lines they accept. `SocketConnection.dfy`, `EndToEnd.dfy`: the incremental line
  splitter and the partial-write buffer, and the identity they make up together with the packets.
- `EventLoops.dfy`, `EventSafety.dfy`, `Connections.dfy`, `Subscriptions.dfy`: the event queue with scopes,
  under every interleaving of the threads that use it, and the subscriptions built on it.
- `RouterConfig.dfy`, `Router.dfy`: configuration and router, event by event, as functions of its state
  and as an object whose handlers work in place. `RouterRuns.dfy`, `RouterLedger.dfy`,
  `RouterSchedule.dfy`, `RouterDelivery.dfy`, `RouterFilters.dfy`, `RouterHang.dfy`: what holds over all its
  runs. `RouterSteps.dfy`: what single events do. `RouterSockets.dfy`: its sends on socket connections.
- `DeviceCommands.dfy`, `Dispatcher.dfy`, `DispatcherFilters.dfy`, `ClientFilters.dfy`: the client library.
- `QueryProtocol.dfy`, `QuerySafety.dfy`, `QueryMishaps.dfy`, `QueryReports.dfy`: any number of clients, their
  channels, the router and the devices as one system, and the exact condition under which every reply finds its query.
- `CanNode.dfy`, `CanNodeBoard.dfy`, `CanNodeChannels.dfy`, `CanNodeFirmware.dfy`: the CAN node's modules,
  packets, ticks and power cycles, and its EEPROM image.
- `Sequences.dfy`, `Bitwise.dfy`: shared helpers.

The input and output of the programs appear as parameters: what the kernel takes or gives at a time,
which networks can be reached, whether a connection's send buffer has room, pin levels, what happens to
lie on the stack, and which event comes next.

## Where the code is not what it means to be

Where both can be modelled they are, and the lemmas named say how far they differ; the other points say
which of the two the model takes.

- `deephome/router/Router.cpp:217`: without parentheses `!=` binds tighter than `&`. `MaskTest` selects
  the test; `TestsAgree` and `ReplyFilterTests` say where the two differ, `RepliesFindTheirQueries` what
  follows. The router itself is modelled with either.
- `deephome/router/Router.cpp:202-203`: an unroutable filter is not stepped over, so the loop spins. The
  router is modelled with the step; `WrittenLoopEnds` and `LoopCanHang` deal with the loop as written.
- `deephome/router/Router.cpp:53-65`: `stop` does not empty the send queue, and a restarted router then
  sends nothing (`RestartStalls`, `StalledSendsNothing`). Modelled as written.
- `deephome/router/Router.cpp:121-125` assumes that every network is connected, and line 352 uses a packet
  that line 365 tests for null: the model takes a missing connection and a null packet as meant.
- `deephome/router/Router.cpp:461` and `deephome/common/source/client/Command.cpp:51` lack their return:
  the model returns what was built.
- `deephome/common/source/proto/SocketConnection.cpp:161-162`: a fatal send error is thrown before the
  bytes already sent are dropped from the buffer. Modelled as written; the ghost field `intact` records it.
- `deephome/common/source/proto/Message.cpp:265`: the width is set for the old id only (`InitRoundTrip`).
- `deephome/router/Config.cpp:86-118` accepts devices that share a network and an id
  (`SharedIdHidesDevice`, `RepliesFindTheirQueries`).
- `firmware/ti/include/onewire/onewire.h:50-61` shifts a 32-bit one by up to 63, and takes its complement in
  32 bits. `ShiftMode` selects; what an undefined shift gives is a parameter. `SearchEnumerates` and
  `CompleteIffBit0Agrees` are about the bits as they are meant, `HighCodeNeverFound` about any outcome of
  the shifts, `WrittenFindsAll` about shifts that give 0. `last_id_` starts uninitialised, so the first
  call starts from an arbitrary value.
- `deephome/common/source/client/Dispatcher.cpp:74-83`: `send` accepts a query, which then has no pending
  entry for its reply (`RepliesFindTheirQueries`, `StraysAreBounded`).
- `firmware/stm8/can_node/mod_analog.c:271-272` writes both range bounds to the start of the buffer.
  `SaveMode` selects; `RoundTrip` and `SettingsSurvive` give the exact condition for either and any content
  of the stack, `SensorsNeverSure` and `SettingsAlwaysSurvive` the one for all contents of it.

## Model

| member | source | states |
|---|---|---|
| `OneWire.BitsRoundTrip` | firmware/ti/onewire/Session.cpp:40-77 | words are written and read least significant bit first: the number read from the bits of a word is the word |
| `OneWire.WordRoundTrip` | firmware/ti/onewire/Session.cpp:58-77 | the bits of a number of n bits make up the number again |
| `OneWire.Session.Reset` | firmware/ti/onewire/Session.cpp:27-38 | a reset returns the bus to the command phase with every device active, and sees a presence pulse exactly when there is a device |
| `OneWire.Session.Read` | firmware/ti/onewire/Session.cpp:40-56 | n read slots give the levels the wired-AND bus shows in these slots, first slot in bit 0, and move the bus on by n slots |
| `OneWire.Session.Write` | firmware/ti/onewire/Session.cpp:58-77 | the bus gets the low n bits of the value, bit 0 first |
| `OneWire.Session.ReadRom` | firmware/ti/onewire/Session.cpp:92-98 | with one device on the bus both halves of its code are put together; with several, the wired AND of what they send |
| `OneWire.Session.MatchRom` | firmware/ti/onewire/Session.cpp:100-105 | after the command the bus receives the 64 bits of the code, the low half first |
| `OneWire.Session.SkipRom` | firmware/ti/onewire/Session.cpp:107-110 | every device on the bus is selected |
| `OneWire.Session.SearchRom` | firmware/ti/onewire/Session.cpp:112-157 | one call, with the context's bits as they are meant or as they are written, gives the result and the context of the rounds of its mode; as meant it is the walk to a device, which alone stays active |
| `OneWire.Session.SearchBit` | firmware/ti/onewire/Session.cpp:121-152 | one index of the loop is one round of the search in either mode, and it ends the search exactly when no device is active |
| `OneWire.Session.ReadPair` | firmware/ti/onewire/Session.cpp:123-130 | each of the two slots is high exactly when no active device pulls it low, and no device drops out |
| `OneWire.Session.Steer` | firmware/ti/onewire/Session.cpp:132-149 | the branches on the answer and the last fork come to one rule for the code and one for the fork remembered, in either mode |
| `OneWire.RoundOnWalk` | firmware/ti/onewire/Session.cpp:121-152 | after index i the active devices are exactly those whose first i + 1 bits are the context's, the path lies on the walk, and the fork is the deepest one so far; no answer exactly when there is no device |
| `OneWire.MeantBits` | firmware/ti/include/onewire/onewire.h:50-61 | as they are meant, one bit is set or read and the others are left alone |
| `OneWire.CallIsSearch` | firmware/ti/onewire/Session.cpp:112-157 | the rounds of a call find the end of the walk and its deepest fork |
| `OneWire.WalkEnds` | firmware/ti/onewire/Session.cpp:154-156 | at index 64 the remembered fork is the deepest index where the path took 0 while another code shares the prefix and has 1, and one device is left |
| `SearchEnumeration.FirstCall` | firmware/ti/onewire/Session.cpp:112-157 | the first call of a fresh context finds the least reachable code whatever last_id_ held |
| `SearchEnumeration.NextCall` | firmware/ti/onewire/Session.cpp:112-157 | a later call finds the least reachable code above the one found before (bit 0 most significant) |
| `SearchEnumeration.DoneAtGreatest` | firmware/ti/onewire/Session.cpp:154-155 | the search is done exactly on the greatest reachable code |
| `SearchEnumeration.CallMakesProgress` | firmware/ti/onewire/Session.cpp:112-157 | each call takes exactly one code off those still greater, the measure of the search |
| `SearchEnumeration.CallFinds` | firmware/ti/onewire/Session.cpp:112-157 | the k-th call returns the k-th code of the enumeration, and true as long as there is one |
| `SearchEnumeration.SearchEnumerates` | firmware/ti/onewire/Session.cpp:112-157 | with the bits as they are meant: for every nonempty set of codes the calls return each reachable code exactly once, in ascending order |
| `SearchEnumeration.FindAll` | firmware/ti/onewire/Session.cpp:112-157 | resetting and calling until done gives the enumeration, in place |
| `SearchEnumeration.CompleteIffBit0Agrees` | firmware/ti/onewire/Session.cpp:119-155 | with the bits as they are meant, every device is found if and only if all codes agree on bit 0: index 0 doubles as "no fork" |
| `SearchShifts.HighCodeNeverFound` | firmware/ti/include/onewire/onewire.h:50-61 | as the bits are written, whatever a shift by 32 or more gives: a device with a bit above 31 is never found from a context that starts without such bits |
| `SearchShifts.FreshEndsInWord` | firmware/ti/include/onewire/onewire.h:50-61 | with shifts that give 0, a search that answers has lost everything above bit 31 |
| `SearchShifts.HighCodeLost` | firmware/ti/include/onewire/onewire.h:50-61 | with shifts that give 0, no number of calls finds a device with a bit above 31, whatever was in the context's memory |
| `SearchShifts.AfterAlike` | firmware/ti/include/onewire/onewire.h:50-61 | on a bus without such devices every call is the one that is meant |
| `SearchShifts.WrittenFindsAll` | firmware/ti/onewire/Session.cpp:112-157 | with shifts that give 0, repeated calls find every device if and only if all codes agree on bit 0 and none has a bit above 31 |
| `SearchEnumeration.ReadThenMatchSelects` | firmware/ti/onewire/Session.cpp:92-105 | the code read from a lone device, sent with MATCH ROM, selects exactly that device among any others |
| `Crc.Crc` | firmware/ti/onewire/crc.cpp:25-33 | the table loop computes the bit-serial reflected CRC-8 of the polynomial x^8 + x^5 + x^4 + 1 for data of any length |
| `Crc.TableIsByteStep` | firmware/ti/onewire/crc.cpp:5-23 | each of the 256 table entries is eight steps of the shift register |
| `Crc.RegisterFedByte` | firmware/ti/onewire/crc.cpp:29-30 | feeding a byte bit by bit is one table step on the exclusive or of register and byte |
| `Crc.CrcLinear` | firmware/ti/onewire/crc.cpp:25-33 | the CRC of the exclusive or of two messages of one length is the exclusive or of their CRCs |
| `Crc.ResidueZeroIffCrc` | firmware/ti/onewire/crc.cpp:25-33 | a message followed by a byte has CRC 0 if and only if the byte is the CRC of the message |
| `Crc.BurstDetected` | firmware/ti/onewire/crc.cpp:25-33 | two messages of one length that differ within eight consecutive bits have different CRCs |
| `Text.FindAtStart` | deephome/common/source/proto/Message.cpp:38-51 | `find(p) == 0` holds exactly for lines that begin with p |
| `Text.PaddedHex` | deephome/common/source/proto/Message.cpp:125-147 | a number printed in hex and padded with zeros to a width that holds it has this width and is read back |
| `Text.ReadHexOfDigits` | deephome/common/source/proto/Message.cpp:149-197 | stream extraction of hex digits in range gives their value whatever the variable held |
| `Messages.BytesToHex` | deephome/common/source/proto/Message.cpp:350-358 | two hex digits a byte, in order |
| `Messages.HexToBytes` | deephome/common/source/proto/Message.cpp:378-397 | the loop reads the bytes that the pairs of digits stand for |
| `Messages.MessageObject.Serialize` | deephome/common/source/proto/Message.cpp:125-147 | the printed form of the message |
| `Messages.MessageObject.Deserialize` | deephome/common/source/proto/Message.cpp:149-197 | the fields after parsing any line, including what a failed parse leaves behind |
| `Messages.CommandObject.Serialize` | deephome/common/source/proto/Message.cpp:399-410 | action and arguments in the order of the map |
| `Messages.CommandObject.Deserialize` | deephome/common/source/proto/Message.cpp:412-455 | accepts exactly the lines of the grammar and assigns the fields only then |
| `Messages.ReadArguments` | deephome/common/source/proto/Message.cpp:425-451 | the argument loop parses the tokens of the rest of the line; its position ascends |
| `Messages.SplitInPlace` | deephome/common/source/proto/Message.cpp:434-445 | looking for the colon in the whole line finds the one of the token or none |
| `Messages.PrintedNumber` | deephome/common/source/proto/Message.cpp:341-348 | every 32-bit number printed in 2, 4 or 8 digits is read back |
| `WireFormat.Create` | deephome/common/source/proto/Message.cpp:38-51 | a line is parsed by the class its prefix selects |
| `WireFormat.PacketRoundTrip` | deephome/common/source/proto/Message.cpp:38-51 | parsing a printed packet gives the packet back if and only if it is well formed |
| `WireFormat.MessageRoundTrip` | deephome/common/source/proto/Message.cpp:125-197 | a message survives print and parse, into any object, if and only if its body has at most 8 bytes and is empty for a request |
| `WireFormat.CommandRoundTrip` | deephome/common/source/proto/Message.cpp:399-455 | a command with a legal nonempty action, legal nonempty keys and legal values survives print and parse |
| `WireFormat.InitRoundTrip` | deephome/common/source/proto/Message.cpp:261-287 | a device init packet survives exactly when its new id has two digits: the width is set for the old id only |
| `WireFormat.ParsePrintParse` | deephome/common/source/proto/Message.cpp:399-455 | printing what any accepted line was parsed to, and parsing that, changes nothing |
| `WireFormat.ParsedIsWellFormed` | deephome/common/source/proto/Message.cpp:38-51 | the parsers produce well-formed packets only, init packets aside |
| `WireFormat.InsertUpdates` | deephome/common/source/proto/Message.cpp:333-339 | assigning an argument keeps the map sorted, gives the key its new value and leaves all other keys alone |
| `WireFormat.NumberReadsBack` | deephome/common/source/proto/Message.cpp:341-376 | a numeric argument is read back and other arguments stay |
| `WireFormat.RawReadsBack` | deephome/common/source/proto/Message.cpp:350-397 | a raw argument is read back if and only if it is not empty |
| `WireFormat.ReadBytesInverse` | deephome/common/source/proto/Message.cpp:350-397 | bytes survive the trip through hex digits |
| `WireGrammar.CommandGrammar` | deephome/common/source/proto/Message.cpp:412-455 | a line with the prefix of a command is accepted if and only if its action and all its words are as they must be, however they are spaced; the last word for a key counts |
| `WireGrammar.MessageGrammar` | deephome/common/source/proto/Message.cpp:149-197 | a message is read from the first marks of its line whatever stands between them: a request as such, data if it has an even number of digits up to 16 |
| `WireGrammar.MessageRefused` | deephome/common/source/proto/Message.cpp:149-197 | without one of the marks it is refused |
| `WireGrammar.InitGrammar` | deephome/common/source/proto/Message.cpp:269-287 | after its prefix an init packet is exactly two pairs of digits, the old id before the new one |
| `WireGrammar.RawAccepted` | deephome/common/source/proto/Message.cpp:378-397 | a raw argument is there if and only if it is a nonempty string of pairs of digits, and these are its bytes |
| `WireGrammar.NumberWidth` | deephome/common/source/proto/Message.cpp:341-348 | a number is printed in the least of 2, 4 and 8 digits that holds it |
| `SocketConnection.FeedAppend` | deephome/common/source/proto/SocketConnection.cpp:202-225 | framing a stream in two parts is framing it at once, so the way it is cut does not matter |
| `SocketConnection.TailHasNoNewLine` | deephome/common/source/proto/SocketConnection.cpp:206-213 | what stays in the read buffer is free of line breaks |
| `SocketConnection.SocketConnection.Send` | deephome/common/source/proto/SocketConnection.cpp:123-141 | the line is appended to the buffer unless that would exceed 1 MiB, and the write listener runs |
| `SocketConnection.SocketConnection.OnWriteReady` | deephome/common/source/proto/SocketConnection.cpp:143-177 | bytes sent and bytes buffered stay the accepted lines if and only if no fatal error follows bytes that were sent in the same round |
| `SocketConnection.SocketConnection.SendSome` | deephome/common/source/proto/SocketConnection.cpp:145-166 | the loop hands the kernel what it takes, from the front and without gaps |
| `SocketConnection.RoundEnds` | deephome/common/source/proto/SocketConnection.cpp:145-166 | a round ends when everything is taken, or with the first call that takes nothing and by its outcome; what is taken is the sum of the calls before it |
| `SocketConnection.SocketConnection.OnReadReady` | deephome/common/source/proto/SocketConnection.cpp:179-226 | after any sequence of receives the packets passed on are those of the non-blank lines of the whole stream, and the buffer is its unterminated tail |
| `SocketConnection.SocketConnection.Split` | deephome/common/source/proto/SocketConnection.cpp:205-225 | the scanning loop passes on the complete lines and keeps the tail |
| `SocketConnection.SocketConnection.HandleLine` | deephome/common/source/proto/SocketConnection.cpp:228-245 | a line that parses is passed on as its packet, any other is dropped |
| `SocketConnection.SocketConnection.HandleError` | deephome/common/source/proto/SocketConnection.cpp:247-253 | the error is reported once to the subscriber and both listeners stop |
| `SocketConnection.SocketConnection.Unsubscribe` | deephome/common/source/proto/SocketConnection.cpp:116-121 | both listeners stop and the write buffer is emptied, which loses accepted bytes if and only if there were any |
| `EndToEnd.OneLine` | deephome/common/source/proto/Message.cpp:125-147 | a well-formed packet prints as one line that is not blank |
| `EndToEnd.StreamFrames` | deephome/common/source/proto/SocketConnection.cpp:202-225 | framing the stream of any list of well-formed packets gives one line for each, in order |
| `EndToEnd.EndToEndIdentity` | deephome/common/source/proto/SocketConnection.cpp:123-245 | whatever the kernels take and give at a time, the receiver passes on a prefix of the packets the sender accepted, unchanged and in order, and all of them once every byte has arrived |
| `EndToEnd.SendNext` | deephome/common/source/proto/SocketConnection.cpp:123-141 | what is accepted is the stream of the packets accepted |
| `EventLoops.EventLoop.Push` | deephome/common/source/util/EventLoop.cpp:54-62 | an event goes to the end of the queue |
| `EventLoops.EventLoop.Take` | deephome/common/source/util/EventLoop.cpp:83-90 | the loop takes the front of the queue |
| `EventLoops.EventLoop.Check` | deephome/common/source/util/EventLoop.cpp:92-96 | the handler is started exactly if its scope is valid at this moment |
| `EventLoops.EventLoop.HandleEvents` | deephome/common/source/util/EventLoop.cpp:81-106 | left alone, the loop empties the queue and starts the valid handlers in order |
| `EventLoops.ScopedEventLoop.Enqueue` | deephome/common/include/util/EventLoop.h:102-105 | an event enqueued through a scope carries the counter's present value |
| `EventLoops.ScopedEventLoop.Invalidate` | deephome/common/include/util/EventLoop.h:107-110 | invalidating moves the shared counter on |
| `EventSafety.CountStands` | deephome/common/include/util/EventLoop.h:22-35 | the number of invalidations has not changed since a place in the history exactly when none happened since |
| `EventSafety.ValidityIsRight` | deephome/common/include/util/EventLoop.h:33-33 | the validity test holds if and only if the scope was not invalidated after the event was enqueued |
| `EventSafety.StepKeepsInv` | deephome/common/source/util/EventLoop.cpp:54-106 | every step of any thread keeps queue, history and counters in agreement |
| `EventSafety.EventsAreSafe` | deephome/common/source/util/EventLoop.cpp:54-106 | in every interleaving handlers are dealt with in the order of enqueueing and at most once, none is lost, and one is started if and only if its scope was not invalidated in the meantime |
| `EventSafety.RunCounts` | deephome/common/source/util/EventLoop.cpp:54-106 | over every run each event that enqueues adds one handler, each check deals with one, and each invalidation counts once for its scope |
| `Connections.Connection.SubscribeHandler` | deephome/common/source/proto/Connection.cpp:18-25 | a new subscription ends the old one first |
| `Connections.Connection.UnsubscribeHandler` | deephome/common/source/proto/Connection.cpp:27-35 | the handler is gone and the scope invalidated; without a subscriber nothing happens |
| `Connections.Connection.OnPacketReceived` | deephome/common/source/proto/Connection.cpp:47-51 | a packet is queued for the present subscriber, if there is one |
| `Connections.NoStaleCallback` | deephome/common/source/proto/Connection.cpp:18-51 | a packet callback that starts belongs to the subscription of that moment: none of an earlier one runs after it ended |
| `Subscriptions.EveryPacketIsDelivered` | deephome/common/source/proto/Connection.cpp:18-51 | in every run the callbacks of a subscription that are dealt with, in hand or queued carry exactly the packets received while it held, in order; those started are the first of them, and while it holds none is skipped |
| `Subscriptions.SettledSubscription` | deephome/common/source/proto/Connection.cpp:18-51 | once the queue is empty a subscription that holds has got every packet received during it |
| `Subscriptions.SubscriberHolds` | deephome/common/source/proto/Connection.cpp:18-35 | in every run the subscriber is the one that the subscribes and unsubscribes say |
| `DeviceCommands.DeviceCommandObject.ServiceCommand` | deephome/common/source/client/Command.cpp:32-51 | the service command of the present fields, or the failed check |
| `DeviceCommands.DeviceCommandObject.SetFromServiceCommand` | deephome/common/source/client/Command.cpp:53-78 | the fields after reading any service command, or the failed check |
| `DeviceCommands.DeviceCommandRoundTrip` | deephome/common/source/client/Command.cpp:32-78 | a command survives the trip into an object if and only if it names a device, its body fits, and an empty body finds an empty body there |
| `DeviceCommands.ServiceCommandTravels` | deephome/common/source/client/Command.cpp:32-51 | its service command survives print and parse |
| `DeviceCommands.ReadAsItSays` | deephome/common/source/client/Command.cpp:53-78 | every service command is read if and only if it names a device, an address of 16 bits and at most 8 bytes, and as what it says |
| `ClientFilters.FilterUnderstood` | deephome/router/Router.cpp:424-462 | the router makes of a client's filter command the filter that was meant, or none for an unknown device |
| `ClientFilters.FiltersAgree` | deephome/router/Router.cpp:214-228 | router and client agree on every message: it passes the router's filter if and only if the client's own test accepts it |
| `RouterConfig.ParseDevices` | deephome/router/Config.cpp:86-118 | the sections are accepted exactly if every id is at most 127 and every network is known; then each device has a network of the list |
| `RouterConfig.FindByNameInverse` | deephome/router/Config.cpp:160-164 | a device is found by its name |
| `RouterConfig.FindByIdInverse` | deephome/router/Config.cpp:166-174 | a device is found by network and id if these are distinct |
| `RouterConfig.SharedIdHidesDevice` | deephome/router/Config.cpp:166-174 | otherwise some device is not found |
| `Router.Router.ConnectNetworks` | deephome/router/Router.cpp:80-115 | every reachable network that was down comes up, the count follows, and the reconnect timer runs if one is still down |
| `Router.Router.DisconnectNetwork` | deephome/router/Router.cpp:159-166 | the network goes down and its reply filters go |
| `Router.Router.RemoveFilters` | deephome/router/Router.cpp:393-405 | exactly the filters that meet the criterion go, the others keep their order |
| `Router.Router.CloseConnections` | deephome/router/Router.cpp:333-342 | connections and their filters go together |
| `Router.Router.OnConnectionPacket` | deephome/router/Router.cpp:347-391 | a command is carried out, the null packet closes the connection, any other packet is ignored |
| `Router.Router.OnConnectionCommand` | deephome/router/Router.cpp:371-391 | what a command does, its answer, and the closing of a connection whose buffer is full |
| `Router.Router.OnConnectionLost` | deephome/router/Router.cpp:365-370 | a terminated connection goes with its filters |
| `Router.Router.Handle` | deephome/router/Router.cpp:407-462 | dispatch on the action; a filter command appends its filter |
| `Router.Router.HandleSend` | deephome/router/Router.cpp:464-524 | checks, message and reply filter of a send or query, and the timer when the queue was empty |
| `Router.Router.OnAccepted` | deephome/router/Router.cpp:310-323 | a started router takes the connection under the next number |
| `RouterLedger.NumbersAreNew` | deephome/router/Router.cpp:310-323 | over every run, with its stops and starts, connections get ascending numbers, none of them used before |
| `Router.Router.OnNetworkPacket` | deephome/router/Router.cpp:143-174 | a message is handled, the null packet disconnects the network, any other packet is ignored |
| `Router.Router.OnDevicePacket` | deephome/router/Router.cpp:176-212 | deliveries, surviving filters and closed connections of a device message |
| `Router.Router.VisitFilters` | deephome/router/Router.cpp:188-209 | the walk over the list that erases while it goes visits each filter once and refines the functional form |
| `RouterSockets.RouteTo` | deephome/router/Router.cpp:230-256 | a message is routed exactly if the connection exists and its send buffer takes the line; then the bytes it has accepted end with a line that its receiver hands on as one packet and reads as the device's name, address and data |
| `RouterSockets.RoutedLine` | deephome/router/Router.cpp:238-246 | the printed command is delivered as itself and read as the device's message |
| `Router.Router.OnNetworkLost` | deephome/router/Router.cpp:143-157 | losing a network while started |
| `Router.Router.OnSendTimer` | deephome/router/Router.cpp:526-558 | one record leaves the queue: sent with its reply filter armed, or dropped with its network down or overflowing |
| `Router.Router.OnReconnectTimer` | deephome/router/Router.cpp:136-141 | a round of connection attempts |
| `Router.Router.StartRouter` | deephome/router/Router.cpp:39-51 | networks are connected, then the router is started |
| `Router.Router.StopRouter` | deephome/router/Router.cpp:53-65 | networks, connections, filters and timers go; the send queue stays |
| `Router.WithoutMembers` | deephome/router/Router.cpp:393-405 | a filter stays if and only if it was there and is not to be dropped |
| `RouterSteps.StepStarted` | deephome/router/Router.cpp:39-65 | the router is started by a start and stopped by a stop |
| `RouterSteps.RoundConnects` | deephome/router/Router.cpp:80-115 | a round of connection attempts leaves a network up if and only if it was up or can be reached |
| `RouterSteps.StepNetworks` | deephome/router/Router.cpp:80-166 | for every event: a network comes up by a round that reaches it and goes down by its loss, by a message it has no room for, or by a stop, and by nothing else |
| `RouterSteps.LossTakesReplyFilters` | deephome/router/Router.cpp:159-166 | with a network exactly the reply filters of its devices go |
| `RouterSteps.StepConnections` | deephome/router/Router.cpp:333-391 | for every event: a connection stays until it is lost, has no room for an answer or for a message one of its filters takes, or the router stops; only an accepted one is new |
| `RouterSteps.PacketConnections` | deephome/router/Router.cpp:188-212 | after a device message exactly the connections that did not take it have left |
| `RouterSteps.ClosingTakesFilters` | deephome/router/Router.cpp:333-342 | with connections exactly their filters go |
| `RouterSteps.FilterAccepted` | deephome/router/Router.cpp:424-462 | a client's filter command is accepted unless it names an unknown device; the filter meant joins the end of the list, the others stay |
| `RouterSteps.OtherCommandsRefused` | deephome/router/Router.cpp:407-422 | any other action is refused |
| `RouterDelivery.RecordMade` | deephome/router/Router.cpp:464-524 | a send or query of a client is made into the record it means, or refused |
| `RouterDelivery.OnlyWhatIsMeant` | deephome/router/Router.cpp:464-524 | whatever command is accepted, the record is that of a client's command with its device, address and bytes |
| `RouterDelivery.CommandAccepted` | deephome/router/Router.cpp:464-524 | a send is accepted if and only if its device is known, its network is up and its body has 1 to 8 bytes; then the message to the device's id and the command's address joins the queue, and nothing else changes but the timer |
| `RouterDelivery.WhatIsSent` | deephome/router/Router.cpp:526-558 | over every run: what is sent is the message of each record taken while its network was up and had room, on this network, in order, and nothing else; the records taken are the first of those there were and those accepted |
| `RouterDelivery.CommandReachesNetwork` | deephome/router/Router.cpp:464-558 | a client's command goes out, to its device on the device's network, with the tick after as many as there were records ahead of it, whatever happens meanwhile, if the network is up and has room then |
| `RouterDelivery.CommandGoesOutAtOnce` | deephome/router/Router.cpp:464-558 | on an empty queue that is the next tick, and its timer runs |
| `RouterRuns.RecordIsGood` | deephome/router/Router.cpp:464-524 | whatever command it is made of, a record has the network, which is up, and the id of the device named, the address and the data given; a query carries the reply filter of its connection |
| `RouterRuns.StepKeepsInv` | deephome/router/Router.cpp:80-166 | every event keeps: the count of connected networks is right, reply filters wait on connected networks only, and the reconnect timer runs exactly while a started router has a network down |
| `RouterLedger.StepLedger` | deephome/router/Router.cpp:159-212 | one event: queued and outstanding queries of any kind plus those accepted are those left plus those replied to plus those given up, for the reasons listed |
| `RouterLedger.RunLedger` | deephome/router/Router.cpp:159-212 | the same over every run: no query is lost or made up |
| `RouterLedger.StepReplies` | deephome/router/Router.cpp:230-256 | the "reply" commands sent to a client are the filters answered |
| `RouterLedger.NoSpareReplies` | deephome/router/Router.cpp:168-212 | a connection never gets more replies than it had queries accepted |
| `RouterFilters.OnePass` | deephome/router/Router.cpp:188-211 | the k-th delivery goes to the k-th filter that passes and is routed; what is left is the old list, in order, without used-up filters and filters of dead connections |
| `RouterFilters.WrittenLoopEnds` | deephome/router/Router.cpp:188-209 | as written the loop ends if and only if every filter that passes can be routed |
| `RouterFilters.TestsAgree` | deephome/router/Router.cpp:217-218 | as written the address test agrees with the intended one on all addresses for exactly the filters with address 0 and mask 0 or 1 |
| `RouterFilters.ReplyFilterTests` | deephome/router/Router.cpp:217-218 | a reply filter is meant for its own address; as written it takes all even addresses, or all if it waits for 0xffff |
| `RouterHang.LoopCanHang` | deephome/router/Router.cpp:188-209 | for every configuration, every device and either test a run exists after which the device's answer makes the loop as written spin for ever: a client whose buffer has no room for the answer to its query is disconnected, and the query is sent all the same |
| `RouterSchedule.StepQueue` | deephome/router/Router.cpp:519-558 | one event puts records at the end of the queue or takes one from the front |
| `RouterSchedule.QueueIsFifo` | deephome/router/Router.cpp:519-558 | over every run records leave in the order of acceptance, one for each tick |
| `RouterSchedule.LeavesAtItsTick` | deephome/router/Router.cpp:519-558 | a record with k others ahead leaves on the (k + 1)-th tick and not before |
| `RouterSchedule.StepKeepsPace` | deephome/router/Router.cpp:519-558 | the send timer runs exactly while the queue is not empty, and only a start on an old queue breaks this |
| `RouterSchedule.PacedUntilStop` | deephome/router/Router.cpp:39-65 | from a start on an empty queue to the next stop it holds |
| `RouterSchedule.RestartStalls` | deephome/router/Router.cpp:53-65 | after stop and start the router stalls if and only if something was left in the queue |
| `RouterSchedule.StalledSendsNothing` | deephome/router/Router.cpp:519-558 | a stalled router accepts commands but sends nothing until it is stopped again |
| `Dispatcher.Dispatcher.IssueQuery` | deephome/common/source/client/Dispatcher.cpp:85-104 | a query gets the next id and goes to the end of the list, or nothing changes if the connection has no room |
| `Dispatcher.Dispatcher.OnReceived` | deephome/common/source/client/Dispatcher.cpp:130-160 | the null packet is reported, a command goes to its handling, and a failed check leaves everything as it was |
| `Dispatcher.Dispatcher.OnPacket` | deephome/common/source/client/Dispatcher.cpp:141-159 | what each kind of command does |
| `Dispatcher.Dispatcher.HandleDeviceCommand` | deephome/common/source/client/Dispatcher.cpp:175-217 | a reply closes the first matching query, a status goes to the first accepting filter, anything else to the handler for unknown commands |
| `Dispatcher.Dispatcher.OnQueryTimeout` | deephome/common/source/client/Dispatcher.cpp:162-173 | the query with the id is closed, if it is still there |
| `Dispatcher.Dispatcher.AddClientFilter` | deephome/common/source/client/Dispatcher.cpp:63-72 | the filter command is sent and the filter appended |
| `Dispatcher.Dispatcher.StopDispatcher` | deephome/common/source/client/Dispatcher.cpp:39-51 | pending queries and filters go, cleanly unless a query takes a running timeout with it |
| `Dispatcher.StepKeepsInv` | deephome/common/source/client/Dispatcher.cpp:85-217 | pending queries stay in the order of issue and their ids are their numbers cut to 32 bits |
| `Dispatcher.IdsIdentify` | deephome/common/source/client/Dispatcher.cpp:92-98 | ids are distinct while the oldest pending query is less than 2^32 queries old, and ascending until the counter wraps |
| `Dispatcher.TimerClosesItsQuery` | deephome/common/source/client/Dispatcher.cpp:162-173 | then a timer closes its own query and no other |
| `Dispatcher.StepCloses` | deephome/common/source/client/Dispatcher.cpp:116-128 | an event that closes a query erases it and calls its handler once; a reply closes the first query it matches |
| `Dispatcher.RunConserves` | deephome/common/source/client/Dispatcher.cpp:85-217 | over every run each query issued is still pending, has had its handler called exactly once, or was given up by a stop |
| `Dispatcher.CalledAtMostOnce` | deephome/common/source/client/Dispatcher.cpp:116-128 | no handler is called twice |
| `Dispatcher.RepliesServeInOrder` | deephome/common/source/client/Dispatcher.cpp:175-193 | replies from one device and address serve the queries in the order of issue |
| `DispatcherFilters.StatusGoesToFirst` | deephome/common/source/client/Dispatcher.cpp:195-217 | a status goes to the handler of the first filter that accepts it, which leaves exactly if it is one-time; to the handler for unknown commands exactly if there is none |
| `DispatcherFilters.OthersLeaveFilters` | deephome/common/source/client/Dispatcher.cpp:39-72 | nothing but a status calls a filter's handler, and filters come and go otherwise only by being added and by a stop |
| `DispatcherFilters.LastingStay` | deephome/common/source/client/Dispatcher.cpp:195-217 | over every run up to a stop the filters that are not one-time stay, in order |
| `DispatcherFilters.OneTimeConserved` | deephome/common/source/client/Dispatcher.cpp:195-217 | over every run a one-time filter is waiting, has had its handler called once, or was given up by a stop |
| `DispatcherFilters.OneTimeCalledOnce` | deephome/common/source/client/Dispatcher.cpp:195-217 | the handler of a one-time filter is called at most once |
| `QueryProtocol.RoutedMessage` | deephome/router/Router.cpp:238-242 | the client reads a routed command as the device's name, address and body |
| `QueryProtocol.RoutedNetwork` | deephome/router/Router.cpp:238-242 | a routed command names the device's network |
| `QuerySafety.PassingRepliesFit` | deephome/router/Router.cpp:214-228 | with the intended test and distinct ids a message reaches only reply filters of its own device and address |
| `QuerySafety.RouterMoves` | deephome/router/Router.cpp:168-212 | whatever the router does, a client's queries under way do not grow, except by the query it reads |
| `QuerySafety.ReplyFindsQuery` | deephome/common/source/client/Dispatcher.cpp:175-193 | a reply that arrives finds a pending query with its device and address |
| `QuerySafety.StepKeepsFrame` | deephome/common/source/client/Dispatcher.cpp:130-160 | what is in a client's channel always gets past the client's checks and has an action it knows |
| `QuerySafety.StepBalances` | deephome/router/Router.cpp:168-228 | with the intended test and distinct ids, no step puts a query under way without one pending but a plain query, none closes a pending one that stays under way but a timeout, and a reply goes astray only when none is pending |
| `QuerySafety.StepIsSafe` | deephome/common/source/client/Dispatcher.cpp:85-217 | every step of the system keeps the counts and lets no reply go astray |
| `QuerySafety.RunIsSafe` | deephome/common/source/client/Dispatcher.cpp:85-217 | in every run of any number of clients every reply finds its query, given what the protocol needs |
| `QuerySafety.StraysAreBounded` | deephome/common/source/client/Dispatcher.cpp:74-193 | with timeouts and plain queries, too: over every run the replies to a client that go astray for one device and address are no more than its queries for them that timed out or were sent with `send` |
| `QueryMishaps.RepliesFindTheirQueries` | deephome/router/Router.cpp:168-228 | this holds of all runs if and only if the address test is the intended one, devices have distinct ids, and clients send their queries as queries and with infinite timeouts |
| `QueryReports.OutputFails` | deephome/router/Router.cpp:371-391 | what the router sends to a connection holds a failure exactly for a command that it refuses |
| `QueryReports.FailuresAreReported` | deephome/common/source/client/Dispatcher.cpp:141-159 | over every run a client is told of a failure once for each of its commands that the router refused, but for those it has yet to read |
| `CanNode.ChannelRoundTrip` | firmware/stm8/can_node/module.c:147-151 | a module's load reads exactly the bytes its save wrote and restores its settings, analog sensors under their condition; other channels stay |
| `CanNode.RoundTrip` | firmware/stm8/can_node/module.c:130-191 | loading a saved image into any node reads exactly the bytes written and restores id, name and functions, and the settings, too, if and only if the sensors in use survive |
| `CanNode.AnalogRead` | firmware/stm8/can_node/mod_analog.c:264-291 | a sensor saved as meant comes back; saved as written it comes back only if its bytes coincide with what the buffer happens to hold |
| `CanNode.SensorsNeverSure` | firmware/stm8/can_node/mod_analog.c:264-275 | as the save is written, the sensors survive whatever is on the stack if and only if no channel is analog |
| `CanNode.SwitchRead` | firmware/stm8/can_node/mod_switch.c:154-179 | configuration and off delay of a switch come back |
| `CanNode.LoadIsValid` | firmware/stm8/can_node/module.c:158-191 | whatever the EEPROM holds, every channel ends up with a known function and its module |
| `CanNodeBoard.ConfigReadsBack` | firmware/stm8/can_node/module.c:64-112 | a configuration byte written over the bus is read back cut to the bits the module has |
| `CanNodeBoard.WordsReadBack` | firmware/stm8/can_node/module.c:64-112 | off delays and ranges written over the bus are read back |
| `CanNodeBoard.NameReadsBack` | firmware/stm8/can_node/sysinfo.c:18-100 | a name is read back up to its first zero |
| `CanNodeBoard.SwitchGoesOff` | firmware/stm8/can_node/mod_switch.c:138-151 | with an off delay in force a switch goes off at the delay-th tick after it was turned on, at the first if the delay is 0 |
| `CanNodeBoard.StepKeepsInv` | firmware/stm8/can_node/module.c:39-125 | every packet, tick and power cycle keeps channels and modules in agreement, and only saving events write to the EEPROM |
| `CanNodeBoard.PowerOnIsValid` | firmware/stm8/can_node/module.c:158-191 | so does switching on with any EEPROM |
| `CanNodeBoard.SettingsSurvive` | firmware/stm8/can_node/module.c:130-191 | after a save and any events that do not save, a power cycle restores what was saved if and only if the sensors in use survive |
| `CanNodeBoard.SettingsAlwaysSurvive` | firmware/stm8/can_node/module.c:130-191 | with the save as written this is sure, whatever is on the stack, if and only if no channel is analog |
| `CanNodeChannels.SwitchReadsBack` | firmware/stm8/can_node/mod_switch.c:110-135 | writing a switch's value turns it on or off, and a request then gives that |
| `CanNodeChannels.SwitchObeysDelay` | firmware/stm8/can_node/mod_switch.c:110-151 | a switch turned on over the bus is on before the delay-th clock tick and off from it on with an off delay in force, on for good without one; one turned off stays off |
| `CanNodeChannels.ButtonFollowsPin` | firmware/stm8/can_node/mod_button.c:101-125 | over clock ticks a button is as its pin was last found; one that locks stays pressed once it was |
| `CanNodeChannels.ButtonReleases` | firmware/stm8/can_node/mod_button.c:127-154 | writing 0 lets go of a locked button, other values change nothing |
| `CanNodeChannels.ButtonReconfigured` | firmware/stm8/can_node/mod_button.c:127-145 | a new configuration takes effect at once but does not let go of a button it locks |
| `CanNodeChannels.FunctionReadsBack` | firmware/stm8/can_node/module.c:39-55 | a function number written over the bus is read back and gives the channel its module; one that does not exist changes nothing |
| `CanNodeChannels.WriteLeavesOthers` | firmware/stm8/can_node/module.c:64-112 | a write to a field leaves every other request as it was, but for a button whose configuration is written |
| `CanNodeChannels.StatesAfterPowerCycle` | firmware/stm8/can_node/mod_switch.c:161-179 | whatever the EEPROM holds, after a power cycle a switch is on exactly if its configuration asks for it and a button is pressed exactly if held down |
| `CanNodeChannels.SavingHolds` | firmware/stm8/can_node/module.c:130-156 | after a write that saves the EEPROM begins with the node as it then is |
| `CanNodeChannels.NameIsKept` | firmware/stm8/can_node/sysinfo.c:87-100 | a name that was written is there after a power cycle |
| `CanNodeChannels.IdIsSet` | firmware/stm8/can_node/module.c:130-191 | setting the device id saves everything and starts anew under this id |
| `CanNodeFirmware.Stream.WriteByte` | firmware/stm8/can_node/eestream.c:27-30 | bytes are written one after the other and nothing else changes |
| `CanNodeFirmware.Reader.ReadByte` | firmware/stm8/can_node/eestream.c:22-25 | bytes are read one after the other |
| `CanNodeFirmware.Firmware.SaveModules` | firmware/stm8/can_node/module.c:130-156 | the EEPROM begins with the image, the rest of it is as before, the node unchanged |
| `CanNodeFirmware.Firmware.FillBuffer` | firmware/stm8/can_node/mod_analog.c:264-275 | the buffer of an analog save, in both forms |
| `CanNodeFirmware.Firmware.LoadModules` | firmware/stm8/can_node/module.c:158-191 | the static data after a load |
| `CanNodeFirmware.Firmware.PutChannel` | firmware/stm8/can_node/module.c:39-55 | a channel gets function and module together |
| `CanNodeFirmware.Firmware.HandleData` | firmware/stm8/can_node/module.c:64-105 | dispatch of a data packet to the module of its address |
| `CanNodeFirmware.Firmware.WriteName` | firmware/stm8/can_node/sysinfo.c:87-100 | the name is padded with zeros |
| `CanNodeFirmware.Firmware.HandleTimer` | firmware/stm8/can_node/module.c:115-125 | one tick for every channel that has a timer |

## Left out

- Pulse timing, interrupts and pins of the 1-Wire master: a slot is one step of the bus. The thermometer
  commands that follow the selection of a device are not modelled.
- Sockets, libev, threads, logging, the HTTP server, the controller and the device scripts: only the
  outcomes of their calls appear. `Timeout` appears as a flag that is set when it runs.
- `util::Config` and the reading of configuration files: the sections of the configuration are given.
  Names of devices and networks are taken to be legal command arguments, which the router asserts when
  it prints them.
- `std::istringstream` reads of hexadecimal numbers follow the rules of the C++ library (white space, sign,
  prefix, saturation); locales and stream error states beyond them are not modelled.
- Failed `DH_VERIFY` checks end the modelled call with an error; a build without assertions would go on.
- Counters of the router that can wrap after 2^31 or 2^32 uses: connection numbers and scope counters are
  unbounded. The ids of the dispatcher's queries are modelled with their wrap.
- Handler re-entry of the dispatcher is modelled as the next event: calling the handler is the last act
  of each event, so what the handler does comes after it.
- EventLoops.EventLoop.HandleEvents: states the loop without interference; interference is covered by the
  steps `Take`, `Check` and `Finish` and the runs over them. An exception in a handler is a handler that
  ended.
- The system of clients and router has connections that stay `intact`: what one end accepts reaches the
  other once and in order, or not at all after a disconnect. After a fatal error that follows a line sent in
  the same round (`deephome/common/source/proto/SocketConnection.cpp:161-162`) a client whose event loop
  handles the exception sends that line again, and the second reply to its query is then astray.
- Two threads that test and increment a scope's counter at the same moment: the counter is not protected
  in the source, the model takes both as atomic.
- CanNodeBoard.StepKeepsInv: does not model the conversion of analog values, the rotation of the sensors
  over the converter (its loop does not end once a disabled sensor is met), PWM, which has no module, the
  requests for type, version and serial number, messages sent on the node's own account, and the levels
  that switches drive their pins to.
- The CAN engine below the packets: filters, the update of device ids before it reaches the node.
- `Serializer.h` and the conversion of temperatures: floating point.
