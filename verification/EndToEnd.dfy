/** Packets from one SocketConnection to another: whatever the kernel takes at a time and however the
    bytes arrive, the receiver passes on what the sender accepted
    (deephome/common/source/proto/SocketConnection.cpp:123-245, Message.cpp:38-51). */
module EndToEnd {
  import opened Sequences
  import opened Text
  import opened Messages
  import opened WireFormat
  import opened SocketConnection

  /** The bytes the accepted packets amount to. */
  function Stream(packets: seq<Packet>): string {
    FlatMap(Line, packets)
  }

  function Line(p: Packet): string {
    Print(p) + "\r\n"
  }

  function PrintedLines(packets: seq<Packet>): seq<string> {
    seq(|packets|, i requires 0 <= i < |packets| => Print(packets[i]))
  }

  function Deliveries(packets: seq<Packet>): seq<Event> {
    seq(|packets|, i requires 0 <= i < |packets| => Delivered(packets[i]))
  }

  ghost predicate AllWellFormed(packets: seq<Packet>) {
    forall i | 0 <= i < |packets| :: WellFormed(packets[i])
  }

  lemma HexHasNoNewLine(s: string)
    requires IsHex(s)
    ensures NoNewLine(s)
  {
    forall i | 0 <= i < |s|
      ensures !NewLine(s[i])
    {
      assert HexChar(s[i]);
    }
  }

  lemma LegalHasNoNewLine(s: string)
    requires Legal(s)
    ensures NoNewLine(s)
  {
    forall i | 0 <= i < |s|
      ensures !NewLine(s[i])
    {
      assert LegalChar(s[i]);
    }
  }

  lemma {:induction false} ArgumentsHaveNoNewLine(arguments: Arguments)
    requires LegalArguments(arguments)
    ensures NoNewLine(PrintArguments(arguments))
    decreases arguments
  {
    if arguments != [] {
      LegalHasNoNewLine(arguments[0].0);
      LegalHasNoNewLine(arguments[0].1);
      ArgumentsHaveNoNewLine(arguments[1..]);
    }
  }

  /** A well-formed packet is printed on one line, and not a blank one. */
  lemma OneLine(p: Packet)
    requires WellFormed(p)
    ensures NoNewLine(Print(p)) && !BlankLine(Print(p))
  {
    match p {
      case MessagePacket(m) => MessageLine(m);
      case CommandPacket(c) => CommandLine(c);
      case InitPacket(newId, oldId) => InitLine(newId, oldId);
    }
  }

  lemma MessageLine(m: Message)
    ensures NoNewLine(PrintMessage(m)) && !BlankLine(PrintMessage(m))
  {
    var data := PrintMessage(m);
    Layout(m);
    HexHasNoNewLine(ByteHex(m.deviceId));
    HexHasNoNewLine(WordHex(m.address));
    HexHasNoNewLine(PrintBytes(m.body));
    assert data == data[..4] + data[4..6] + data[6..8] + data[8..13] + data[13..17] + data[17..19] + data[19..];
    assert NoNewLine("dev:") && NoNewLine("  ") && NoNewLine("addr:") && NoNewLine(data[19..]);
    assert data[0] == data[..4][0] == 'd';
  }

  lemma CommandLine(c: Command)
    requires WellFormedCommand(c)
    ensures NoNewLine(PrintCommand(c)) && !BlankLine(PrintCommand(c))
  {
    LegalHasNoNewLine(c.action);
    ArgumentsHaveNoNewLine(c.arguments);
    assert PrintCommand(c)[0] == 'c';
  }

  lemma InitLine(newId: Byte, oldId: Byte)
    ensures NoNewLine(PrintInit(newId, oldId)) && !BlankLine(PrintInit(newId, oldId))
  {
    HexHasNoNewLine(ByteHex(oldId));
    HexHasNoNewLine(ToHex(newId));
    assert PrintInit(newId, oldId)[0] == 'd';
  }

  lemma FeedPacket(lines: seq<string>, p: Packet, rest: string)
    requires WellFormed(p)
    ensures FeedAll(Framed(lines, ""), Line(p) + rest) == FeedAll(Framed(lines + [Print(p)], ""), rest)
  {
    OneLine(p);
    assert Line(p) + rest == Print(p) + ("\r\n" + rest);
    FeedLine(lines, Print(p), "\r\n", rest);
  }

  lemma PrintedFirst(lines: seq<string>, packets: seq<Packet>)
    requires packets != []
    ensures lines + [Print(packets[0])] + PrintedLines(packets[1..]) == lines + PrintedLines(packets)
  {
    assert PrintedLines(packets) == [Print(packets[0])] + PrintedLines(packets[1..]);
  }

  /** Framing the stream of well-formed packets gives one line per packet, in order. */
  lemma {:induction false} StreamFrames(lines: seq<string>, packets: seq<Packet>)
    requires AllWellFormed(packets)
    ensures FeedAll(Framed(lines, ""), Stream(packets)) == Framed(lines + PrintedLines(packets), "")
    decreases packets
  {
    if packets == [] {
      assert lines + PrintedLines(packets) == lines;
    } else {
      var rest := packets[1..];
      FeedPacket(lines, packets[0], Stream(rest));
      PrintedFirst(lines, packets);
      StreamFrames(lines + [Print(packets[0])], rest);
    }
  }

  lemma DeliveredAsPrinted(p: Packet)
    requires WellFormed(p)
    ensures LineEvents(Print(p)) == [Delivered(p)]
  {
    PacketRoundTrip(p);
  }

  lemma {:induction false} LinesParse(packets: seq<Packet>)
    requires AllWellFormed(packets)
    ensures Events(PrintedLines(packets)) == Deliveries(packets)
    decreases packets
  {
    if packets != [] {
      DeliveredAsPrinted(packets[0]);
      assert PrintedLines(packets)[1..] == PrintedLines(packets[1..]);
      LinesParse(packets[1..]);
    }
  }

  /** The lines of a prefix of a stream are a prefix of its lines, and so are the deliveries. */
  lemma PrefixFrames(part: string, whole: string)
    requires part <= whole
    ensures Events(Frame(part).lines) <= Events(Frame(whole).lines)
  {
    var rest := whole[|part|..];
    assert whole == part + rest;
    FeedAppend(NOTHING, part, rest);
    FeedKeepsLines(Frame(part), rest);
    FlatMapAppend(LineEvents, Frame(part).lines, FeedAll(Framed([], Frame(part).tail), rest).lines);
  }

  /** A sender that accepted `packets` and a receiver that got some of the bytes the sender's kernel
      took: the deliveries are the first of these packets, in order and unchanged, and all of them
      once every byte has arrived. */
  lemma EndToEndIdentity(sender: SocketConnection, receiver: SocketConnection, packets: seq<Packet>)
    requires sender.Valid() && sender.intact && sender.accepted == Stream(packets) && AllWellFormed(packets)
    requires receiver.Valid() && !receiver.gotError && receiver.stream <= sender.wire
    ensures receiver.events <= Deliveries(packets)
    ensures sender.writeBuffer == "" && receiver.stream == sender.wire ==>
            receiver.events == Deliveries(packets) && receiver.readBuffer == ""
  {
    StreamFrames([], packets);
    assert [] + PrintedLines(packets) == PrintedLines(packets);
    LinesParse(packets);
    assert receiver.stream <= sender.accepted by {
      assert sender.accepted == sender.wire + sender.writeBuffer;
    }
    PrefixFrames(receiver.stream, sender.accepted);
    if sender.writeBuffer == "" && receiver.stream == sender.wire {
      assert sender.wire + "" == sender.wire;
    }
  }

  /** What `send` accepts is the stream of the packets it accepted. */
  method SendNext(connection: SocketConnection, packets: seq<Packet>, p: Packet) returns (ok: bool)
    requires connection.Valid() && !connection.gotError && connection.accepted == Stream(packets)
    requires WellFormed(p)
    modifies connection
    ensures connection.Valid() && connection.accepted == Stream(if ok then packets + [p] else packets)
  {
    ok := connection.Send(p);
    FlatMapAppend(Line, packets, [p]);
    FlatMapOne(Line, p);
  }
}
