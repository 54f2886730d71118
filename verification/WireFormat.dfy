/** Printing and parsing packets (deephome/common/source/proto/Message.cpp): what survives a round trip. */
module WireFormat {
  import opened Text
  import opened Messages

  // --- Packets ---

  datatype Packet =
    | MessagePacket(message: Message)
    | CommandPacket(command: Command)
    | InitPacket(newId: Byte, oldId: Byte)

  /** DeviceInit's printer sets the width for the old id only. */
  function PrintInit(newId: Byte, oldId: Byte): string {
    "dev-q:" + ByteHex(oldId) + ToHex(newId)
  }

  function ParseInit(data: string): Result<Packet> {
    if !("dev-q:" <= data) then Err else
    var ids := Substr(data, 6, 10);
    if |ids| != 4 || FindFirst(ids, NotHexChar, 0) != NPOS then Err
    else Ok(InitPacket(ReadByte(ids[2..]), ReadByte(ids[..2])))
  }

  function Print(p: Packet): string {
    match p
    case MessagePacket(m) => PrintMessage(m)
    case CommandPacket(c) => PrintCommand(c)
    case InitPacket(newId, oldId) => PrintInit(newId, oldId)
  }

  /** Packet::create */
  function Parse(line: string): Result<Packet> {
    if "dev-q:" <= line then
      ParseInit(line)
    else if "cmd:" <= line then
      match ParseCommand(line) case Err => Err case Ok(c) => Ok(CommandPacket(c))
    else
      var (m, ok) := ParseInto(FRESH_MESSAGE, line);
      if ok then Ok(MessagePacket(m)) else Err
  }

  method Create(line: string) returns (r: Result<Packet>)
    ensures r == Parse(line)
  {
    FindAtStart(line, "dev-q:");
    FindAtStart(line, "cmd:");
    if Find(line, "dev-q:", 0) == 0 {
      return ParseInit(line);
    } else if Find(line, "cmd:", 0) == 0 {
      var command := new CommandObject("");
      var ok := command.Deserialize(line);
      return if ok then Ok(CommandPacket(Command(command.action, command.arguments))) else Err;
    } else {
      var message := new MessageObject();
      var ok := message.Deserialize(line);
      return if ok then Ok(MessagePacket(Message(message.kind, message.deviceId, message.address, message.body)))
             else Err;
    }
  }

  // --- Which packets survive ---

  predicate WellFormedMessage(m: Message) {
    |m.body| <= 8 && (m.kind == Request ==> m.body == [])
  }

  predicate WellFormed(p: Packet) {
    match p
    case MessagePacket(m) => WellFormedMessage(m)
    case CommandPacket(c) => WellFormedCommand(c)
    case InitPacket(newId, _) => newId >= 16
  }

  /** A printed packet is parsed back to itself exactly when it is well formed. */
  lemma PacketRoundTrip(p: Packet)
    ensures Parse(Print(p)) == Ok(p) <==> WellFormed(p)
  {
    match p {
      case MessagePacket(m) =>
        MessagePrefix(m);
        MessageRoundTrip(m, FRESH_MESSAGE);
      case CommandPacket(c) =>
        CommandPrefix(c);
        if WellFormedCommand(c) {
          CommandRoundTrip(c);
        } else {
          ParsedCommandIsWellFormed(PrintCommand(c));
        }
      case InitPacket(newId, oldId) =>
        InitRoundTrip(newId, oldId);
    }
  }

  lemma MessagePrefix(m: Message)
    ensures !("dev-q:" <= PrintMessage(m)) && !("cmd:" <= PrintMessage(m))
  {
    var line := PrintMessage(m);
    Layout(m);
    assert line[0] == line[..4][0] == 'd' && line[3] == line[..4][3] == ':';
    assert "cmd:"[0] == 'c' && "dev-q:"[3] == '-';
  }

  lemma CommandPrefix(c: Command)
    ensures !("dev-q:" <= PrintCommand(c)) && "cmd:" <= PrintCommand(c)
  {
    var line := PrintCommand(c);
    assert line == "cmd:" + (c.action + PrintArguments(c.arguments));
    assert line[0] == 'c' && "dev-q:"[0] == 'd';
  }

  /** Whatever line was accepted, printing the packet and parsing it again changes nothing. */
  lemma ParsePrintParse(line: string)
    requires Parse(line).Ok?
    requires Parse(line).value.InitPacket? ==> Parse(line).value.newId >= 16
    ensures Parse(Print(Parse(line).value)) == Parse(line)
  {
    ParsedIsWellFormed(line);
    PacketRoundTrip(Parse(line).value);
  }

  /** The parser produces well-formed packets only, but for an init packet with a new id below 16. */
  lemma ParsedIsWellFormed(line: string)
    requires Parse(line).Ok?
    ensures WellFormed(Parse(line).value) || Parse(line).value.InitPacket?
  {
    if "dev-q:" <= line {
    } else if "cmd:" <= line {
      ParsedCommandIsWellFormed(line);
    } else {
      ParsedMessageIsWellFormed(FRESH_MESSAGE, line);
    }
  }

  // --- Messages ---

  lemma ParsedMessageIsWellFormed(before: Message, data: string)
    ensures var (m, ok) := ParseInto(before, data); ok ==> WellFormedMessage(m)
  {
  }

  /** Where the fields of a printed message are. */
  lemma Layout(m: Message)
    ensures var data := PrintMessage(m);
      && |data| >= 20
      && data[..4] == "dev:" && data[4..6] == ByteHex(m.deviceId) && data[6..8] == "  "
      && data[8..13] == "addr:" && data[13..17] == WordHex(m.address) && data[17..19] == "  "
      && data[19..] == if m.kind == Data then ":" + PrintBytes(m.body) else "?"
  {
    var tail := if m.kind == Data then ":" + PrintBytes(m.body) else "?";
    var a := "dev:" + ByteHex(m.deviceId);
    var b := a + "  ";
    var c := b + "addr:";
    var d := c + WordHex(m.address);
    var e := d + "  ";
    assert PrintMessage(m) == e + tail;
    assert |a| == 6 && |b| == 8 && |c| == 13 && |d| == 17 && |e| == 19;
  }

  lemma AddressField(data: string)
    requires |data| >= 20 && data[6..8] == "  " && data[8..13] == "addr:"
    ensures Find(data, "addr:", 4) == 8
  {
    assert data[6] == data[6..8][0] == ' ' && data[7] == data[6..8][1] == ' ';
    assert Matches(data, "addr:", 8);
    forall i: nat | 4 <= i < 8
      ensures !Matches(data, "addr:", i)
    {
      var j := if i < 7 then 6 else 7;
      assert data[i..i + 5][j - i] == ' ';
      assert "addr:"[j - i] != ' ';
    }
    FindAt(data, "addr:", 4, 8);
  }

  lemma MessageRoundTrip(m: Message, before: Message)
    ensures ParseInto(before, PrintMessage(m)) == (m, true) <==> WellFormedMessage(m)
  {
    var data := PrintMessage(m);
    Layout(m);
    assert Matches(data, "dev:", 0);
    FindAt(data, "dev:", 0, 0);
    assert Substr(data, 4, 2) == ByteHex(m.deviceId);
    ReadByteInverse(m.deviceId);
    var m1 := before.(deviceId := m.deviceId);
    assert ParseInto(before, data) == ParseAddress(m1, data, 4);
    AddressField(data);
    assert Substr(data, 13, 4) == WordHex(m.address);
    ReadWordInverse(m.address, m1.address);
    var m2 := m1.(address := m.address);
    assert ParseAddress(m1, data, 4) == ParseBody(m2, data, 17);
    BodyRoundTrip(m, m2, data);
  }

  lemma BodyRoundTrip(m: Message, before: Message, data: string)
    requires |data| >= 20 && data[17..19] == "  "
    requires data[19..] == if m.kind == Data then ":" + PrintBytes(m.body) else "?"
    requires before.deviceId == m.deviceId && before.address == m.address
    ensures ParseBody(before, data, 17) == (m, true) <==> WellFormedMessage(m)
  {
    assert data[17] == data[17..19][0] == ' ' && data[18] == data[17..19][1] == ' ';
    assert data[19] == data[19..][0];
    assert FindFirst(data, BodyMark, 17) == 19;
    if m.kind == Data {
      assert data[20..] == data[19..][1..] == PrintBytes(m.body);
      assert forall i | 20 <= i < |data| :: data[i] == data[20..][i - 20];
      assert BodyDigits(data, 20) == PrintBytes(m.body);
      ReadBytesInverse(m.body);
    }
  }

  lemma ReadByteOf(s: string)
    requires s != "" && IsHex(s) && HexNumber(s) < 256
    ensures ReadByte(s) == HexNumber(s)
  {
    var value := HexNumber(s);
    assert value < UNSIGNED && value % 256 == value;
    assert ReadHex(s, UNSIGNED, 0) == value by { ReadHexOfDigits(s, UNSIGNED, 0); }
  }

  lemma ReadByteInverse(b: Byte)
    ensures ReadByte(ByteHex(b)) == b
  {
    ReadByteOf(ByteHex(b));
  }

  lemma ReadWordInverse(w: Word, before: Word)
    ensures ReadWord(WordHex(w), before) == w
  {
    ReadHexOfDigits(WordHex(w), 0x1_0000, before);
  }

  lemma {:induction false} ReadBytesInverse(bytes: seq<Byte>)
    ensures ReadBytes(PrintBytes(bytes)) == bytes
    decreases bytes
  {
    if bytes != [] {
      var s := PrintBytes(bytes);
      assert s[..2] == ByteHex(bytes[0]) && s[2..] == PrintBytes(bytes[1..]);
      ReadByteInverse(bytes[0]);
      ReadBytesInverse(bytes[1..]);
    }
  }

  lemma InitRoundTrip(newId: Byte, oldId: Byte)
    ensures Parse(PrintInit(newId, oldId)) == Ok(InitPacket(newId, oldId)) <==> newId >= 16
  {
    var line := PrintInit(newId, oldId);
    var old', new' := ByteHex(oldId), ToHex(newId);
    assert line == "dev-q:" + (old' + new');
    NewIdWidth(newId);
    assert Substr(line, 6, 10) == old' + new';
    assert (old' + new')[..2] == old' && (old' + new')[2..] == new';
    if newId >= 16 {
      assert FindFirst(old' + new', NotHexChar, 0) == NPOS;
      ReadByteInverse(oldId);
      ReadByteOf(new');
    }
  }

  lemma NewIdWidth(newId: Byte)
    ensures var s := ToHex(newId); HexNumber(s) == newId && |s| == if newId < 16 then 1 else 2
  {
    ToHexInverse(newId);
  }

  // --- Commands ---

  lemma {:induction false} LessTransitive(a: string, b: string, c: string)
    requires Less(a, b) && Less(b, c)
    ensures Less(a, c)
    decreases a
  {
    if a != "" && a[0] == b[0] && b[0] == c[0] {
      LessTransitive(a[1..], b[1..], c[1..]);
    }
  }

  lemma {:induction false} LessTotal(a: string, b: string)
    ensures Less(a, b) || Less(b, a) || a == b
    ensures !(Less(a, b) && Less(b, a)) && !Less(a, a)
    decreases a
  {
    if a != "" && b != "" && a[0] == b[0] {
      LessTotal(a[1..], b[1..]);
      assert a == [a[0]] + a[1..] && b == [b[0]] + b[1..];
    }
    if a != "" { LessTotal(a[1..], a[1..]); }
  }

  lemma {:induction false} InsertAtEnd(arguments: Arguments, key: string, value: string)
    requires Sorted(arguments + [(key, value)])
    ensures Insert(arguments, key, value) == arguments + [(key, value)]
    decreases arguments
  {
    if arguments != [] {
      var all := arguments + [(key, value)];
      assert Less(all[0].0, all[|arguments|].0);
      LessTotal(all[0].0, key);
      assert all[1..] == arguments[1..] + [(key, value)];
      InsertAtEnd(arguments[1..], key, value);
    }
  }

  /** Inserting keeps the map in order, gives the key its new value and leaves the others alone. */
  lemma {:induction false} InsertUpdates(arguments: Arguments, key: string, value: string, other: string)
    requires Sorted(arguments)
    ensures var more := Insert(arguments, key, value);
      && Sorted(more)
      && (forall i | 0 <= i < |more| :: more[i] == (key, value) || more[i] in arguments)
      && Get(more, other) == if other == key then Present(value) else Get(arguments, other)
    decreases arguments
  {
    if arguments != [] {
      var more := Insert(arguments, key, value);
      var first, rest := arguments[0], arguments[1..];
      LessTotal(key, first.0);
      if first.0 == key {
      } else if Less(key, first.0) {
        forall j | 0 < j < |more|
          ensures Less(more[0].0, more[j].0)
        {
          if j > 1 { LessTransitive(key, first.0, more[j].0); }
        }
      } else {
        InsertUpdates(rest, key, value, other);
        forall j | 0 < j < |more|
          ensures Less(more[0].0, more[j].0)
        {
          assert more[j] == Insert(rest, key, value)[j - 1];
        }
      }
    }
  }

  /** A numeric argument is read back, and the other arguments stay what they were. */
  lemma NumberReadsBack(c: Command, key: string, value: Unsigned, default: Unsigned, other: string)
    requires Sorted(c.arguments)
    ensures var d := c.(arguments := Insert(c.arguments, key, PrintNumber(value)));
      GetNumber(d, key, default) == value && (other != key ==> GetText(d, other, "") == GetText(c, other, ""))
  {
    PrintedNumber(value);
    InsertUpdates(c.arguments, key, PrintNumber(value), key);
    InsertUpdates(c.arguments, key, PrintNumber(value), other);
  }

  /** So is a raw argument, unless it is empty: that counts as missing. */
  lemma RawReadsBack(c: Command, key: string, bytes: seq<Byte>)
    requires Sorted(c.arguments)
    ensures GetRaw(c.(arguments := Insert(c.arguments, key, PrintBytes(bytes))), key) == if bytes == [] then Err else Ok(bytes)
  {
    InsertUpdates(c.arguments, key, PrintBytes(bytes), key);
    ReadBytesInverse(bytes);
  }

  predicate LegalArguments(arguments: Arguments) {
    forall i | 0 <= i < |arguments| ::
      arguments[i].0 != "" && Legal(arguments[i].0) && Legal(arguments[i].1)
  }

  lemma {:induction false} ParsedArguments(tokens: seq<string>, arguments: Arguments)
    requires Sorted(arguments) && LegalArguments(arguments)
    ensures var r := ParseArguments(tokens, arguments); r.Ok? ==> Sorted(r.value) && LegalArguments(r.value)
    decreases tokens
  {
    if tokens != [] && ParseArgument(tokens[0], arguments).Ok? {
      var sep := FindFirst(tokens[0], Colon, 0);
      InsertUpdates(arguments, tokens[0][..sep], tokens[0][sep + 1..], "");
      ParsedArguments(tokens[1..], ParseArgument(tokens[0], arguments).value);
    }
  }

  lemma ParsedCommandIsWellFormed(data: string)
    ensures var r := ParseCommand(data); r.Ok? ==> WellFormedCommand(r.value)
  {
    if ParseCommand(data).Ok? {
      ParsedArguments(Tokens(data[4..][TokenEnd(data[4..])..]), []);
    }
  }

  function Token(argument: (string, string)): string {
    argument.0 + ":" + argument.1
  }

  function TokensOf(arguments: Arguments): seq<string>
    decreases arguments
  {
    if arguments == [] then [] else [Token(arguments[0])] + TokensOf(arguments[1..])
  }

  predicate BlankOrEnd(s: string) {
    s == "" || Blank(s[0])
  }

  /** A run of legal characters and colons is one token. */
  lemma TokenEndsAt(token: string, rest: string)
    requires forall i | 0 <= i < |token| :: !Blank(token[i])
    requires BlankOrEnd(rest)
    ensures TokenEnd(token + rest) == |token|
    ensures (token + rest)[..|token|] == token && (token + rest)[|token|..] == rest
  {
    var s := token + rest;
    assert forall i | 0 <= i < |token| :: s[i] == token[i];
    if rest != "" { assert s[|token|] == rest[0]; }
  }

  lemma LegalIsNotBlank(s: string)
    requires Legal(s)
    ensures forall i | 0 <= i < |s| :: !Blank(s[i]) && s[i] != ':'
  {
    forall i | 0 <= i < |s|
      ensures !Blank(s[i]) && s[i] != ':'
    {
      assert LegalChar(s[i]);
    }
  }

  lemma TokenIsNotBlank(argument: (string, string))
    requires Legal(argument.0) && Legal(argument.1)
    ensures forall i | 0 <= i < |Token(argument)| :: !Blank(Token(argument)[i])
  {
    LegalIsNotBlank(argument.0);
    LegalIsNotBlank(argument.1);
  }

  lemma FirstToken(argument: (string, string), rest: string)
    requires argument.0 != "" && Legal(argument.0) && Legal(argument.1) && BlankOrEnd(rest)
    ensures Tokens(" " + (Token(argument) + rest)) == [Token(argument)] + Tokens(rest)
  {
    var token := Token(argument);
    assert (" " + (token + rest))[1..] == token + rest;
    TokenIsNotBlank(argument);
    TokenEndsAt(token, rest);
    assert (token + rest)[0] == token[0];
    assert Tokens(token + rest) == [token] + Tokens(rest);
  }

  lemma {:induction false} PrintedTokens(arguments: Arguments)
    requires LegalArguments(arguments)
    ensures Tokens(PrintArguments(arguments)) == TokensOf(arguments)
    ensures BlankOrEnd(PrintArguments(arguments))
    decreases arguments
  {
    if arguments != [] {
      var rest := PrintArguments(arguments[1..]);
      PrintedTokens(arguments[1..]);
      FirstToken(arguments[0], rest);
      PrintedFirst(arguments);
    }
  }

  lemma PrintedFirst(arguments: Arguments)
    requires arguments != []
    ensures PrintArguments(arguments) == " " + (Token(arguments[0]) + PrintArguments(arguments[1..]))
    ensures TokensOf(arguments) == [Token(arguments[0])] + TokensOf(arguments[1..])
  {
    Spaced(" ", arguments[0].0, ":", arguments[0].1, PrintArguments(arguments[1..]));
  }

  lemma Spaced(space: string, key: string, colon: string, value: string, rest: string)
    ensures space + key + colon + value + rest == space + (key + colon + value + rest)
  {
  }

  lemma TokenParsesBack(argument: (string, string), before: Arguments)
    requires argument.0 != "" && Legal(argument.0) && Legal(argument.1)
    ensures ParseArgument(Token(argument), before) == Ok(Insert(before, argument.0, argument.1))
  {
    var token := Token(argument);
    LegalIsNotBlank(argument.0);
    assert forall i | 0 <= i < |argument.0| :: token[i] == argument.0[i];
    assert token[|argument.0|] == ':';
    assert FindFirst(token, Colon, 0) == |argument.0|;
    assert token[..|argument.0|] == argument.0 && token[|argument.0| + 1..] == argument.1;
  }

  lemma {:induction false} ArgumentsParseBack(arguments: Arguments, before: Arguments)
    requires LegalArguments(arguments) && Sorted(before + arguments)
    ensures ParseArguments(TokensOf(arguments), before) == Ok(before + arguments)
    decreases arguments
  {
    if arguments == [] {
      assert before + arguments == before;
    } else {
      var (key, value) := arguments[0];
      var more := before + [(key, value)];
      assert more + arguments[1..] == before + arguments;
      assert forall i | 0 <= i < |more| :: more[i] == (before + arguments)[i];
      TokenParsesBack(arguments[0], before);
      InsertAtEnd(before, key, value);
      assert TokensOf(arguments)[1..] == TokensOf(arguments[1..]);
      ArgumentsParseBack(arguments[1..], more);
    }
  }

  lemma ActionEnds(action: string, tail: string)
    requires action != "" && Legal(action) && BlankOrEnd(tail)
    ensures ParseCommand("cmd:" + (action + tail)) == match ParseArguments(Tokens(tail), [])
            case Err => Err
            case Ok(arguments) => Ok(Command(action, arguments))
  {
    assert ("cmd:" + (action + tail))[4..] == action + tail;
    LegalIsNotBlank(action);
    TokenEndsAt(action, tail);
  }

  lemma CommandRoundTrip(c: Command)
    requires WellFormedCommand(c)
    ensures ParseCommand(PrintCommand(c)) == Ok(c)
  {
    var tail := PrintArguments(c.arguments);
    assert PrintCommand(c) == "cmd:" + (c.action + tail);
    PrintedTokens(c.arguments);
    ActionEnds(c.action, tail);
    assert [] + c.arguments == c.arguments;
    ArgumentsParseBack(c.arguments, []);
  }
}
