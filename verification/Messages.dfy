/** The packets of the wire protocol and their textual form
    (deephome/common/source/proto/Message.cpp). */
module Messages {
  import opened Sequences
  import opened Text

  type Byte = n: nat | n < 256
  type Word = n: nat | n < 0x1_0000
  type Unsigned = n: nat | n < UNSIGNED
  const UNSIGNED: nat := 0x1_0000_0000

  /** What a call that may throw leaves behind. */
  datatype Result<T> = Ok(value: T) | Err

  // --- Message ---

  datatype MessageType = Request | Data

  datatype Message = Message(kind: MessageType, deviceId: Byte, address: Word, body: seq<Byte>)

  const FRESH_MESSAGE: Message := Message(Data, 0, 0, [])

  /** `stream << std::hex << std::setw(2) << b` */
  function ByteHex(b: Byte): (s: string)
    ensures |s| == 2 && IsHex(s) && HexNumber(s) == b
  {
    assert Pow16(2) == 256 by { assert Pow16(1) == 16; }
    PaddedHex(b, 2);
    Padded(ToHex(b), 2)
  }

  function WordHex(w: Word): (s: string)
    ensures |s| == 4 && IsHex(s) && HexNumber(s) == w
  {
    assert Pow16(4) == 0x1_0000 by { assert Pow16(2) == 256; }
    PaddedHex(w, 4);
    Padded(ToHex(w), 4)
  }

  /** `unsigned byte = 0; istringstream(s) >> std::hex >> byte`, stored in a uint8_t */
  function ReadByte(s: string): Byte {
    ReadHex(s, UNSIGNED, 0) % 256
  }

  function ReadWord(s: string, before: Word): Word {
    ReadHex(s, 0x1_0000, before)
  }

  function PrintBytes(bytes: seq<Byte>): (s: string)
    ensures |s| == 2 * |bytes| && IsHex(s)
    decreases bytes
  {
    if bytes == [] then "" else ByteHex(bytes[0]) + PrintBytes(bytes[1..])
  }

  function ReadBytes(s: string): (bytes: seq<Byte>)
    requires |s| % 2 == 0
    ensures |bytes| == |s| / 2
    decreases |s|
  {
    if s == "" then [] else [ReadByte(s[..2])] + ReadBytes(s[2..])
  }

  method BytesToHex(bytes: seq<Byte>) returns (digits: string)
    ensures digits == PrintBytes(bytes)
  {
    digits := "";
    for i := 0 to |bytes|
      invariant digits + PrintBytes(bytes[i..]) == PrintBytes(bytes)
    {
      assert bytes[i..][1..] == bytes[i + 1..];
      Regroup(digits, ByteHex(bytes[i]), PrintBytes(bytes[i + 1..]));
      digits := digits + ByteHex(bytes[i]);
    }
  }

  lemma NextByte(s: string, i: nat)
    requires |s| % 2 == 0 && 2 * i < |s|
    ensures ReadBytes(s[2 * i..]) == [ReadByte(s[2 * i..2 * i + 2])] + ReadBytes(s[2 * (i + 1)..])
  {
    var rest := s[2 * i..];
    assert rest[..2] == s[2 * i..2 * i + 2] && rest[2..] == s[2 * (i + 1)..];
  }

  method HexToBytes(s: string) returns (bytes: seq<Byte>)
    requires |s| % 2 == 0
    ensures bytes == ReadBytes(s)
  {
    bytes := [];
    for i := 0 to |s| / 2
      invariant bytes + ReadBytes(s[2 * i..]) == ReadBytes(s)
    {
      var byte := ReadByte(s[2 * i..2 * i + 2]);
      NextByte(s, i);
      Regroup(bytes, [byte], ReadBytes(s[2 * (i + 1)..]));
      bytes := bytes + [byte];
    }
  }

  function PrintMessage(m: Message): string {
    "dev:" + ByteHex(m.deviceId) + "  " + "addr:" + WordHex(m.address) + "  " +
    (if m.kind == Data then ":" + PrintBytes(m.body) else "?")
  }

  /** The message object after `deserialize`, and whether it returned without throwing. */
  function ParseInto(before: Message, data: string): (Message, bool) {
    var dev := Find(data, "dev:", 0);
    if dev == NPOS then (before, false)
    else ParseAddress(before.(deviceId := ReadByte(Substr(data, dev + 4, 2))), data, dev + 4)
  }

  function ParseAddress(m: Message, data: string, from: nat): (Message, bool) {
    var addr := Find(data, "addr:", from);
    if addr == NPOS then (m, false)
    else ParseBody(m.(address := ReadWord(Substr(data, addr + 5, 4), m.address)), data, addr + 9)
  }

  function ParseBody(m: Message, data: string, from: nat): (Message, bool) {
    var mark := FindFirst(data, BodyMark, from);
    if mark == NPOS then (m, false)
    else if data[mark] == '?' then (m.(kind := Request, body := []), true)
    else
      var digits := BodyDigits(data, mark + 1);
      if |digits| % 2 != 0 || |digits| / 2 > 8 then (m.(kind := Data, body := []), false)
      else (m.(kind := Data, body := ReadBytes(digits)), true)
  }

  predicate BodyMark(c: char) {
    c == '?' || c == ':'
  }

  function BodyDigits(data: string, from: nat): string
    requires from <= |data|
  {
    var end := FindFirst(data, NotHexChar, from);
    if end == NPOS then data[from..] else data[from..end]
  }

  method DigitsEnd(data: string, from: nat) returns (end: nat)
    requires from <= |data|
    ensures from <= end <= |data| && data[from..end] == BodyDigits(data, from)
  {
    var r := FindFirst(data, NotHexChar, from);
    end := if r == NPOS then |data| else r;
  }

  class MessageObject {
    var kind: MessageType
    var deviceId: Byte
    var address: Word
    var body: seq<Byte>

    ghost function View(): Message
      reads this
    {
      Message(kind, deviceId, address, body)
    }

    constructor ()
      ensures View() == FRESH_MESSAGE
    {
      kind, deviceId, address, body := Data, 0, 0, [];
    }

    method Serialize() returns (line: string)
      ensures line == PrintMessage(View())
    {
      line := "dev:" + ByteHex(deviceId) + "  " + "addr:" + WordHex(address) + "  ";
      if kind == Data {
        var digits := BytesToHex(body);
        line := line + (":" + digits);
      } else {
        line := line + "?";
      }
    }

    method Deserialize(data: string) returns (ok: bool)
      modifies this
      ensures (View(), ok) == ParseInto(old(View()), data)
    {
      var pos := Find(data, "dev:", 0);
      if pos == NPOS {
        return false; // `dev:` is missing
      }
      deviceId := ReadByte(Substr(data, pos + 4, 2));

      ok := DeserializeAddress(data, pos + 4);
    }

    method DeserializeAddress(data: string, from: nat) returns (ok: bool)
      modifies this
      ensures (View(), ok) == ParseAddress(old(View()), data, from)
    {
      var pos := Find(data, "addr:", from);
      if pos == NPOS {
        return false; // `addr:` is missing
      }
      address := ReadWord(Substr(data, pos + 5, 4), address);
      ok := DeserializeBody(data, pos + 9);
    }

    method DeserializeBody(data: string, from: nat) returns (ok: bool)
      modifies this
      ensures (View(), ok) == ParseBody(old(View()), data, from)
    {
      var pos := FindFirst(data, BodyMark, from);
      if pos == NPOS {
        return false; // neither a request nor data
      }
      body := [];
      if data[pos] == '?' {
        kind := Request;
        return true;
      }
      kind := Data;
      pos := pos + 1;
      ghost var digits := BodyDigits(data, pos);
      var end := DigitsEnd(data, pos);
      assert data[pos..end] == digits && |digits| == end - pos;
      var length := end - pos;
      if length % 2 != 0 || length / 2 > 8 {
        return false; // half a byte, or more than eight
      }
      body := HexToBytes(data[pos..end]);
      return true;
    }
  }

  // --- ServiceCommand ---

  /** The characters check_string allows. */
  predicate LegalChar(c: char) {
    '0' <= c <= '9' || c == '_' || c == '-' || 'a' <= c <= 'z' || 'A' <= c <= 'Z'
  }

  predicate Legal(s: string) {
    forall i :: 0 <= i < |s| ==> LegalChar(s[i])
  }

  /** std::string's order. */
  predicate Less(a: string, b: string)
    decreases a
  {
    if b == "" then false
    else if a == "" then true
    else if a[0] != b[0] then a[0] < b[0]
    else Less(a[1..], b[1..])
  }

  /** A std::map<std::string, std::string> in its iteration order. */
  type Arguments = seq<(string, string)>

  predicate Sorted(arguments: Arguments) {
    forall i, j :: 0 <= i < j < |arguments| ==> Less(arguments[i].0, arguments[j].0)
  }

  /** `arguments[key] = value` */
  function Insert(arguments: Arguments, key: string, value: string): Arguments
    decreases arguments
  {
    if arguments == [] then [(key, value)]
    else if arguments[0].0 == key then [(key, value)] + arguments[1..]
    else if Less(key, arguments[0].0) then [(key, value)] + arguments
    else [arguments[0]] + Insert(arguments[1..], key, value)
  }

  datatype Lookup = Absent | Present(value: string)

  function Get(arguments: Arguments, key: string): Lookup
    decreases arguments
  {
    if arguments == [] then Absent
    else if arguments[0].0 == key then Present(arguments[0].1)
    else Get(arguments[1..], key)
  }

  datatype Command = Command(action: string, arguments: Arguments)

  predicate WellFormedCommand(c: Command) {
    && c.action != "" && Legal(c.action)
    && Sorted(c.arguments)
    && forall i | 0 <= i < |c.arguments| ::
         c.arguments[i].0 != "" && Legal(c.arguments[i].0) && Legal(c.arguments[i].1)
  }

  function PrintArguments(arguments: Arguments): string
    decreases arguments
  {
    if arguments == [] then "" else
      " " + arguments[0].0 + ":" + arguments[0].1 + PrintArguments(arguments[1..])
  }

  function PrintCommand(c: Command): string {
    "cmd:" + c.action + PrintArguments(c.arguments)
  }

  predicate Blank(c: char) {
    c == ' ' || c == '\t'
  }

  predicate NotBlank(c: char) {
    !Blank(c)
  }

  predicate Colon(c: char) {
    c == ':'
  }

  /** Where the run of non-blanks at the start of `s` ends. */
  function TokenEnd(s: string): (n: nat)
    ensures n <= |s|
    ensures s != "" && !Blank(s[0]) ==> n > 0
  {
    var end := FindFirst(s, Blank, 0);
    if end == NPOS then |s| else end
  }

  /** The maximal runs of non-blanks. */
  function Tokens(s: string): seq<string>
    decreases |s|
  {
    if s == "" then []
    else if Blank(s[0]) then Tokens(s[1..])
    else [s[..TokenEnd(s)]] + Tokens(s[TokenEnd(s)..])
  }

  /** One `key:value` token put into the map. */
  function ParseArgument(token: string, arguments: Arguments): Result<Arguments> {
    var sep := FindFirst(token, Colon, 0);
    if sep == NPOS then Err else
    var key, value := token[..sep], token[sep + 1..];
    if key == "" || !Legal(key) || !Legal(value) then Err else Ok(Insert(arguments, key, value))
  }

  function ParseArguments(tokens: seq<string>, arguments: Arguments): Result<Arguments>
    decreases tokens
  {
    if tokens == [] then Ok(arguments) else
    match ParseArgument(tokens[0], arguments)
    case Err => Err
    case Ok(more) => ParseArguments(tokens[1..], more)
  }

  function ParseCommand(data: string): Result<Command> {
    if !("cmd:" <= data) then Err else
    var end := TokenEnd(data[4..]);
    var action := data[4..][..end];
    if action == "" || !Legal(action) then Err else
    match ParseArguments(Tokens(data[4..][end..]), [])
    case Err => Err
    case Ok(arguments) => Ok(Command(action, arguments))
  }

  class CommandObject {
    var action: string
    var arguments: Arguments

    ghost function View(): Command
      reads this
    {
      Command(action, arguments)
    }

    constructor (action: string)
      requires Legal(action)
      ensures View() == Command(action, [])
    {
      this.action, arguments := action, [];
    }

    method AddArgument(key: string, value: string)
      requires Legal(key) && key != "cmd" && Legal(value)
      modifies this
      ensures View() == old(View()).(arguments := Insert(old(arguments), key, value))
    {
      arguments := Insert(arguments, key, value);
    }

    method AddNumber(key: string, value: Unsigned)
      requires Legal(key) && key != "cmd"
      modifies this
      ensures View() == old(View()).(arguments := Insert(old(arguments), key, PrintNumber(value)))
    {
      PrintedNumber(value);
      AddArgument(key, PrintNumber(value));
    }

    method AddRaw(key: string, value: seq<Byte>)
      requires Legal(key) && key != "cmd"
      modifies this
      ensures View() == old(View()).(arguments := Insert(old(arguments), key, PrintBytes(value)))
    {
      var digits := BytesToHex(value);
      HexIsLegal(digits);
      AddArgument(key, digits);
    }

    method Serialize() returns (line: string)
      requires action != ""
      ensures line == PrintCommand(View())
    {
      line := "cmd:" + action;
      for i := 0 to |arguments|
        invariant line + PrintArguments(arguments[i..]) == PrintCommand(View())
      {
        assert arguments[i..][1..] == arguments[i + 1..];
        line := line + " " + arguments[i].0 + ":" + arguments[i].1;
      }
    }

    /** The fields are assigned only once the whole line was accepted. */
    method Deserialize(data: string) returns (ok: bool)
      modifies this
      ensures ok <==> ParseCommand(data).Ok?
      ensures View() == if ok then ParseCommand(data).value else old(View())
    {
      if |data| < 4 || data[..4] != "cmd:" {
        return false; // not a command
      }
      ghost var rest := data[4..];
      var argEnd := FindFirst(data, Blank, 4);
      FindInSuffix(data, Blank, 4);
      if argEnd == NPOS {
        argEnd := |data|;
      }
      var newAction := data[4..argEnd];
      assert newAction == rest[..TokenEnd(rest)];
      assert data[argEnd..] == rest[TokenEnd(rest)..];
      if newAction == "" || !Legal(newAction) {
        return false; // the action is empty or not legal
      }

      var accepted, newArguments := ReadArguments(data, argEnd);
      if accepted {
        action := newAction;
        arguments := newArguments;
      }
      return accepted;
    }
  }

  /** The argument loop of `deserialize`. */
  method ReadArguments(data: string, from: nat) returns (ok: bool, arguments: Arguments)
    requires from <= |data|
    ensures ParseArguments(Tokens(data[from..]), []) == if ok then Ok(arguments) else Err
  {
    var argEnd := from;
    arguments := [];
    while argEnd < |data|
      invariant argEnd <= |data|
      invariant ParseArguments(Tokens(data[argEnd..]), arguments) == ParseArguments(Tokens(data[from..]), [])
      decreases |data| - argEnd
    {
      var argBegin := FindFirst(data, NotBlank, argEnd);
      SkipBlanks(data, argEnd);
      if argBegin == NPOS {
        break; // nothing but blanks is left
      }
      argEnd := FindFirst(data, Blank, argBegin);
      if argEnd == NPOS {
        argEnd := |data|;
      }
      FirstToken(data, argBegin, argEnd);

      ok, arguments := ReadArgument(data, argBegin, argEnd, arguments);
      if !ok {
        return false, arguments;
      }
    }
    return true, arguments;
  }

  /** One argument put into the map; the separator is looked for in the whole line. */
  method ReadArgument(data: string, begin: nat, end: nat, arguments: Arguments) returns (ok: bool, more: Arguments)
    requires begin < end <= |data| && (end < |data| ==> Blank(data[end]))
    ensures ParseArgument(data[begin..end], arguments) == if ok then Ok(more) else Err
  {
    var sep := FindFirst(data, Colon, begin);
    SplitInPlace(data, begin, end, arguments);
    if sep == NPOS || sep > end {
      return false, arguments; // a token without a colon
    }
    var key := data[begin..sep];
    var value := data[sep + 1..end];
    if key == "" || !Legal(key) || !Legal(value) {
      return false, arguments; // an empty key, or something not legal
    }
    return true, Insert(arguments, key, value);
  }

  /** Looking for the separator in the whole line finds the one of the token, if it has one. */
  lemma SplitInPlace(data: string, begin: nat, end: nat, arguments: Arguments)
    requires begin < end <= |data| && (end < |data| ==> Blank(data[end]))
    ensures var sep := FindFirst(data, Colon, begin);
      ParseArgument(data[begin..end], arguments) ==
      if sep == NPOS || sep > end then Err else
        var key, value := data[begin..sep], data[sep + 1..end];
        if key == "" || !Legal(key) || !Legal(value) then Err else Ok(Insert(arguments, key, value))
    ensures var sep := FindFirst(data, Colon, begin); sep == NPOS || sep != end
  {
    FindInSlice(data, Colon, begin, end);
    var token, sep := data[begin..end], FindFirst(data, Colon, begin);
    if sep != NPOS && sep < end {
      assert token[..sep - begin] == data[begin..sep] && token[sep - begin + 1..] == data[sep + 1..end];
    }
  }

  lemma FindInSuffix(s: string, wanted: char -> bool, from: nat)
    requires from <= |s|
    ensures var r, t := FindFirst(s, wanted, from), FindFirst(s[from..], wanted, 0);
      if t == NPOS then r == NPOS else r == t + from
  {
    FindInSlice(s, wanted, from, |s|);
  }

  lemma FindInSlice(s: string, wanted: char -> bool, from: nat, end: nat)
    requires from <= end <= |s|
    ensures var r, t := FindFirst(s, wanted, from), FindFirst(s[from..end], wanted, 0);
      if t == NPOS then r == NPOS || r >= end else r == t + from
  {
    var slice := s[from..end];
    assert forall i | from <= i < end :: s[i] == slice[i - from];
    assert forall i | 0 <= i < end - from :: slice[i] == s[i + from];
  }

  lemma {:induction false} SkipBlanks(s: string, from: nat)
    requires from <= |s|
    ensures var begin := FindFirst(s, NotBlank, from);
      Tokens(s[from..]) == if begin == NPOS then [] else Tokens(s[begin..])
    decreases |s| - from
  {
    if from < |s| && Blank(s[from]) {
      assert s[from..][1..] == s[from + 1..];
      SkipBlanks(s, from + 1);
    }
  }

  lemma FirstToken(s: string, begin: nat, end: nat)
    requires begin < |s| && !Blank(s[begin])
    requires var r := FindFirst(s, Blank, begin); end == if r == NPOS then |s| else r
    ensures begin < end <= |s|
    ensures Tokens(s[begin..]) == [s[begin..end]] + Tokens(s[end..])
  {
    FindInSuffix(s, Blank, begin);
    var t := s[begin..];
    assert t[..TokenEnd(t)] == s[begin..end] && t[TokenEnd(t)..] == s[end..];
  }

  // --- Arguments in and out of a command ---

  /** The 2, 4 or 8 digit form of a number. */
  function PrintNumber(value: Unsigned): string {
    Padded(ToHex(value), if value < 256 then 2 else if value < 0x1_0000 then 4 else 8)
  }

  /** std::string get_argument(key, default_value) */
  function GetText(c: Command, key: string, default: string): string {
    match Get(c.arguments, key) case Absent => default case Present(value) => value
  }

  /** unsigned int get_argument(key, default_value) */
  function GetNumber(c: Command, key: string, default: Unsigned): Unsigned {
    var text := GetText(c, key, "");
    if text == "" then default else ReadHex(text, UNSIGNED, 0)
  }

  /** get_raw_argument; `Err` for its false. */
  function GetRaw(c: Command, key: string): Result<seq<Byte>> {
    var text := GetText(c, key, "");
    if text == "" || |text| % 2 != 0 || FindFirst(text, NotHexChar, 0) != NPOS then Err
    else Ok(ReadBytes(text))
  }

  lemma HexIsLegal(s: string)
    requires IsHex(s)
    ensures Legal(s)
  {
  }

  lemma PrintedNumber(value: Unsigned)
    ensures Legal(PrintNumber(value)) && PrintNumber(value) != ""
    ensures ReadHex(PrintNumber(value), UNSIGNED, 0) == value
  {
    assert Pow16(2) == 256 by { assert Pow16(1) == 16; }
    assert Pow16(4) == 0x1_0000;
    assert Pow16(6) == 0x100_0000;
    assert Pow16(8) == UNSIGNED;
    var width := if value < 256 then 2 else if value < 0x1_0000 then 4 else 8;
    PaddedHex(value, width);
    HexIsLegal(PrintNumber(value));
    ReadHexOfDigits(PrintNumber(value), UNSIGNED, 0);
  }
}
