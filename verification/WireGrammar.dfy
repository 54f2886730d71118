/** Which lines the parsers accept, and what they make of them, told from the shape of the line
    (deephome/common/source/proto/Message.cpp:149-197,341-455). */
module WireGrammar {
  import opened Text
  import opened Messages
  import opened WireFormat

  // --- Commands: an action and words between blanks ---

  predicate Blanks(s: string) {
    forall i :: 0 <= i < |s| ==> Blank(s[i])
  }

  predicate NoBlank(s: string) {
    forall i :: 0 <= i < |s| ==> !Blank(s[i])
  }

  /** A word, and the blanks before it. */
  datatype Spaced = Spaced(gap: string, word: string)

  function Line(words: seq<Spaced>, trail: string): string
    decreases words
  {
    if words == [] then trail else words[0].gap + (words[0].word + Line(words[1..], trail))
  }

  function WordsOf(words: seq<Spaced>): (s: seq<string>)
    ensures |s| == |words| && forall i | 0 <= i < |words| :: s[i] == words[i].word
  {
    seq(|words|, i requires 0 <= i < |words| => words[i].word)
  }

  predicate Separated(words: seq<Spaced>, trail: string) {
    && Blanks(trail)
    && forall i | 0 <= i < |words| ::
         words[i].gap != "" && Blanks(words[i].gap) && words[i].word != "" && NoBlank(words[i].word)
  }

  lemma {:induction false} GapSkipped(gap: string, rest: string)
    requires Blanks(gap)
    ensures Tokens(gap + rest) == Tokens(rest)
    decreases gap
  {
    if gap == "" {
      assert gap + rest == rest;
    } else {
      assert (gap + rest)[0] == gap[0] && (gap + rest)[1..] == gap[1..] + rest;
      GapSkipped(gap[1..], rest);
    }
  }

  lemma WordTaken(word: string, rest: string)
    requires word != "" && NoBlank(word) && BlankOrEnd(rest)
    ensures Tokens(word + rest) == [word] + Tokens(rest)
  {
    TokenEndsAt(word, rest);
    assert (word + rest)[0] == word[0];
  }

  /** The tokens of a line are its words, however they are spaced. */
  lemma {:induction false} TokensAreWords(words: seq<Spaced>, trail: string)
    requires Separated(words, trail)
    ensures Tokens(Line(words, trail)) == WordsOf(words) && BlankOrEnd(Line(words, trail))
    decreases words
  {
    if words == [] {
      GapSkipped(trail, "");
      assert trail + "" == trail;
    } else {
      var rest := Line(words[1..], trail);
      TokensAreWords(words[1..], trail);
      GapSkipped(words[0].gap, words[0].word + rest);
      WordTaken(words[0].word, rest);
      assert WordsOf(words) == [words[0].word] + WordsOf(words[1..]);
    }
  }

  /** A legal key that is not empty, a colon and a legal value. */
  predicate GoodWord(word: string) {
    exists k :: 0 < k < |word| && word[k] == ':' && Legal(word[..k]) && Legal(word[k + 1..])
  }

  function KeyOf(word: string): string {
    var colon := FindFirst(word, Colon, 0);
    if colon == NPOS then "" else word[..colon]
  }

  function ValueOf(word: string): string {
    var colon := FindFirst(word, Colon, 0);
    if colon == NPOS then "" else word[colon + 1..]
  }

  lemma WordAccepted(word: string, before: Arguments)
    ensures ParseArgument(word, before) == if GoodWord(word) then Ok(Insert(before, KeyOf(word), ValueOf(word))) else Err
  {
    var colon := FindFirst(word, Colon, 0);
    if GoodWord(word) {
      var k :| 0 < k < |word| && word[k] == ':' && Legal(word[..k]) && Legal(word[k + 1..]);
      LegalIsNotBlank(word[..k]);
      assert forall i | 0 <= i < k :: word[i] == word[..k][i];
      assert colon == k;
    }
  }

  predicate AllGood(words: seq<string>) {
    forall i :: 0 <= i < |words| ==> GoodWord(words[i])
  }

  /** What the last of the words says about a key. */
  function LastFor(words: seq<string>, key: string, otherwise: Lookup): Lookup
    decreases words
  {
    if words == [] then otherwise
    else LastFor(words[1..], key, if KeyOf(words[0]) == key then Present(ValueOf(words[0])) else otherwise)
  }

  /** The arguments are accepted if and only if every word is good, and the last word for a key counts. */
  lemma {:induction false} WordsAccepted(words: seq<string>, before: Arguments, key: string)
    requires Sorted(before)
    ensures var r := ParseArguments(words, before);
      && (r.Ok? <==> AllGood(words))
      && (r.Ok? ==> Sorted(r.value) && Get(r.value, key) == LastFor(words, key, Get(before, key)))
    decreases words
  {
    if words != [] {
      WordAccepted(words[0], before);
      assert AllGood(words) <==> GoodWord(words[0]) && AllGood(words[1..]);
      if GoodWord(words[0]) {
        InsertUpdates(before, KeyOf(words[0]), ValueOf(words[0]), key);
        WordsAccepted(words[1..], Insert(before, KeyOf(words[0]), ValueOf(words[0])), key);
      }
    }
  }

  /** A line with the prefix of a command is accepted if and only if its action is legal and not empty and
      every word after it is good. Then it is this action, with what the last word for each key says. */
  lemma CommandGrammar(action: string, words: seq<Spaced>, trail: string, key: string)
    requires NoBlank(action) && Separated(words, trail)
    ensures var r := ParseCommand("cmd:" + (action + Line(words, trail)));
      && (r.Ok? <==> action != "" && Legal(action) && AllGood(WordsOf(words)))
      && (r.Ok? ==> r.value.action == action && Sorted(r.value.arguments) &&
                    Get(r.value.arguments, key) == LastFor(WordsOf(words), key, Absent))
  {
    var rest := Line(words, trail);
    var line := "cmd:" + (action + rest);
    assert line[4..] == action + rest;
    TokensAreWords(words, trail);
    TokenEndsAt(action, rest);
    WordsAccepted(WordsOf(words), [], key);
  }

  // --- Messages: marks and fields ---

  /** The first place from `from` on where the pattern stands. */
  ghost predicate FirstAt(s: string, pattern: string, from: nat, at: nat) {
    from <= at && Matches(s, pattern, at) && forall i: nat :: from <= i < at ==> !Matches(s, pattern, i)
  }

  /** The digits of the body are all there are after the mark. */
  predicate DigitsUpTo(s: string, from: nat, end: nat) {
    from <= end <= |s| && IsHex(s[from..end]) && (end < |s| ==> !HexChar(s[end]))
  }

  /** What the fields come to. */
  function MessageMeant(id: Byte, address: Word, request: bool, digits: string): (Message, bool) {
    if request then (Message(Request, id, address, []), true)
    else if |digits| % 2 == 0 && |digits| <= 16 then (Message(Data, id, address, ReadBytes(digits)), true)
    else (Message(Data, id, address, []), false)
  }

  lemma DigitsFound(s: string, from: nat, end: nat)
    requires DigitsUpTo(s, from, end)
    ensures BodyDigits(s, from) == s[from..end]
  {
    assert forall i | from <= i < end :: s[i] == s[from..end][i - from];
  }

  lemma BodyGrammar(before: Message, s: string, from: nat, mark: nat, end: nat)
    requires from <= mark < |s| && BodyMark(s[mark]) && forall i | from <= i < mark :: !BodyMark(s[i])
    requires DigitsUpTo(s, mark + 1, end)
    ensures ParseBody(before, s, from) == MessageMeant(before.deviceId, before.address, s[mark] == '?', s[mark + 1..end])
  {
    assert FindFirst(s, BodyMark, from) == mark;
    DigitsFound(s, mark + 1, end);
  }

  lemma AddressGrammar(before: Message, s: string, from: nat, addr: nat, mark: nat, end: nat)
    requires Find(s, "addr:", from) == addr && addr + 9 <= mark < |s|
    requires BodyMark(s[mark]) && forall i | addr + 9 <= i < mark :: !BodyMark(s[i])
    requires DigitsUpTo(s, mark + 1, end)
    ensures ParseAddress(before, s, from) ==
            MessageMeant(before.deviceId, ReadWord(Substr(s, addr + 5, 4), before.address), s[mark] == '?', s[mark + 1..end])
  {
    BodyGrammar(before.(address := ReadWord(Substr(s, addr + 5, 4), before.address)), s, addr + 9, mark, end);
  }

  lemma FieldsGrammar(before: Message, s: string, dev: nat, addr: nat, mark: nat, end: nat)
    requires Find(s, "dev:", 0) == dev && Find(s, "addr:", dev + 4) == addr && addr + 9 <= mark < |s|
    requires BodyMark(s[mark]) && forall i | addr + 9 <= i < mark :: !BodyMark(s[i])
    requires DigitsUpTo(s, mark + 1, end)
    ensures ParseInto(before, s) ==
            MessageMeant(ReadByte(Substr(s, dev + 4, 2)), ReadWord(Substr(s, addr + 5, 4), before.address),
                         s[mark] == '?', s[mark + 1..end])
  {
    AddressGrammar(before.(deviceId := ReadByte(Substr(s, dev + 4, 2))), s, dev + 4, addr, mark, end);
  }

  lemma FoundAt(s: string, pattern: string, from: nat, at: nat)
    requires FirstAt(s, pattern, from, at)
    ensures Find(s, pattern, from) == at && at + |pattern| <= |s|
  {
    FindAt(s, pattern, from, at);
  }

  /** A message is read from the first marks of its line, whatever stands between and after the fields: a
      request as such, and data if it has an even number of digits up to 16. */
  lemma MessageGrammar(before: Message, s: string, dev: nat, addr: nat, mark: nat, end: nat)
    requires FirstAt(s, "dev:", 0, dev) && FirstAt(s, "addr:", dev + 4, addr)
    requires addr + 9 <= mark < |s| && BodyMark(s[mark]) && forall i | addr + 9 <= i < mark :: !BodyMark(s[i])
    requires DigitsUpTo(s, mark + 1, end)
    ensures dev + 4 <= |s| && addr + 5 <= |s|
    ensures ParseInto(before, s) ==
            MessageMeant(ReadByte(Substr(s, dev + 4, 2)), ReadWord(Substr(s, addr + 5, 4), before.address),
                         s[mark] == '?', s[mark + 1..end])
  {
    FoundAt(s, "dev:", 0, dev);
    FoundAt(s, "addr:", dev + 4, addr);
    FieldsGrammar(before, s, dev, addr, mark, end);
  }

  /** Without one of the marks it is refused. */
  lemma MessageRefused(before: Message, s: string)
    requires (forall i: nat :: !Matches(s, "dev:", i)) || (forall i: nat :: !Matches(s, "addr:", i)) ||
             (forall i | 0 <= i < |s| :: !BodyMark(s[i]))
    ensures !ParseInto(before, s).1
  {
    NotFound(s, "dev:", 0);
    if Find(s, "dev:", 0) != NPOS { NotFound(s, "addr:", Find(s, "dev:", 0) + 4); }
  }

  lemma {:induction false} NotFound(s: string, pattern: string, from: nat)
    requires pattern != ""
    ensures (forall i: nat :: !Matches(s, pattern, i)) ==> Find(s, pattern, from) == NPOS
    decreases if from <= |s| then |s| - from else 0
  {
    if from + |pattern| <= |s| { NotFound(s, pattern, from + 1); }
  }

  // --- Device ids ---

  /** After its prefix an init packet is exactly two pairs of digits, the old id before the new one. */
  lemma InitGrammar(ids: string)
    ensures ParseInit("dev-q:" + ids) ==
      if |ids| == 4 && IsHex(ids) then Ok(InitPacket(ReadByte(ids[2..]), ReadByte(ids[..2]))) else Err
  {
    var line := "dev-q:" + ids;
    assert line[6..] == ids;
    if |ids| <= 10 { assert Substr(line, 6, 10) == ids; }
    var bad := FindFirst(ids, NotHexChar, 0);
  }

  // --- Arguments ---

  /** Every pair of digits is one byte. */
  lemma {:induction false} BytesRead(s: string, i: nat)
    requires |s| % 2 == 0 && IsHex(s) && i < |s| / 2
    ensures ReadBytes(s)[i] == HexNumber(s[2 * i..2 * i + 2])
    decreases |s|
  {
    var pair := s[..2];
    assert pair[0] == s[0] && pair[1] == s[1];
    if i == 0 {
      assert s[2 * i..2 * i + 2] == pair;
      TwoDigits(pair);
    } else {
      BytesRead(s[2..], i - 1);
      assert s[2..][2 * (i - 1)..2 * (i - 1) + 2] == s[2 * i..2 * i + 2];
    }
  }

  lemma TwoDigits(pair: string)
    requires |pair| == 2 && IsHex(pair)
    ensures HexNumber(pair) == 16 * DigitValue(pair[0]) + DigitValue(pair[1]) && ReadByte(pair) == HexNumber(pair)
  {
    assert pair[1..][1..] == "" && HexChar(pair[0]) && HexChar(pair[1]);
    assert Scan(pair[1..], DigitValue(pair[0])) == 16 * DigitValue(pair[0]) + DigitValue(pair[1]);
    ReadByteOf(pair);
  }

  /** A raw argument is there if and only if it is a nonempty string of pairs of digits, and these are its
      bytes. */
  lemma RawAccepted(c: Command, key: string, i: nat)
    ensures var text, r := GetText(c, key, ""), GetRaw(c, key);
      && (r.Ok? <==> text != "" && |text| % 2 == 0 && IsHex(text))
      && (r.Ok? && i < |r.value| ==> |r.value| == |text| / 2 && r.value[i] == HexNumber(text[2 * i..2 * i + 2]))
  {
    var text := GetText(c, key, "");
    var bad := FindFirst(text, NotHexChar, 0);
    if bad == NPOS {
      assert IsHex(text);
      if |text| % 2 == 0 && i < |text| / 2 { BytesRead(text, i); }
    }
  }

  /** Numbers are printed in the least of 2, 4 and 8 digits that holds them. */
  lemma NumberWidth(value: Unsigned)
    ensures var digits := |PrintNumber(value)|;
      && digits in {2, 4, 8} && value < Pow16(digits)
      && (digits > 2 ==> value >= Pow16(digits / 2))
  {
    assert Pow16(2) == 256 by { assert Pow16(1) == 16; }
    assert Pow16(4) == 0x1_0000;
    assert Pow16(6) == 0x100_0000;
    assert Pow16(8) == UNSIGNED;
    PaddedHex(value, if value < 256 then 2 else if value < 0x1_0000 then 4 else 8);
  }
}
