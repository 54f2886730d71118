/** The std::string searches and the hexadecimal stream formatting the wire protocol is written with. */
module Text {

  /** std::string::npos */
  const NPOS: int := -1

  /** `find_first_of` and `find_first_not_of`, for the set of characters given by `wanted`. */
  function FindFirst(s: string, wanted: char -> bool, from: nat): (r: int)
    ensures r == NPOS || (from <= r < |s| && wanted(s[r]))
    ensures forall i :: from <= i < |s| && (r == NPOS || i < r) ==> !wanted(s[i])
    decreases |s| - from
  {
    if from >= |s| then NPOS
    else if wanted(s[from]) then from
    else FindFirst(s, wanted, from + 1)
  }

  predicate Matches(s: string, pattern: string, at: nat) {
    at + |pattern| <= |s| && s[at..at + |pattern|] == pattern
  }

  /** The first occurrence of `pattern` from `from` on. */
  function Find(s: string, pattern: string, from: nat): (r: int)
    ensures r == NPOS || from <= r <= |s| - |pattern|
    decreases |s| - from
  {
    if from + |pattern| > |s| then NPOS
    else if Matches(s, pattern, from) then from
    else if from == |s| then NPOS
    else Find(s, pattern, from + 1)
  }

  lemma {:induction false} FindAt(s: string, pattern: string, from: nat, at: nat)
    requires from <= at && Matches(s, pattern, at)
    requires forall i: nat :: from <= i < at ==> !Matches(s, pattern, i)
    ensures Find(s, pattern, from) == at
    decreases at - from
  {
    if from < at {
      FindAt(s, pattern, from + 1, at);
    }
  }

  /** `s.find(pattern) == 0` tests for a prefix. */
  lemma {:induction false} FindAtStart(s: string, pattern: string)
    requires pattern != ""
    ensures Find(s, pattern, 0) == 0 <==> pattern <= s
  {
    if |pattern| <= |s| {
      assert s[0..0 + |pattern|] == s[..|pattern|];
    }
  }

  /** std::string::substr */
  function Substr(s: string, from: nat, length: nat): string
    requires from <= |s|
  {
    if from + length <= |s| then s[from..from + length] else s[from..]
  }

  // --- Hexadecimal ---

  predicate HexChar(c: char) {
    '0' <= c <= '9' || 'a' <= c <= 'f' || 'A' <= c <= 'F'
  }

  predicate NotHexChar(c: char) {
    !HexChar(c)
  }

  predicate IsHex(s: string) {
    forall i :: 0 <= i < |s| ==> HexChar(s[i])
  }

  function Digit(d: nat): (c: char)
    requires d < 16
    ensures HexChar(c) && DigitValue(c) == d
  {
    if d < 10 then '0' + d as char else 'a' + (d - 10) as char
  }

  function DigitValue(c: char): (d: nat)
    requires HexChar(c)
    ensures d < 16
  {
    if '0' <= c <= '9' then (c - '0') as nat
    else if 'a' <= c <= 'f' then (c - 'a') as nat + 10
    else (c - 'A') as nat + 10
  }

  /** `stream << std::hex << n` */
  function ToHex(n: nat): (s: string)
    ensures s != "" && IsHex(s)
  {
    if n < 16 then [Digit(n)] else ToHex(n / 16) + [Digit(n % 16)]
  }

  function Zeros(n: nat): (s: string)
    ensures |s| == n && IsHex(s)
  {
    if n == 0 then "" else "0" + Zeros(n - 1)
  }

  /** `stream.fill('0')` and `std::setw(width)` */
  function Padded(s: string, width: nat): string {
    if |s| < width then Zeros(width - |s|) + s else s
  }

  /** The digits at the start of `s` read in after those that made up `value`. */
  function Scan(s: string, value: nat): nat
    decreases s
  {
    if s == "" || !HexChar(s[0]) then value else Scan(s[1..], 16 * value + DigitValue(s[0]))
  }

  function HexNumber(s: string): nat {
    Scan(s, 0)
  }

  function Pow16(n: nat): (p: nat)
    ensures p > 0
  {
    if n == 0 then 1 else 16 * Pow16(n - 1)
  }

  lemma {:induction false} ScanAppend(s: string, c: char, value: nat)
    requires IsHex(s) && HexChar(c)
    ensures Scan(s + [c], value) == 16 * Scan(s, value) + DigitValue(c)
    decreases s
  {
    if s == "" {
      assert [c][1..] == "" && s + [c] == [c];
    } else {
      ScanAppend(s[1..], c, 16 * value + DigitValue(s[0]));
      assert (s + [c])[1..] == s[1..] + [c];
    }
  }

  lemma {:induction false} ToHexInverse(n: nat)
    ensures HexNumber(ToHex(n)) == n
  {
    if n < 16 {
      assert ToHex(n)[1..] == "" && Scan("", DigitValue(Digit(n))) == n;
    } else {
      ToHexInverse(n / 16);
      ScanAppend(ToHex(n / 16), Digit(n % 16), 0);
    }
  }

  lemma {:induction false} ToHexLength(n: nat, width: nat)
    requires width > 0 && n < Pow16(width)
    ensures |ToHex(n)| <= width
  {
    if n >= 16 {
      assert Pow16(1) == 16 * Pow16(0) == 16;
      ToHexLength(n / 16, width - 1);
    }
  }

  lemma {:induction false} ZerosAddNothing(n: nat, s: string)
    requires IsHex(s)
    ensures IsHex(Zeros(n) + s) && HexNumber(Zeros(n) + s) == HexNumber(s)
    decreases n
  {
    if n == 0 {
      assert Zeros(0) + s == s;
    } else {
      var rest := Zeros(n - 1) + s;
      ZerosAddNothing(n - 1, s);
      assert Zeros(n) + s == ['0'] + rest;
      LeadingZero(rest);
    }
  }

  lemma LeadingZero(s: string)
    requires IsHex(s)
    ensures IsHex(['0'] + s) && HexNumber(['0'] + s) == HexNumber(s)
  {
    assert (['0'] + s)[1..] == s && DigitValue('0') == 0;
  }

  /** A number printed with zero padding to a width that holds it. */
  lemma PaddedHex(n: nat, width: nat)
    requires width > 0 && n < Pow16(width)
    ensures var s := Padded(ToHex(n), width); |s| == width && IsHex(s) && HexNumber(s) == n
  {
    ToHexInverse(n);
    ToHexLength(n, width);
    ZerosAddNothing(width - |ToHex(n)|, ToHex(n));
  }

  // --- `std::istringstream(s) >> std::hex >> x` ---

  predicate Space(c: char) {
    c == ' ' || '\t' <= c <= '\r'
  }

  /** What the extraction leaves in an unsigned variable of `size` values that held `before`:
      white space is skipped, a sign and a "0x" prefix are taken, digits are read up to the first
      other character. Without input the variable keeps its value, without digits it becomes 0, and
      a number out of range becomes the largest value. */
  function ReadHex(s: string, size: nat, before: nat): (value: nat)
    requires before < size
    ensures value < size
    decreases s
  {
    if s == "" then before
    else if Space(s[0]) then ReadHex(s[1..], size, before)
    else if s[0] == '-' then Stored(AfterPrefix(s[1..]), true, size)
    else if s[0] == '+' then Stored(AfterPrefix(s[1..]), false, size)
    else Stored(AfterPrefix(s), false, size)
  }

  function AfterPrefix(s: string): nat {
    if |s| >= 2 && s[0] == '0' && (s[1] == 'x' || s[1] == 'X') then HexNumber(s[2..]) else HexNumber(s)
  }

  function Stored(value: nat, negative: bool, size: nat): (v: nat)
    requires size > 0
    ensures v < size
  {
    if value >= size then size - 1 else if negative && value > 0 then size - value else value
  }

  lemma ReadHexOfDigits(s: string, size: nat, before: nat)
    requires s != "" && IsHex(s) && HexNumber(s) < size && before < size
    ensures ReadHex(s, size, before) == HexNumber(s)
  {
    assert HexChar(s[0]);
    if |s| >= 2 { assert HexChar(s[1]); }
  }
}
