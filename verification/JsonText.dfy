/** The text layers under a ticket token: UTF-8 (RFC 3629) and the JSON (RFC 8259) of strings and
    integers, each with a reader and a proof that it undoes the writer.  Strings are sequences of
    Unicode scalar values. */
module JsonText {
  import opened Outcomes
  import opened TextNumbers
  import opened Base64

  // ---------------------------------------------------------------- UTF-8

  function EncodeChar(c: char): seq<Byte> {
    var n := c as int;
    if n < 0x80 then [n]
    else if n < 0x800 then [0xC0 + n / 64, 0x80 + n % 64]
    else if n < 0x10000 then [0xE0 + n / 4096, 0x80 + n / 64 % 64, 0x80 + n % 64]
    else [0xF0 + n / 262144, 0x80 + n / 4096 % 64, 0x80 + n / 64 % 64, 0x80 + n % 64]
  }

  function EncodeText(s: string): seq<Byte> {
    if s == "" then [] else EncodeChar(s[0]) + EncodeText(s[1..])
  }

  predicate Trails(b: seq<Byte>, k: nat) {
    k < |b| && forall i | 0 < i <= k :: 0x80 <= b[i] < 0xC0
  }

  predicate Scalar(n: int) { 0 <= n < 0xD800 || 0xE000 <= n < 0x110000 }

  /** How many bytes the first character takes; 0 when the bytes do not start with one. */
  function CharLength(b: seq<Byte>): nat {
    if b == [] then 0
    else if b[0] < 0x80 then 1
    else if 0xC0 <= b[0] < 0xE0 && Trails(b, 1) then 2
    else if 0xE0 <= b[0] < 0xF0 && Trails(b, 2) then 3
    else if 0xF0 <= b[0] < 0xF8 && Trails(b, 3) then 4
    else 0
  }

  function CodePoint(b: seq<Byte>): int
    requires CharLength(b) > 0
  {
    if b[0] < 0x80 then b[0]
    else if b[0] < 0xE0 then (b[0] as int - 0xC0) * 64 + (b[1] as int - 0x80)
    else if b[0] < 0xF0 then (b[0] as int - 0xE0) * 4096 + (b[1] as int - 0x80) * 64 + (b[2] as int - 0x80)
    else (b[0] as int - 0xF0) * 262144 + (b[1] as int - 0x80) * 4096 + (b[2] as int - 0x80) * 64 + (b[3] as int - 0x80)
  }

  function DecodeText(b: seq<Byte>): Option<string> {
    if b == [] then Some("")
    else if CharLength(b) == 0 || CharLength(b) > |b| || !Scalar(CodePoint(b)) then None
    else match DecodeText(b[CharLength(b)..])
      case None => None
      case Some(rest) => Some([CodePoint(b) as char] + rest)
  }

  lemma CharReadsBack(c: char, rest: seq<Byte>)
    ensures var b := EncodeChar(c) + rest; CharLength(b) == |EncodeChar(c)| && CodePoint(b) == c as int && b[CharLength(b)..] == rest
  {
    var n := c as int;
    var b := EncodeChar(c) + rest;
    assert b[0] == EncodeChar(c)[0];
    if n < 0x80 {
    } else if n < 0x800 {
      assert b[1] == 0x80 + n % 64;
    } else if n < 0x10000 {
      assert b[1] == 0x80 + n / 64 % 64 && b[2] == 0x80 + n % 64;
      assert n == n / 4096 * 4096 + n / 64 % 64 * 64 + n % 64 by { SplitSextets(n); }
    } else {
      assert b[1] == 0x80 + n / 4096 % 64 && b[2] == 0x80 + n / 64 % 64 && b[3] == 0x80 + n % 64;
      assert n == n / 262144 * 262144 + n / 4096 % 64 * 4096 + n / 64 % 64 * 64 + n % 64 by { SplitSextets(n); SplitSextets(n / 64); }
    }
  }

  lemma SplitSextets(n: nat)
    ensures n == n / 4096 * 4096 + n / 64 % 64 * 64 + n % 64
    ensures n / 64 / 4096 == n / 262144 && n / 64 / 64 == n / 4096
  {
    var m := n / 64;
    assert n == m * 64 + n % 64 && m == m / 64 * 64 + m % 64;
    assert m / 64 == n / 4096;
    assert m / 4096 == n / 262144;
  }

  lemma {:induction false} TextRoundTrip(s: string)
    ensures DecodeText(EncodeText(s)) == Some(s)
    decreases |s|
  {
    if s != "" {
      TextRoundTrip(s[1..]);
      CharReadsBack(s[0], EncodeText(s[1..]));
      hide CharLength, CodePoint, EncodeChar;
      assert [s[0]] + s[1..] == s;
    }
  }

  // ---------------------------------------------------------------- JSON strings

  function HexDigit(n: nat): char
    requires n < 16
  {
    if n < 10 then ('0' as int + n) as char else ('a' as int + n - 10) as char
  }

  function HexValue(c: char): (n: int)
    ensures -1 <= n < 16
  {
    if '0' <= c <= '9' then c as int - '0' as int
    else if 'a' <= c <= 'f' then c as int - 'a' as int + 10
    else if 'A' <= c <= 'F' then c as int - 'A' as int + 10 else -1
  }

  function EscapeChar(c: char): string {
    if c == '"' then "\\\""
    else if c == '\\' then "\\\\"
    else if c as int == 8 then "\\b"
    else if c as int == 9 then "\\t"
    else if c as int == 10 then "\\n"
    else if c as int == 12 then "\\f"
    else if c as int == 13 then "\\r"
    else if c as int < 32 then ['\\', 'u', '0', '0', HexDigit(c as int / 16), HexDigit(c as int % 16)]
    else [c]
  }

  function Escape(s: string): string {
    if s == "" then "" else EscapeChar(s[0]) + Escape(s[1..])
  }

  /** Something read, and the text after it. */
  datatype Read<+T> = Read(value: T, rest: string)

  function ReadHex(text: string): int {
    if |text| < 4 || HexValue(text[0]) < 0 || HexValue(text[1]) < 0 || HexValue(text[2]) < 0 || HexValue(text[3]) < 0 then -1
    else HexValue(text[0]) * 4096 + HexValue(text[1]) * 256 + HexValue(text[2]) * 16 + HexValue(text[3])
  }

  /** One character of a string's inside, escaped or not. */
  function ReadChar(text: string): (r: Option<Read<char>>)
    ensures r.Some? ==> |r.value.rest| < |text|
  {
    if text == "" || text[0] as int < 32 || text[0] == '"' then None
    else if text[0] != '\\' then Some(Read(text[0], text[1..]))
    else if |text| < 2 then None
    else match text[1]
      case '"' => Some(Read('"', text[2..]))
      case '\\' => Some(Read('\\', text[2..]))
      case '/' => Some(Read('/', text[2..]))
      case 'b' => Some(Read(8 as char, text[2..]))
      case 't' => Some(Read(9 as char, text[2..]))
      case 'n' => Some(Read(10 as char, text[2..]))
      case 'f' => Some(Read(12 as char, text[2..]))
      case 'r' => Some(Read(13 as char, text[2..]))
      case 'u' => if Scalar(ReadHex(text[2..])) then Some(Read(ReadHex(text[2..]) as char, text[6..])) else None
      case _ => None
  }

  /** The inside of a string up to its closing quote, which is consumed. */
  function ReadString(text: string): (r: Option<Read<string>>)
    ensures r.Some? ==> |r.value.rest| < |text|
    decreases |text|
  {
    if text != "" && text[0] == '"' then Some(Read("", text[1..]))
    else match ReadChar(text)
      case None => None
      case Some(c) =>
        match ReadString(c.rest)
        case None => None
        case Some(s) => Some(Read([c.value] + s.value, s.rest))
  }

  lemma EscapedCharReadsBack(c: char, rest: string)
    ensures ReadChar(EscapeChar(c) + rest) == Some(Read(c, rest)) && (EscapeChar(c) + rest)[0] != '"'
  {
    var text := EscapeChar(c) + rest;
    if c as int < 32 && |EscapeChar(c)| == 6 {
      var n := c as int;
      assert HexValue(HexDigit(n / 16)) == n / 16 && HexValue(HexDigit(n % 16)) == n % 16;
      assert text[0] == '\\' && text[1] == 'u' && text[2] == '0' && text[3] == '0' && text[4] == HexDigit(n / 16) && text[5] == HexDigit(n % 16);
      var tail := text[2..];
      assert tail[0] == text[2] && tail[1] == text[3] && tail[2] == text[4] && tail[3] == text[5];
      assert ReadHex(tail) == n;
      assert text[6..] == rest;
    } else if |EscapeChar(c)| == 2 {
      assert text[0] == EscapeChar(c)[0] && text[1] == EscapeChar(c)[1] && text[2..] == rest;
    } else {
      assert text[0] == c && text[1..] == rest;
    }
  }

  lemma {:induction false} StringReadsBack(s: string, rest: string)
    ensures ReadString(Escape(s) + "\"" + rest) == Some(Read(s, rest))
    decreases |s|
  {
    if s == "" {
      var text := Escape(s) + "\"" + rest;
      assert text[0] == '"' && text[1..] == rest;
    } else {
      var after := Escape(s[1..]) + "\"" + rest;
      assert Escape(s) + "\"" + rest == EscapeChar(s[0]) + after;
      EscapedCharReadsBack(s[0], after);
      StringReadsBack(s[1..], rest);
      hide ReadChar, EscapeChar;
      assert [s[0]] + s[1..] == s;
    }
  }

  // ---------------------------------------------------------------- JSON integers

  function PrintInt(n: int): string { if n < 0 then "-" + Decimal(-n) else Decimal(n) }

  /** Digits without a superfluous leading zero. */
  predicate NoLeadingZero(ds: string) { ds != "" && (|ds| > 1 ==> ds[0] != '0') }

  function ReadNat(text: string): Option<Read<int>> {
    var k := DigitsPrefix(text);
    if NoLeadingZero(text[..k]) then Some(Read(Value(text[..k]), text[k..])) else None
  }

  function ReadInt(text: string): Option<Read<int>> {
    if text != "" && text[0] == '-' then
      match ReadNat(text[1..])
      case None => None
      case Some(r) => Some(Read(-r.value, r.rest))
    else ReadNat(text)
  }

  lemma {:induction false} PositiveStartsPositive(n: nat)
    requires n > 0
    ensures Decimal(n) != "" && Decimal(n)[0] != '0'
  {
    if n >= 10 { PositiveStartsPositive(n / 10); }
  }

  lemma NatReadsBack(n: nat, rest: string)
    requires rest == "" || !IsDigit(rest[0])
    ensures ReadNat(Decimal(n) + rest) == Some(Read(n, rest))
  {
    DecimalRoundTrip(n);
    DigitsPrefixOf(Decimal(n), rest);
    if n > 0 { PositiveStartsPositive(n); }
    var text := Decimal(n) + rest;
    assert text[..|Decimal(n)|] == Decimal(n) && text[|Decimal(n)|..] == rest;
  }

  lemma IntReadsBack(n: int, rest: string)
    requires rest == "" || !IsDigit(rest[0])
    ensures ReadInt(PrintInt(n) + rest) == Some(Read(n, rest))
  {
    hide ReadNat, Decimal;
    if n < 0 {
      NatReadsBack(-n, rest);
      assert (PrintInt(n) + rest)[1..] == Decimal(-n) + rest;
    } else {
      NatReadsBack(n, rest);
      StartsWithDigit(n);
      assert (Decimal(n) + rest)[0] == Decimal(n)[0];
    }
  }

  lemma StartsWithDigit(n: nat)
    ensures Decimal(n) != "" && IsDigit(Decimal(n)[0])
  {
    DecimalRoundTrip(n);
  }
}
