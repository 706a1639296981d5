/** Base64 with padding (section 4 of RFC 4648) over bytes. */
module Base64 {
  import opened Outcomes

  type Byte = x: int | 0 <= x < 256

  predicate IsSextet(n: int) { 0 <= n < 64 }

  function Symbol(n: int): char
    requires IsSextet(n)
  {
    if n < 26 then ('A' as int + n) as char
    else if n < 52 then ('a' as int + n - 26) as char
    else if n < 62 then ('0' as int + n - 52) as char
    else if n == 62 then '+' else '/'
  }

  function Sextet(c: char): (n: int)
    ensures n == -1 || IsSextet(n)
  {
    if 'A' <= c <= 'Z' then c as int - 'A' as int
    else if 'a' <= c <= 'z' then c as int - 'a' as int + 26
    else if '0' <= c <= '9' then c as int - '0' as int + 52
    else if c == '+' then 62 else if c == '/' then 63 else -1
  }

  function Encode(b: seq<Byte>): string {
    if |b| == 0 then ""
    else if |b| == 1 then [Symbol(b[0] / 4), Symbol(b[0] % 4 * 16), '=', '=']
    else if |b| == 2 then [Symbol(b[0] / 4), Symbol(b[0] % 4 * 16 + b[1] / 16), Symbol(b[1] % 16 * 4), '=']
    else [Symbol(b[0] / 4), Symbol(b[0] % 4 * 16 + b[1] / 16), Symbol(b[1] % 16 * 4 + b[2] / 64), Symbol(b[2] % 64)] + Encode(b[3..])
  }

  /** Three bytes, or fewer before padding, from four symbols. */
  function Quad(a: int, b: int, c: int, d: int): seq<Byte>
    requires IsSextet(a) && IsSextet(b) && IsSextet(c) && IsSextet(d)
  {
    [a * 4 + b / 16, b % 16 * 16 + c / 4, c % 4 * 64 + d]
  }

  function Decode(s: string): Option<seq<Byte>> {
    if s == "" then Some([])
    else if |s| < 4 || Sextet(s[0]) == -1 || Sextet(s[1]) == -1 then None
    else if s[2..] == "==" then Some(Quad(Sextet(s[0]), Sextet(s[1]), 0, 0)[..1])
    else if Sextet(s[2]) == -1 then None
    else if s[3..] == "=" then Some(Quad(Sextet(s[0]), Sextet(s[1]), Sextet(s[2]), 0)[..2])
    else if Sextet(s[3]) == -1 then None
    else match Decode(s[4..])
      case None => None
      case Some(rest) => Some(Quad(Sextet(s[0]), Sextet(s[1]), Sextet(s[2]), Sextet(s[3])) + rest)
  }

  lemma SymbolRoundTrip(n: int)
    requires IsSextet(n)
    ensures Sextet(Symbol(n)) == n && Symbol(n) != '=' && Symbol(n) != '.'
  {}

  /** Four symbols are the digits to base 64 of the number whose digits to base 256 are the three bytes. */
  lemma FourForThree(b: seq<Byte>)
    requires |b| >= 3
    ensures |Encode(b)| >= 4 && Encode(b)[4..] == Encode(b[3..])
    ensures var s := Encode(b);
            Sextet(s[0]) * 262144 + Sextet(s[1]) * 4096 + Sextet(s[2]) * 64 + Sextet(s[3])
            == b[0] as int * 65536 + b[1] as int * 256 + b[2] as int
  {
    hide Symbol, Sextet;
    Regroup(b[0], b[1], b[2]);
    SymbolRoundTrip(b[0] / 4);
    SymbolRoundTrip(b[0] % 4 * 16 + b[1] / 16);
    SymbolRoundTrip(b[1] % 16 * 4 + b[2] / 64);
    SymbolRoundTrip(b[2] % 64);
    var x, y, z := b[0] as int, b[1] as int, b[2] as int;
    assert x == x / 4 * 4 + x % 4 && y == y / 16 * 16 + y % 16 && z == z / 64 * 64 + z % 64;
  }

  /** The bits of three bytes, regrouped and put back. */
  lemma Regroup(x: Byte, y: Byte, z: Byte)
    ensures IsSextet(x / 4) && IsSextet(x % 4 * 16 + y / 16) && IsSextet(y % 16 * 4 + z / 64) && IsSextet(z % 64)
    ensures Quad(x / 4, x % 4 * 16 + y / 16, y % 16 * 4 + z / 64, z % 64) == [x, y, z]
  {
    var q, r := x % 4 * 16 + y / 16, y % 16 * 4 + z / 64;
    assert x == x / 4 * 4 + x % 4 && y == y / 16 * 16 + y % 16 && z == z / 64 * 64 + z % 64;
    assert q / 16 == x % 4 && q % 16 == y / 16;
    assert r / 4 == y % 16 && r % 4 == z / 64;
  }

  lemma DecodeFour(p: int, q: int, r: int, t: int, rest: string)
    requires IsSextet(p) && IsSextet(q) && IsSextet(r) && IsSextet(t) && Decode(rest).Some?
    ensures Decode([Symbol(p), Symbol(q), Symbol(r), Symbol(t)] + rest) == Some(Quad(p, q, r, t) + Decode(rest).value)
  {
    hide Symbol, Sextet, Quad;
    SymbolRoundTrip(p);
    SymbolRoundTrip(q);
    SymbolRoundTrip(r);
    SymbolRoundTrip(t);
    var s := [Symbol(p), Symbol(q), Symbol(r), Symbol(t)] + rest;
    assert s[2..][0] == Symbol(r) && s[3..][0] == Symbol(t) && s[4..] == rest;
    assert s[2..] != "==" && s[3..] != "=";
  }

  lemma DecodeThree(p: int, q: int, r: int)
    requires IsSextet(p) && IsSextet(q) && IsSextet(r)
    ensures Decode([Symbol(p), Symbol(q), Symbol(r), '=']) == Some(Quad(p, q, r, 0)[..2])
  {
    hide Symbol, Sextet;
    SymbolRoundTrip(p);
    SymbolRoundTrip(q);
    SymbolRoundTrip(r);
    var s := [Symbol(p), Symbol(q), Symbol(r), '='];
    assert s[2..][0] == Symbol(r) && s[3..] == "=";
    assert s[2..] != "==";
  }

  lemma DecodeTwo(p: int, q: int)
    requires IsSextet(p) && IsSextet(q)
    ensures Decode([Symbol(p), Symbol(q), '=', '=']) == Some(Quad(p, q, 0, 0)[..1])
  {
    hide Symbol, Sextet;
    SymbolRoundTrip(p);
    SymbolRoundTrip(q);
    assert [Symbol(p), Symbol(q), '=', '='][2..] == "==";
  }

  /** Decoding undoes encoding, for every byte sequence. */
  lemma {:induction false} RoundTrip(b: seq<Byte>)
    ensures Decode(Encode(b)) == Some(b)
    decreases |b|
  {
    hide Decode, Symbol, Quad;
    if |b| == 0 {
      assert Decode("") == Some([]) by { DecodeNothing(); }
    } else if |b| == 1 {
      Regroup(b[0], 0, 0);
      DecodeTwo(b[0] / 4, b[0] % 4 * 16);
      assert [b[0], 0, 0][..1] == b;
    } else if |b| == 2 {
      Regroup(b[0], b[1], 0);
      DecodeThree(b[0] / 4, b[0] % 4 * 16 + b[1] / 16, b[1] % 16 * 4);
      assert [b[0], b[1], 0][..2] == b;
    } else {
      Regroup(b[0], b[1], b[2]);
      RoundTrip(b[3..]);
      DecodeFour(b[0] / 4, b[0] % 4 * 16 + b[1] / 16, b[1] % 16 * 4 + b[2] / 64, b[2] % 64, Encode(b[3..]));
      assert [b[0], b[1], b[2]] + b[3..] == b;
    }
  }

  lemma DecodeNothing()
    ensures Decode("") == Some([])
  {}

  /** No full stop in encoded text. */
  lemma {:induction false} NoDot(b: seq<Byte>)
    ensures '.' !in Encode(b)
    decreases |b|
  {
    if |b| == 1 {
      SymbolRoundTrip(b[0] / 4);
      SymbolRoundTrip(b[0] % 4 * 16);
    } else if |b| == 2 {
      SymbolRoundTrip(b[0] / 4);
      SymbolRoundTrip(b[0] % 4 * 16 + b[1] / 16);
      SymbolRoundTrip(b[1] % 16 * 4);
    } else if |b| > 2 {
      SymbolRoundTrip(b[0] / 4);
      SymbolRoundTrip(b[0] % 4 * 16 + b[1] / 16);
      SymbolRoundTrip(b[1] % 16 * 4 + b[2] / 64);
      SymbolRoundTrip(b[2] % 64);
      NoDot(b[3..]);
    }
  }
}
