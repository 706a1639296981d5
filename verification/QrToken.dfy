/** Signed ticket tokens: `v1.<base64 of the JSON payload>.<HMAC in hex>`, printed and read. */
module QrToken {
  import opened Outcomes
  import opened TextNumbers
  import opened Base64
  import opened JsonText

  datatype Payload = Payload(t: string, s: string, exp: int)      // ticket, show, expiry in unix seconds

  const VERSION := "v1"

  // ---------------------------------------------------------------- the payload text

  const BEFORE_T := "{\"t\":\""
  const BEFORE_S := ",\"s\":\""
  const BEFORE_EXP := ",\"exp\":"

  /** `JSON.stringify` of a payload; each string is printed with its closing quote. */
  function Print(p: Payload): string {
    BEFORE_T + (Escape(p.t) + "\"" + (BEFORE_S + (Escape(p.s) + "\"" + (BEFORE_EXP + (PrintInt(p.exp) + "}")))))
  }

  /** The text after a given start. */
  function Skip(text: string, start: string): Option<string> {
    if start <= text then Some(text[|start|..]) else None
  }

  function ReadPayload(text: string): Option<Payload> {
    var afterT := Skip(text, BEFORE_T);
    var t := if afterT.Some? then ReadString(afterT.value) else None;
    var afterS := if t.Some? then Skip(t.value.rest, BEFORE_S) else None;
    var s := if afterS.Some? then ReadString(afterS.value) else None;
    var afterExp := if s.Some? then Skip(s.value.rest, BEFORE_EXP) else None;
    var exp := if afterExp.Some? then ReadInt(afterExp.value) else None;
    if exp.Some? && exp.value.rest == "}" then Some(Payload(t.value.value, s.value.value, exp.value.value)) else None
  }

  lemma SkipsBack(start: string, rest: string)
    ensures Skip(start + rest, start) == Some(rest)
  {
    assert start <= start + rest && (start + rest)[|start|..] == rest;
  }

  lemma PayloadReadsBack(p: Payload)
    ensures ReadPayload(Print(p)) == Some(p)
  {
    hide Skip, ReadString, ReadInt, Escape, PrintInt;
    var last := PrintInt(p.exp) + "}";
    var afterS := Escape(p.s) + "\"" + (BEFORE_EXP + last);
    var afterT := Escape(p.t) + "\"" + (BEFORE_S + afterS);
    SkipsBack(BEFORE_T, afterT);
    StringReadsBack(p.t, BEFORE_S + afterS);
    SkipsBack(BEFORE_S, afterS);
    StringReadsBack(p.s, BEFORE_EXP + last);
    SkipsBack(BEFORE_EXP, last);
    IntReadsBack(p.exp, "}");
  }

  predicate Plain(c: char) { ' ' <= c <= '~' && c != '\\' && c != '"' }

  /** Plain strings are printed as they are, in an object with the members t, s and exp. */
  lemma PrintsPlainly(t: string, s: string, exp: nat)
    requires (forall i | 0 <= i < |t| :: Plain(t[i])) && (forall i | 0 <= i < |s| :: Plain(s[i]))
    ensures Print(Payload(t, s, exp)) == "{\"t\":\"" + (t + "\"" + (",\"s\":\"" + (s + "\"" + (",\"exp\":" + (Decimal(exp) + "}")))))
  {
    EscapesNothing(t);
    EscapesNothing(s);
    hide Escape, Decimal;
  }

  lemma PlainCharStays(c: char)
    requires Plain(c)
    ensures EscapeChar(c) == [c]
  {}

  lemma {:induction false} EscapesNothing(s: string)
    requires forall i | 0 <= i < |s| :: Plain(s[i])
    ensures Escape(s) == s
  {
    hide Plain, EscapeChar;
    if s != "" {
      PlainCharStays(s[0]);
      EscapesNothing(s[1..]);
      assert [s[0]] + s[1..] == s;
    }
  }

  // ---------------------------------------------------------------- splitting on full stops

  function Split(text: string): (parts: seq<string>)
    ensures parts != []
  {
    if text == "" then [""]
    else
      var rest := Split(text[1..]);
      if text[0] == '.' then [""] + rest else [[text[0]] + rest[0]] + rest[1..]
  }

  lemma {:induction false} SplitDotless(text: string)
    requires '.' !in text
    ensures Split(text) == [text]
  {
    if text != "" {
      SplitDotless(text[1..]);
      assert [text[0]] + text[1..] == text;
    }
  }

  lemma {:induction false} SplitAtDot(a: string, rest: string)
    requires '.' !in a
    ensures Split(a + "." + rest) == [a] + Split(rest)
  {
    var text := a + "." + rest;
    if a == "" {
      assert text[0] == '.' && text[1..] == rest;
    } else {
      assert text[0] == a[0] && text[1..] == a[1..] + "." + rest;
      SplitAtDot(a[1..], rest);
      assert [a[0]] + a[1..] == a;
      assert ([a[1..]] + Split(rest))[1..] == Split(rest);
    }
  }

  function Join(parts: seq<string>): string
    requires parts != []
  {
    if |parts| == 1 then parts[0] else parts[0] + "." + Join(parts[1..])
  }

  /** Splitting loses nothing and leaves no full stop behind. */
  lemma {:induction false} SplitJoins(text: string)
    ensures Join(Split(text)) == text
    ensures forall i | 0 <= i < |Split(text)| :: '.' !in Split(text)[i]
  {
    if text != "" {
      var rest := Split(text[1..]);
      SplitJoins(text[1..]);
      if text[0] == '.' {
        assert ([""] + rest)[1..] == rest;
      } else {
        assert ([[text[0]] + rest[0]] + rest[1..])[1..] == rest[1..];
        assert |rest| > 1 ==> [text[0]] + (rest[0] + "." + Join(rest[1..])) == ([text[0]] + rest[0]) + "." + Join(rest[1..]);
      }
      assert [text[0]] + text[1..] == text;
    }
  }

  lemma JoinThree(parts: seq<string>)
    requires |parts| == 3
    ensures Join(parts) == parts[0] + "." + (parts[1] + "." + parts[2])
  {
    assert parts[1..][0] == parts[1] && parts[1..][1..][0] == parts[2];
    assert Join(parts[1..]) == parts[1] + "." + Join(parts[1..][1..]);
  }

  // ---------------------------------------------------------------- tokens

  /** The HMAC's hexadecimal text. */
  ghost predicate IsHex(sign: string -> string) {
    forall text: string, i: nat | i < |sign(text)| :: '0' <= sign(text)[i] <= '9' || 'a' <= sign(text)[i] <= 'f'
  }

  function Body(p: Payload): string { Encode(EncodeText(Print(p))) }

  function Token(body: string, sign: string -> string): string { VERSION + "." + (body + "." + sign(body)) }

  /** `generateSignedToken`; `sign` is the HMAC under the secret. */
  function Generate(p: Payload, sign: string -> string): string { Token(Body(p), sign) }

  function ReadBody(body: string): Option<Payload> {
    match Decode(body)
    case None => None
    case Some(bytes) =>
      match DecodeText(bytes)
      case None => None
      case Some(text) => ReadPayload(text)
  }

  /** An empty ticket or show, or an expiry of 0, is falsy. */
  predicate Complete(p: Payload) { p.t != "" && p.s != "" && p.exp != 0 }

  /** `validateToken`. */
  function Validate(token: string, sign: string -> string): Option<Payload> {
    var parts := Split(token);
    if token == "" || |parts| != 3 || parts[0] != VERSION || parts[2] != sign(parts[1]) then None
    else match ReadBody(parts[1])
      case None => None
      case Some(p) => if Complete(p) then Some(p) else None
  }

  lemma BodyReadsBack(p: Payload)
    ensures ReadBody(Body(p)) == Some(p)
  {
    hide Encode, Decode, EncodeText, DecodeText, Print, ReadPayload;
    RoundTrip(EncodeText(Print(p)));
    TextRoundTrip(Print(p));
    PayloadReadsBack(p);
  }

  lemma HexHasNoDot(sign: string -> string, text: string)
    requires IsHex(sign)
    ensures '.' !in sign(text)
  {}

  lemma TokenSplits(body: string, sign: string -> string)
    requires IsHex(sign) && '.' !in body
    ensures Split(Token(body, sign)) == [VERSION, body, sign(body)]
  {
    hide Split;
    HexHasNoDot(sign, body);
    SplitAtDot(VERSION, body + "." + sign(body));
    SplitAtDot(body, sign(body));
    SplitDotless(sign(body));
  }

  /** The round trip, for every payload: a generated token is read back as the payload it was
      made from, except that an incomplete payload is turned down. */
  lemma GeneratedTokenReadsBack(p: Payload, sign: string -> string)
    requires IsHex(sign)
    ensures Validate(Generate(p, sign), sign) == if Complete(p) then Some(p) else None
  {
    hide Split, Encode, ReadBody, IsHex;
    NoDot(EncodeText(Print(p)));
    TokenSplits(Body(p), sign);
    BodyReadsBack(p);
    assert |Generate(p, sign)| > 0;
  }

  /** Only signed text is accepted: the token is the version, some dot-free body, and the
      signature of that body. */
  lemma AcceptedMeansSigned(token: string, sign: string -> string) returns (body: string)
    requires Validate(token, sign).Some?
    ensures token == Token(body, sign) && '.' !in body && ReadBody(body) == Validate(token, sign)
  {
    hide ReadBody;
    SplitJoins(token);
    JoinThree(Split(token));
    body := Split(token)[1];
  }

  /** No signature serves two accepted tokens, if the HMAC has no collisions: so nothing in an
      accepted token can be changed while its signature is kept. */
  lemma SignatureFixesToken(x: string, y: string, sign: string -> string)
    requires Validate(x, sign).Some? && Validate(y, sign).Some? && Split(x)[|Split(x)| - 1] == Split(y)[|Split(y)| - 1]
    requires forall a, b :: sign(a) == sign(b) ==> a == b
    ensures x == y
  {
    hide ReadBody;
    SplitJoins(x);
    SplitJoins(y);
    JoinThree(Split(x));
    JoinThree(Split(y));
  }

  /** Different payloads never share a token. */
  lemma TokensDiffer(p: Payload, q: Payload, sign: string -> string)
    requires IsHex(sign) && Generate(p, sign) == Generate(q, sign)
    ensures p == q
  {
    hide Split, Encode, ReadBody, IsHex;
    NoDot(EncodeText(Print(p)));
    NoDot(EncodeText(Print(q)));
    TokenSplits(Body(p), sign);
    TokenSplits(Body(q), sign);
    BodyReadsBack(p);
    BodyReadsBack(q);
  }
}
