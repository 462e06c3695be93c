/**
 * json.dumps of the agent's parameter record, with Python's defaults
 * (ensure_ascii=True, separators ", " and ": "), and a decoder for JSON
 * string literals that shows the agent reads back exactly what was encoded.
 */
module JsonEncode {
  import opened Wrappers

  function HexDigit(d: nat): (c: char)
    requires d < 16
  {
    if d < 10 then (('0' as int) + d) as char else (('a' as int) + d - 10) as char
  }

  /** Four lower-case hexadecimal digits, as '{0:04x}'.format(n). */
  function Hex4(n: nat): (s: string)
    requires n < 0x1_0000
    ensures |s| == 4
  {
    [HexDigit(n / 0x1000), HexDigit(n / 0x100 % 16), HexDigit(n / 16 % 16), HexDigit(n % 16)]
  }

  function UnicodeEscape(n: nat): (s: string)
    requires n < 0x1_0000
    ensures |s| == 6
  {
    "\\u" + Hex4(n)
  }

  /**
   * The escape json.dumps writes for one character: the short escapes for
   * backslash, quote, backspace, form feed, newline, carriage return and tab,
   * the printable ASCII characters as they are, and \uXXXX for everything
   * else, as a UTF-16 surrogate pair above U+FFFF.
   */
  function EscapeChar(c: char): (s: string)
    ensures |s| > 0 && s[0] != '"'
  {
    if c == '"' then "\\\""
    else if c == '\\' then "\\\\"
    else if c == '\U{8}' then "\\b"
    else if c == '\U{C}' then "\\f"
    else if c == '\n' then "\\n"
    else if c == '\r' then "\\r"
    else if c == '\t' then "\\t"
    else if ' ' <= c <= '~' then [c]
    else if (c as int) < 0x1_0000 then UnicodeEscape(c as int)
    else
      var m := (c as int) - 0x1_0000;
      UnicodeEscape(0xD800 + m / 0x400) + UnicodeEscape(0xDC00 + m % 0x400)
  }

  function EscapeString(s: string): string
  {
    if s == [] then [] else EscapeChar(s[0]) + EscapeString(s[1..])
  }

  /** The parameters the agent CLI receives after --params. */
  datatype AgentParams = AgentParams(message: string, sessionId: string, idempotencyKey: string)

  const MessageKey := "{\"message\": \""
  const SessionSep := ", \"sessionId\": \""
  const IdempotencySep := ", \"idempotencyKey\": \""

  /** The escaped text of a string value, its closing quote, then what follows it. */
  function Quoted(value: string, after: string): string
  {
    EscapeString(value) + "\"" + after
  }

  /** json.dumps({"message": ..., "sessionId": ..., "idempotencyKey": ...}). */
  function ParamsJson(p: AgentParams): string
  {
    MessageKey + Quoted(p.message, SessionSep + Quoted(p.sessionId, IdempotencySep + Quoted(p.idempotencyKey, "}")))
  }

  // ---- decoding, as the receiving side reads the text ----

  function HexValue(c: char): Option<nat>
  {
    if '0' <= c <= '9' then Some((c as int) - ('0' as int))
    else if 'a' <= c <= 'f' then Some((c as int) - ('a' as int) + 10)
    else if 'A' <= c <= 'F' then Some((c as int) - ('A' as int) + 10)
    else None
  }

  /** The value of the four hexadecimal digits t starts with. */
  function ReadHex4(t: string): (r: Option<nat>)
    ensures r.Some? ==> r.value < 0x1_0000
  {
    if |t| < 4 then None
    else match (HexValue(t[0]), HexValue(t[1]), HexValue(t[2]), HexValue(t[3]))
      case (Some(a), Some(b), Some(c), Some(d)) =>
        if a < 16 && b < 16 && c < 16 && d < 16 then Some(((a * 16 + b) * 16 + c) * 16 + d) else None
      case _ => None
  }

  /** A \uXXXX escape at the start of t: its code unit. */
  function ReadUnicodeEscape(t: string): (r: Option<nat>)
    ensures r.Some? ==> r.value < 0x1_0000 && |t| >= 6
  {
    if |t| >= 6 && t[0] == '\\' && t[1] == 'u' then ReadHex4(t[2..]) else None
  }

  /**
   * Decodes the one character that t begins with inside a JSON string
   * literal: the character itself or an escape sequence (a surrogate pair
   * counts as one). Returns the character and how much of t it used.
   */
  function DecodeChar(t: string): (r: Option<(char, nat)>)
    ensures r.Some? ==> 0 < r.value.1 <= |t|
  {
    if t == [] || t[0] == '"' || t[0] < ' ' then None
    else if t[0] != '\\' then Some((t[0], 1))
    else if |t| < 2 then None
    else if t[1] == '"' then Some(('"', 2))
    else if t[1] == '\\' then Some(('\\', 2))
    else if t[1] == '/' then Some(('/', 2))
    else if t[1] == 'b' then Some(('\U{8}', 2))
    else if t[1] == 'f' then Some(('\U{C}', 2))
    else if t[1] == 'n' then Some(('\n', 2))
    else if t[1] == 'r' then Some(('\r', 2))
    else if t[1] == 't' then Some(('\t', 2))
    else match ReadUnicodeEscape(t)
      case None => None
      case Some(hi) =>
        if hi < 0xD800 || 0xE000 <= hi then Some((hi as char, 6))
        else if 0xDC00 <= hi then None
        else match ReadUnicodeEscape(t[6..])
          case Some(lo) =>
            if 0xDC00 <= lo < 0xE000 then Some(((0x1_0000 + (hi - 0xD800) * 0x400 + (lo - 0xDC00)) as char, 12))
            else None
          case None => None
  }

  /** Reads the rest of a string literal up to its closing quote: the text and what follows the quote. */
  function DecodeString(t: string): Option<(string, string)>
    decreases |t|
  {
    if t == [] then None
    else if t[0] == '"' then Some(([], t[1..]))
    else match DecodeChar(t)
      case None => None
      case Some((c, k)) =>
        match DecodeString(t[k..])
        case None => None
        case Some((s, rest)) => Some(([c] + s, rest))
  }

  /** t with the literal lit removed from its front, if it starts with it. */
  function Expect(lit: string, t: string): Option<string>
  {
    if |lit| <= |t| && t[..|lit|] == lit then Some(t[|lit|..]) else None
  }

  /** Reads a parameter record laid out as ParamsJson lays it out. */
  function ParseParams(t: string): Option<AgentParams>
  {
    match Expect(MessageKey, t)
    case None => None
    case Some(t1) =>
      match DecodeString(t1)
      case None => None
      case Some((m, t2)) =>
        match Expect(SessionSep, t2)
        case None => None
        case Some(t3) =>
          match DecodeString(t3)
          case None => None
          case Some((sid, t4)) =>
            match Expect(IdempotencySep, t4)
            case None => None
            case Some(t5) =>
              match DecodeString(t5)
              case None => None
              case Some((key, t6)) => if t6 == "}" then Some(AgentParams(m, sid, key)) else None
  }

  // ---- the round trip ----

  lemma HexDigitValue(d: nat)
    requires d < 16
    ensures HexValue(HexDigit(d)) == Some(d)
  {
  }

  lemma HexDigitsSum(n: nat)
    requires n < 0x1_0000
    ensures ((n / 0x1000 * 16 + n / 0x100 % 16) * 16 + n / 16 % 16) * 16 + n % 16 == n
  {
    var q1 := n / 16;
    var q2 := q1 / 16;
    assert n == 16 * q1 + n % 16;
    assert q1 == 16 * q2 + q1 % 16;
    assert q2 == n / 0x100;
    assert q2 / 16 == n / 0x1000;
    assert q2 == 16 * (q2 / 16) + q2 % 16;
  }

  lemma HexRoundTrip(n: nat, t: string)
    requires n < 0x1_0000
    ensures ReadHex4(Hex4(n) + t) == Some(n)
  {
    var h := Hex4(n) + t;
    assert h[0] == HexDigit(n / 0x1000) && h[1] == HexDigit(n / 0x100 % 16);
    assert h[2] == HexDigit(n / 16 % 16) && h[3] == HexDigit(n % 16);
    HexDigitValue(n / 0x1000);
    HexDigitValue(n / 0x100 % 16);
    HexDigitValue(n / 16 % 16);
    HexDigitValue(n % 16);
    HexDigitsSum(n);
  }

  lemma UnicodeEscapeRoundTrip(n: nat, t: string)
    requires n < 0x1_0000
    ensures ReadUnicodeEscape(UnicodeEscape(n) + t) == Some(n)
  {
    var u := UnicodeEscape(n) + t;
    assert u[2..] == Hex4(n) + t;
    HexRoundTrip(n, t);
  }

  /** A character outside the printable ASCII range and below U+10000 goes as one \uXXXX escape. */
  lemma SingleEscapeRoundTrip(c: char, t: string)
    requires !(c == '"' || c == '\\' || c == '\U{8}' || c == '\U{C}' || c == '\n' || c == '\r' || c == '\t')
    requires !(' ' <= c <= '~') && (c as int) < 0x1_0000
    ensures DecodeChar(EscapeChar(c) + t) == Some((c, 6))
  {
    assert EscapeChar(c) == UnicodeEscape(c as int);
    UnicodeEscapeRoundTrip(c as int, t);
  }

  /** The high and low surrogates of a code point above U+FFFF, and how they recombine. */
  lemma SurrogateSplit(v: int)
    requires 0x1_0000 <= v < 0x11_0000
    ensures var m := v - 0x1_0000;
      var hi, lo := 0xD800 + m / 0x400, 0xDC00 + m % 0x400;
      0xD800 <= hi < 0xDC00 <= lo < 0xE000 && 0x1_0000 + (hi - 0xD800) * 0x400 + (lo - 0xDC00) == v
  {
    var m := v - 0x1_0000;
    assert m == 0x400 * (m / 0x400) + m % 0x400;
  }

  /** A high surrogate escape followed by a low surrogate escape decodes as one character. */
  lemma PairDecodes(hi: nat, lo: nat, t: string)
    requires 0xD800 <= hi < 0xDC00 <= lo < 0xE000
    ensures var v := 0x1_0000 + (hi - 0xD800) * 0x400 + (lo - 0xDC00);
      0x1_0000 <= v < 0x11_0000
      && DecodeChar(UnicodeEscape(hi) + UnicodeEscape(lo) + t) == Some((v as char, 12))
  {
    var u := UnicodeEscape(hi) + (UnicodeEscape(lo) + t);
    assert UnicodeEscape(hi) + UnicodeEscape(lo) + t == u;
    UnicodeEscapeRoundTrip(hi, UnicodeEscape(lo) + t);
    assert u[6..] == UnicodeEscape(lo) + t;
    UnicodeEscapeRoundTrip(lo, t);
    assert u[0] == '\\' && u[1] == 'u';
  }

  /** A character above U+FFFF goes as a surrogate pair, which decodes back to it. */
  lemma SurrogatePairRoundTrip(c: char, t: string)
    requires (c as int) >= 0x1_0000
    ensures DecodeChar(EscapeChar(c) + t) == Some((c, 12))
  {
    var m := (c as int) - 0x1_0000;
    var hi, lo := 0xD800 + m / 0x400, 0xDC00 + m % 0x400;
    SurrogateSplit(c as int);
    var v := 0x1_0000 + (hi - 0xD800) * 0x400 + (lo - 0xDC00);
    assert v as char == c;
    assert EscapeChar(c) + t == UnicodeEscape(hi) + UnicodeEscape(lo) + t;
    PairDecodes(hi, lo, t);
  }

  /** Each escape decodes to the character it stands for, and uses exactly its own length. */
  lemma EscapeCharRoundTrip(c: char, t: string)
    ensures DecodeChar(EscapeChar(c) + t) == Some((c, |EscapeChar(c)|))
  {
    if c == '"' || c == '\\' || c == '\U{8}' || c == '\U{C}' || c == '\n' || c == '\r' || c == '\t' {
    } else if ' ' <= c <= '~' {
    } else if (c as int) < 0x1_0000 {
      SingleEscapeRoundTrip(c, t);
    } else {
      SurrogatePairRoundTrip(c, t);
    }
  }

  /** Decoding an escaped text followed by the closing quote gives the text back. */
  lemma {:induction false} EscapeStringRoundTrip(s: string, rest: string)
    ensures DecodeString(Quoted(s, rest)) == Some((s, rest))
  {
    if s == [] {
      assert Quoted(s, rest) == "\"" + rest;
    } else {
      var e := EscapeChar(s[0]);
      var tail := Quoted(s[1..], rest);
      assert Quoted(s, rest) == e + tail;
      EscapeCharRoundTrip(s[0], tail);
      assert (e + tail)[|e|..] == tail;
      EscapeStringRoundTrip(s[1..], rest);
      assert DecodeString(e + tail) == Some(([s[0]] + s[1..], rest));
      assert [s[0]] + s[1..] == s;
    }
  }

  lemma ExpectPrefix(lit: string, t: string)
    ensures Expect(lit, lit + t) == Some(t)
  {
    assert (lit + t)[..|lit|] == lit;
    assert (lit + t)[|lit|..] == t;
  }

  /** The agent reads back the very record that was serialised. */
  lemma ParamsRoundTrip(p: AgentParams)
    ensures ParseParams(ParamsJson(p)) == Some(p)
  {
    var t5 := Quoted(p.idempotencyKey, "}");
    var t3 := Quoted(p.sessionId, IdempotencySep + t5);
    var t1 := Quoted(p.message, SessionSep + t3);
    ExpectPrefix(MessageKey, t1);
    EscapeStringRoundTrip(p.message, SessionSep + t3);
    ExpectPrefix(SessionSep, t3);
    EscapeStringRoundTrip(p.sessionId, IdempotencySep + t5);
    ExpectPrefix(IdempotencySep, t5);
    EscapeStringRoundTrip(p.idempotencyKey, "}");
  }
}
