/**
 * JSON text. Quote is the string-literal encoding JSON.stringify applies to a
 * string (the ECMAScript QuoteJSONString operation, a valid string literal in
 * the sense of section 7 of RFC 8259); Unquote is a parser for such a
 * literal. Stringify is JSON.stringify over the values of module JsValues.
 */
module JsonText {
  import opened Wrappers
  import opened Text
  import opened JsValues

  /** Lower-case hexadecimal digit, as JSON.stringify writes in \u escapes. */
  function HexChar(d: nat): char
    requires d < 16
  {
    "0123456789abcdef"[d]
  }

  predicate IsHex(c: char) {
    ('0' <= c <= '9') || ('a' <= c <= 'f') || ('A' <= c <= 'F')
  }

  function HexValue(c: char): (d: nat)
    requires IsHex(c)
    ensures d < 16
  {
    if '0' <= c <= '9' then c as int - '0' as int
    else if 'a' <= c <= 'f' then c as int - 'a' as int + 10
    else c as int - 'A' as int + 10
  }

  /** The escaped form of one character inside a string literal. */
  function EscapeChar(c: char): string {
    if c == '"' then "\\\""
    else if c == '\\' then "\\\\"
    else if c as int == 0x08 then "\\b"
    else if c as int == 0x0C then "\\f"
    else if c == '\n' then "\\n"
    else if c == '\r' then "\\r"
    else if c == '\t' then "\\t"
    else if c as int < 0x20 then "\\u00" + [HexChar(c as int / 16), HexChar(c as int % 16)]
    else [c]
  }

  function Escape(s: string): string
    decreases |s|
  {
    if s == [] then [] else EscapeChar(s[0]) + Escape(s[1..])
  }

  /** JSON.stringify of a string: the escaped characters between double quotes. */
  function Quote(s: string): string {
    "\"" + Escape(s) + "\""
  }

  /** The character a one-letter escape \e stands for. */
  function ShortEscape(e: char): Option<char> {
    if e == '"' || e == '\\' || e == '/' then Some(e)
    else if e == 'b' then Some(0x08 as char)
    else if e == 'f' then Some(0x0C as char)
    else if e == 'n' then Some('\n')
    else if e == 'r' then Some('\r')
    else if e == 't' then Some('\t')
    else None
  }

  function Cons(c: char, rest: Option<string>): Option<string> {
    match rest
    case None => None
    case Some(s) => Some([c] + s)
  }

  /**
   * Decodes the characters of a string literal after its opening quote; the
   * closing quote must be the last character. Escapes of surrogate code
   * points are refused, as a Dafny char cannot hold one.
   */
  function DecodeBody(t: string): Option<string>
    decreases |t|
  {
    if t == [] then None
    else if t[0] == '"' then (if |t| == 1 then Some([]) else None)
    else if t[0] == '\\' then
      if |t| < 2 then None
      else if t[1] == 'u' then
        if |t| < 6 || !(IsHex(t[2]) && IsHex(t[3]) && IsHex(t[4]) && IsHex(t[5])) then None
        else
          var code := ((HexValue(t[2]) * 16 + HexValue(t[3])) * 16 + HexValue(t[4])) * 16 + HexValue(t[5]);
          if 0xD800 <= code < 0xE000 then None
          else Cons(code as char, DecodeBody(t[6..]))
      else
        match ShortEscape(t[1])
        case None => None
        case Some(c) => Cons(c, DecodeBody(t[2..]))
    else if t[0] as int < 0x20 then None
    else Cons(t[0], DecodeBody(t[1..]))
  }

  /** Parses one complete JSON string literal (RFC 8259, section 7). */
  function Unquote(t: string): Option<string> {
    if t != [] && t[0] == '"' then DecodeBody(t[1..]) else None
  }

  /** A character with a one-letter escape. */
  predicate HasShortEscape(c: char) {
    c == '"' || c == '\\' || c as int == 0x08 || c as int == 0x0C || c == '\n' || c == '\r' || c == '\t'
  }

  lemma ShortEscapeDecodes(c: char, rest: string)
    requires HasShortEscape(c)
    ensures DecodeBody(EscapeChar(c) + rest) == Cons(c, DecodeBody(rest))
  {
    var t := EscapeChar(c) + rest;
    assert |EscapeChar(c)| == 2 && EscapeChar(c)[0] == '\\';
    assert ShortEscape(EscapeChar(c)[1]) == Some(c);
    assert t[2..] == rest;
  }

  /** A digit written in hexadecimal reads back as itself. */
  lemma HexDigitRoundTrip(d: nat)
    requires d < 16
    ensures IsHex(HexChar(d)) && HexValue(HexChar(d)) == d
  {
  }

  lemma UnicodeEscapeDecodes(c: char, rest: string)
    requires !HasShortEscape(c) && c as int < 0x20
    ensures DecodeBody(EscapeChar(c) + rest) == Cons(c, DecodeBody(rest))
  {
    var hi, lo := c as int / 16, c as int % 16;
    var e := EscapeChar(c);
    assert e == "\\u00" + [HexChar(hi), HexChar(lo)];
    var t := e + rest;
    assert t[0] == '\\' && t[1] == 'u' && t[2] == '0' && t[3] == '0' && t[4] == HexChar(hi) && t[5] == HexChar(lo);
    HexDigitRoundTrip(hi);
    HexDigitRoundTrip(lo);
    assert t[6..] == rest;
  }

  /** Decoding an escaped character yields the character, then decoding goes on. */
  lemma EscapeCharDecodes(c: char, rest: string)
    ensures DecodeBody(EscapeChar(c) + rest) == Cons(c, DecodeBody(rest))
  {
    if HasShortEscape(c) {
      ShortEscapeDecodes(c, rest);
    } else if c as int < 0x20 {
      UnicodeEscapeDecodes(c, rest);
    } else {
      assert (EscapeChar(c) + rest)[1..] == rest;
    }
  }

  /** The body of a quoted string decodes to the original characters. */
  lemma {:induction false} EscapeDecodes(s: string)
    ensures DecodeBody(Escape(s) + "\"") == Some(s)
    decreases |s|
  {
    if s != [] {
      assert Escape(s) + "\"" == EscapeChar(s[0]) + (Escape(s[1..]) + "\"");
      EscapeCharDecodes(s[0], Escape(s[1..]) + "\"");
      EscapeDecodes(s[1..]);
      assert [s[0]] + s[1..] == s;
    }
  }

  /** Quoting round-trips: a JSON parser reads back exactly the quoted string. */
  lemma QuoteRoundTrip(s: string)
    ensures Unquote(Quote(s)) == Some(s)
  {
    assert Quote(s)[1..] == Escape(s) + "\"";
    EscapeDecodes(s);
  }

  /** A quoted string is delimited by double quotes, so trim leaves it alone. */
  lemma TrimQuote(s: string)
    ensures Trim(Quote(s)) == Quote(s)
  {
    TrimUnpadded(Quote(s));
  }

  /** JSON.stringify: no whitespace, object members in property order. */
  function Stringify(v: Json): string
    decreases v
  {
    match v
    case JNull => "null"
    case JBool(b) => if b then "true" else "false"
    case JNum(n) => Decimal(n)
    case JStr(s) => Quote(s)
    case JArr(items) =>
      "[" + Join(seq(|items|, i requires 0 <= i < |items| => Stringify(items[i])), ",") + "]"
    case JObj(fs) =>
      "{" + Join(seq(|fs|, i requires 0 <= i < |fs| => Quote(fs[i].0) + ":" + Stringify(fs[i].1)), ",") + "}"
  }

  /**
   * `JSON.stringify(JSON.stringify(v)).trim()`: the JSON text of v, written
   * as a JSON string literal.
   */
  function DoubleEncoded(v: Json): string {
    Trim(Quote(Stringify(v)))
  }

  /** A quoted text survives the trim and decodes back to itself. */
  lemma TrimmedQuoteDecodes(s: string)
    ensures Unquote(Trim(Quote(s))) == Some(s)
  {
    TrimQuote(s);
    QuoteRoundTrip(s);
  }

  /** A quoted text, trimmed, still begins and ends with a double quote. */
  lemma TrimmedQuoteDelimited(s: string)
    ensures var r := Trim(Quote(s)); |r| >= 2 && r[0] == '"' && r[|r| - 1] == '"'
  {
    var q := Quote(s);
    assert |q| == |Escape(s)| + 2 && q[0] == '"' && q[|q| - 1] == '"';
    TrimQuote(s);
  }

  /** The double encoding is a string literal that decodes to the JSON text of the value. */
  lemma DoubleEncodedDecodes(v: Json)
    ensures Unquote(DoubleEncoded(v)) == Some(Stringify(v))
    ensures var r := DoubleEncoded(v); |r| >= 2 && r[0] == '"' && r[|r| - 1] == '"'
  {
    TrimmedQuoteDecodes(Stringify(v));
    TrimmedQuoteDelimited(Stringify(v));
  }
}
