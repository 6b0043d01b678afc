/**
 * JSON string literals as `JSON.stringify` writes them (the QuoteJSONString
 * operation of ECMA-262), and a reader for them. The reader is the inverse
 * the round-trip lemma is stated against: it reads back what `JSON.stringify`
 * writes, and refuses every `\u` escape naming a UTF-16 surrogate (D800 to
 * DFFF), including the surrogate pairs RFC 8259, section 7 allows.
 */
module Json {
  import opened Wrappers

  const Backslash: char := '\\'
  const Quote: char := '"'

  function HexDigit(d: nat): char
    requires d < 16
  {
    if d < 10 then ('0' as int + d) as char else ('a' as int + d - 10) as char
  }

  function HexValue(c: char): Option<nat> {
    if '0' <= c <= '9' then Some(c as int - '0' as int)
    else if 'a' <= c <= 'f' then Some(c as int - 'a' as int + 10)
    else if 'A' <= c <= 'F' then Some(c as int - 'A' as int + 10)
    else None
  }

  /** The text `JSON.stringify` writes for one character of a string. */
  function EscapeChar(c: char): string {
    if c == Quote then [Backslash, Quote]
    else if c == Backslash then [Backslash, Backslash]
    else if c as int == 0x08 then [Backslash, 'b']
    else if c as int == 0x09 then [Backslash, 't']
    else if c as int == 0x0A then [Backslash, 'n']
    else if c as int == 0x0C then [Backslash, 'f']
    else if c as int == 0x0D then [Backslash, 'r']
    else if c as int < 0x20 then [Backslash, 'u', '0', '0', HexDigit(c as int / 16), HexDigit(c as int % 16)]
    else [c]
  }

  /** A character `JSON.stringify` writes as itself. */
  predicate Plain(c: char) {
    c != Quote && c != Backslash && c as int >= 0x20
  }

  /** The body of the JSON string literal for `s`, without its enclosing quotes. */
  function Escape(s: string): string {
    if s == [] then [] else EscapeChar(s[0]) + Escape(s[1..])
  }

  /**
   * Escaping never shortens a string, writes at most six characters per
   * character, and leaves a string of plain characters as it is.
   */
  lemma {:induction false} EscapeBounds(s: string)
    ensures |s| <= |Escape(s)| <= 6 * |s|
    ensures (forall i :: 0 <= i < |s| ==> Plain(s[i])) ==> Escape(s) == s
  {
    if s != [] {
      EscapeBounds(s[1..]);
      assert forall i :: 1 <= i < |s| ==> s[1..][i - 1] == s[i];
    }
  }

  /** The JSON string literal for `s`. */
  function Quoted(s: string): string {
    [Quote] + Escape(s) + [Quote]
  }

  /**
   * Reads the escape sequence at the start of `s` (which starts with a
   * backslash): the character it stands for and how many characters it
   * takes. A `\u` escape naming a UTF-16 surrogate is refused.
   */
  function ReadEscape(s: string): (r: Option<(char, nat)>)
    requires s != [] && s[0] == Backslash
    ensures r.Some? ==> 2 <= r.value.1 <= |s|
  {
    if |s| < 2 then None
    else if s[1] == Quote then Some((Quote, 2))
    else if s[1] == Backslash then Some((Backslash, 2))
    else if s[1] == '/' then Some(('/', 2))
    else if s[1] == 'b' then Some((0x08 as char, 2))
    else if s[1] == 't' then Some((0x09 as char, 2))
    else if s[1] == 'n' then Some((0x0A as char, 2))
    else if s[1] == 'f' then Some((0x0C as char, 2))
    else if s[1] == 'r' then Some((0x0D as char, 2))
    else if s[1] == 'u' && |s| >= 6 then
      match (HexValue(s[2]), HexValue(s[3]), HexValue(s[4]), HexValue(s[5]))
      case (Some(a), Some(b), Some(c), Some(d)) =>
        var code := ((a * 16 + b) * 16 + c) * 16 + d;
        if code < 0xD800 then Some((code as char, 6))
        else if code < 0xE000 then None
        else if code < 0x11_0000 then Some((code as char, 6))
        else None
      case _ => None
    else None
  }

  /**
   * Reads a string literal body up to its closing quote: the string it
   * denotes and the text after the quote.
   */
  function ReadStringBody(s: string): (r: Option<(string, string)>)
    ensures r.Some? ==> |r.value.1| < |s|
    decreases |s|
  {
    if s == [] then None
    else if s[0] == Quote then Some(([], s[1..]))
    else if s[0] == Backslash then
      match ReadEscape(s)
      case None => None
      case Some((c, n)) =>
        match ReadStringBody(s[n..])
        case None => None
        case Some((v, rest)) => Some(([c] + v, rest))
    else if s[0] as int < 0x20 then None
    else
      match ReadStringBody(s[1..])
      case None => None
      case Some((v, rest)) => Some(([s[0]] + v, rest))
  }

  /** Every escape `JSON.stringify` writes is read back as its character. */
  lemma ReadEscapeChar(c: char, t: string)
    requires EscapeChar(c) != [c]
    ensures |EscapeChar(c)| >= 2
    ensures ReadEscape(EscapeChar(c) + t) == Some((c, |EscapeChar(c)|))
  {
    var e := EscapeChar(c);
    var s := e + t;
    if c as int < 0x20 && c as int !in {0x08, 0x09, 0x0A, 0x0C, 0x0D} {
      var hi, lo := c as int / 16, c as int % 16;
      assert s[2] == '0' && s[3] == '0' && s[4] == HexDigit(hi) && s[5] == HexDigit(lo);
      assert HexValue(HexDigit(hi)) == Some(hi);
      assert HexValue(HexDigit(lo)) == Some(lo);
      assert ((0 * 16 + 0) * 16 + hi) * 16 + lo == c as int;
    }
  }

  /**
   * Round trip: reading the escaped body of `v` followed by a closing quote
   * gives back `v` and leaves whatever followed the literal.
   */
  lemma {:induction false} ReadEscaped(v: string, rest: string)
    ensures ReadStringBody(Escape(v) + [Quote] + rest) == Some((v, rest))
  {
    var s := Escape(v) + [Quote] + rest;
    if v == [] {
      assert s == [Quote] + rest;
    } else {
      var c, e, tail := v[0], EscapeChar(v[0]), Escape(v[1..]) + [Quote] + rest;
      assert s == e + tail;
      ReadEscaped(v[1..], rest);
      if e == [c] {
        assert c != Quote && c != Backslash && c as int >= 0x20;
        assert s[0] == c && s[1..] == tail;
        assert v == [c] + v[1..];
      } else {
        ReadEscapeChar(c, tail);
        assert s[|e|..] == tail;
        assert v == [c] + v[1..];
      }
    }
  }

  /** The literal `JSON.stringify` writes for a string is read back as that string. */
  lemma QuotedRoundTrip(v: string, rest: string)
    ensures var s := Quoted(v) + rest;
      s[0] == Quote && ReadStringBody(s[1..]) == Some((v, rest))
  {
    var s := Quoted(v) + rest;
    assert s[1..] == Escape(v) + [Quote] + rest;
    ReadEscaped(v, rest);
  }
}
