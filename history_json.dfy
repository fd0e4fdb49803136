/**
 * The stored form of a conversation history: `JSON.stringify` of an array
 * of `{role, content}` objects, and `JSON.parse` of such text.
 *
 * The writer produces exactly what `JSON.stringify` produces for that
 * array (no whitespace, keys in insertion order, the escapes of
 * section 25.5.2.3 of ECMA-262). The reader accepts that canonical text
 * (with every JSON string escape) and answers None for anything else,
 * which is where `JSON.parse` would throw.
 */
module HistoryJson {
  import opened Js

  /** One entry of the prompt list and of the stored history. */
  datatype Message = Message(role: string, content: string)

  // ---------------------------------------------------------------------
  // Writing: JSON.stringify
  // ---------------------------------------------------------------------

  function HexDigit(d: nat): (c: char)
    requires d < 16
  {
    "0123456789abcdef"[d]
  }

  /** How `JSON.stringify` writes one character inside a string literal. */
  function EscapeChar(c: char): string {
    if c == '"' then ['\\', '"']
    else if c == '\\' then ['\\', '\\']
    else if c as int == 0x08 then ['\\', 'b']
    else if c as int == 0x09 then ['\\', 't']
    else if c as int == 0x0A then ['\\', 'n']
    else if c as int == 0x0C then ['\\', 'f']
    else if c as int == 0x0D then ['\\', 'r']
    else if c as int < 0x20 then ['\\', 'u', '0', '0', HexDigit(c as int / 16), HexDigit(c as int % 16)]
    else [c]
  }

  function EscapeString(s: string): string {
    if s == [] then "" else EscapeChar(s[0]) + EscapeString(s[1..])
  }

  function Quote(s: string): string {
    "\"" + EscapeString(s) + "\""
  }

  const RolePrefix: string := "{\"role\":"
  const ContentPrefix: string := ",\"content\":"

  /** One `{"role":…,"content":…}` object. */
  function MessageJson(m: Message): (r: string)
    ensures r != [] && r[0] == '{'
  {
    RolePrefix + Quote(m.role) + ContentPrefix + Quote(m.content) + "}"
  }

  /** The elements of a non-empty array, separated by commas. */
  function ElementsJson(h: seq<Message>): (r: string)
    requires h != []
    ensures r != [] && r[0] == '{'
  {
    if |h| == 1 then MessageJson(h[0])
    else MessageJson(h[0]) + "," + ElementsJson(h[1..])
  }

  /** `JSON.stringify(history)`: an array literal, `[]` exactly for the
      empty history. */
  function StringifyHistory(h: seq<Message>): (r: string)
    ensures 2 <= |r| && r[0] == '[' && r[|r| - 1] == ']'
    ensures r == "[]" <==> h == []
  {
    if h == [] then "[]"
    else "[" + ElementsJson(h) + "]"
  }

  // ---------------------------------------------------------------------
  // Reading: JSON.parse
  // ---------------------------------------------------------------------

  function HexValue(c: char): (d: int)
    ensures -1 <= d < 16
  {
    DigitValue(c, 16)
  }

  /** The value of four hexadecimal digits, or None. */
  function HexQuad(q: string): (r: Option<nat>)
    requires |q| == 4
    ensures r.Some? ==> r.value < 0x1_0000
  {
    if HexValue(q[0]) < 0 || HexValue(q[1]) < 0 || HexValue(q[2]) < 0 || HexValue(q[3]) < 0 then None
    else Some(((HexValue(q[0]) * 16 + HexValue(q[1])) * 16 + HexValue(q[2])) * 16 + HexValue(q[3]))
  }

  /** Reads one character of a string literal, raw or escaped; `s` does
      not start at the closing quote. A `\u` escape of a UTF-16 surrogate
      is refused: a lone surrogate is not a Unicode scalar value. */
  function ParseChar(s: string): (r: Option<(char, string)>)
    requires s != [] && s[0] != '"'
    ensures r.Some? ==> |r.value.1| < |s|
  {
    if s[0] == '\\' then
      if |s| < 2 then None
      else if s[1] == '"' then Some(('"', s[2..]))
      else if s[1] == '\\' then Some(('\\', s[2..]))
      else if s[1] == '/' then Some(('/', s[2..]))
      else if s[1] == 'b' then Some((0x08 as char, s[2..]))
      else if s[1] == 't' then Some((0x09 as char, s[2..]))
      else if s[1] == 'n' then Some((0x0A as char, s[2..]))
      else if s[1] == 'f' then Some((0x0C as char, s[2..]))
      else if s[1] == 'r' then Some((0x0D as char, s[2..]))
      else if s[1] == 'u' && |s| >= 6 then
        match HexQuad(s[2..6])
        case None => None
        case Some(code) =>
          if 0xD800 <= code <= 0xDFFF then None else Some((code as char, s[6..]))
      else None
    else if s[0] as int < 0x20 then None
    else Some((s[0], s[1..]))
  }

  /** Reads the rest of a string literal after its opening quote: the
      decoded text and what follows the closing quote. */
  function ParseStringBody(s: string): (r: Option<(string, string)>)
    ensures r.Some? ==> |r.value.1| < |s|
    decreases |s|
  {
    if s == [] then None
    else if s[0] == '"' then Some(("", s[1..]))
    else
      match ParseChar(s)
      case None => None
      case Some((c, rest)) =>
        match ParseStringBody(rest)
        case None => None
        case Some((t, after)) => Some(([c] + t, after))
  }

  function ParseString(s: string): (r: Option<(string, string)>)
    ensures r.Some? ==> |r.value.1| < |s|
  {
    if s != [] && s[0] == '"' then ParseStringBody(s[1..]) else None
  }

  function ParseMessage(s: string): (r: Option<(Message, string)>)
    ensures r.Some? ==> |r.value.1| < |s|
  {
    if !(RolePrefix <= s) then None
    else
      match ParseString(s[|RolePrefix|..])
      case None => None
      case Some((role, r1)) =>
        if !(ContentPrefix <= r1) then None
        else
          match ParseString(r1[|ContentPrefix|..])
          case None => None
          case Some((content, r2)) =>
            if r2 != [] && r2[0] == '}' then Some((Message(role, content), r2[1..])) else None
  }

  /** Reads one or more comma-separated messages. */
  function ParseMessages(s: string): (r: Option<(seq<Message>, string)>)
    ensures r.Some? ==> r.value.0 != [] && |r.value.1| < |s|
    decreases |s|
  {
    match ParseMessage(s)
    case None => None
    case Some((m, rest)) =>
      if rest != [] && rest[0] == ',' then
        match ParseMessages(rest[1..])
        case None => None
        case Some((ms, after)) => Some(([m] + ms, after))
      else Some(([m], rest))
  }

  /** `JSON.parse(text)` of a stored history; None where it would throw
      or where the text is not in the canonical form written above. */
  function ParseHistory(s: string): (r: Option<seq<Message>>)
    ensures r == Some([]) <==> s == "[]"
    ensures r.Some? ==> s != [] && s[0] == '['
  {
    if s == "[]" then Some([])
    else if s != [] && s[0] == '[' then
      match ParseMessages(s[1..])
      case Some((h, rest)) => if rest == "]" then Some(h) else None
      case None => None
    else None
  }

  // ---------------------------------------------------------------------
  // Round trip
  // ---------------------------------------------------------------------

  lemma HexDigitValue(d: nat)
    requires d < 16
    ensures HexValue(HexDigit(d)) == d
  {
    var digits := "0123456789abcdef";
    assert digits[d] == HexDigit(d);
    if d < 10 {
      assert digits[d] as int == '0' as int + d;
    } else {
      assert digits[d] as int == 'a' as int + d - 10;
    }
  }

  lemma {:induction false} EscapeCharRoundTrip(c: char, rest: string)
    ensures var e := EscapeChar(c) + rest;
      e != [] && e[0] != '"' && ParseChar(e) == Some((c, rest))
  {
    var e := EscapeChar(c) + rest;
    var n := c as int;
    if c == '"' || c == '\\' || n == 0x08 || n == 0x09 || n == 0x0A || n == 0x0C || n == 0x0D {
      assert e[2..] == rest;
    } else if n < 0x20 {
      HexDigitValue(n / 16);
      HexDigitValue(n % 16);
      assert e[2..6] == ['0', '0', HexDigit(n / 16), HexDigit(n % 16)];
      assert HexQuad(e[2..6]) == Some(n);
      assert e[6..] == rest;
    } else {
      assert e[1..] == rest;
    }
  }

  lemma {:induction false} StringBodyRoundTrip(s: string, rest: string)
    ensures ParseStringBody(EscapeString(s) + "\"" + rest) == Some((s, rest))
    decreases |s|
  {
    var e := EscapeString(s) + "\"" + rest;
    if s == [] {
      assert e == "\"" + rest;
    } else {
      var tail := EscapeString(s[1..]) + "\"" + rest;
      assert e == EscapeChar(s[0]) + tail;
      EscapeCharRoundTrip(s[0], tail);
      StringBodyRoundTrip(s[1..], rest);
      assert [s[0]] + s[1..] == s;
    }
  }

  lemma StringRoundTrip(s: string, rest: string)
    ensures ParseString(Quote(s) + rest) == Some((s, rest))
  {
    var e := Quote(s) + rest;
    assert e[1..] == EscapeString(s) + "\"" + rest;
    StringBodyRoundTrip(s, rest);
  }

  lemma PrefixThenRest(p: string, x: string)
    ensures p <= p + x && (p + x)[|p|..] == x
  {
    assert (p + x)[..|p|] == p;
  }

  /** Text written piece by piece is the same text however the pieces are
      grouped. */
  lemma Regroup(p: string, q: string, r: string, t: string, u: string, v: string)
    ensures p + q + r + t + u + v == p + (q + (r + (t + (u + v))))
  {
  }

  lemma Regroup3(q: string, r: string, u: string, v: string)
    ensures q + r + u + v == q + (r + (u + v))
  {
  }

  /** How `ParseMessage` reads an object whose two string literals read
      as `role` and `content`. */
  lemma ParseMessageOf(a: string, b: string, role: string, content: string, rest: string)
    requires ParseString(a) == Some((role, ContentPrefix + b))
    requires ParseString(b) == Some((content, "}" + rest))
    ensures ParseMessage(RolePrefix + a) == Some((Message(role, content), rest))
  {
    PrefixThenRest(RolePrefix, a);
    PrefixThenRest(ContentPrefix, b);
    assert ("}" + rest)[1..] == rest;
  }

  lemma MessageRoundTrip(m: Message, rest: string)
    ensures ParseMessage(MessageJson(m) + rest) == Some((m, rest))
  {
    var b := Quote(m.content) + ("}" + rest);
    var a := Quote(m.role) + (ContentPrefix + b);
    StringRoundTrip(m.role, ContentPrefix + b);
    StringRoundTrip(m.content, "}" + rest);
    ParseMessageOf(a, b, m.role, m.content, rest);
    Regroup(RolePrefix, Quote(m.role), ContentPrefix, Quote(m.content), "}", rest);
  }

  /** How `ParseMessages` stops at the last message. */
  lemma ParseMessagesOne(s: string, m: Message, rest: string)
    requires ParseMessage(s) == Some((m, rest))
    requires rest == [] || rest[0] != ','
    ensures ParseMessages(s) == Some(([m], rest))
  {
  }

  /** How `ParseMessages` continues after a comma. */
  lemma ParseMessagesCons(s: string, m: Message, more: string, ms: seq<Message>, rest: string)
    requires ParseMessage(s) == Some((m, "," + more))
    requires ParseMessages(more) == Some((ms, rest))
    ensures ParseMessages(s) == Some(([m] + ms, rest))
  {
    assert ("," + more)[1..] == more;
  }

  lemma {:induction false} ElementsRoundTrip(h: seq<Message>, rest: string)
    requires h != []
    requires rest == [] || rest[0] != ','
    ensures ParseMessages(ElementsJson(h) + rest) == Some((h, rest))
    decreases |h|
  {
    if |h| == 1 {
      MessageRoundTrip(h[0], rest);
      ParseMessagesOne(MessageJson(h[0]) + rest, h[0], rest);
      assert [h[0]] == h;
    } else {
      ElementsRoundTrip(h[1..], rest);
      ElementsStep(h, rest);
    }
  }

  /** If the elements after the first read back, so do all of them. */
  lemma ElementsStep(h: seq<Message>, rest: string)
    requires |h| > 1
    requires ParseMessages(ElementsJson(h[1..]) + rest) == Some((h[1..], rest))
    ensures ParseMessages(ElementsJson(h) + rest) == Some((h, rest))
  {
    var first, others := h[0], h[1..];
    assert [first] + others == h;
    var more := ElementsJson(others) + rest;
    ElementsCons(h, rest);
    MessageRoundTrip(first, "," + more);
    ParseMessagesCons(MessageJson(first) + ("," + more), first, more, others, rest);
  }

  /** The text of several elements is the first one, a comma, and the
      text of the others. */
  lemma ElementsCons(h: seq<Message>, rest: string)
    requires |h| > 1
    ensures ElementsJson(h) + rest == MessageJson(h[0]) + ("," + (ElementsJson(h[1..]) + rest))
  {
    Regroup3(MessageJson(h[0]), ",", ElementsJson(h[1..]), rest);
  }

  /** What the worker writes back under a history key reads back as the
      same history: `JSON.parse(JSON.stringify(h))` equals `h`. */
  lemma HistoryRoundTrip(h: seq<Message>)
    ensures ParseHistory(StringifyHistory(h)) == Some(h)
  {
    if h != [] {
      ElementsRoundTrip(h, "]");
      ParseBracketed(StringifyHistory(h), ElementsJson(h), h);
    }
  }

  /** A bracketed text whose inside reads as the messages `h` followed by
      the closing bracket reads as `h`. */
  lemma ParseBracketed(s: string, inside: string, h: seq<Message>)
    requires inside != [] && s == "[" + inside + "]"
    requires ParseMessages(inside + "]") == Some((h, "]"))
    ensures ParseHistory(s) == Some(h)
  {
    assert s[1..] == inside + "]";
  }
}
