/**
 * The JavaScript built-ins that the worker and the client page rely on,
 * written out so that the rest of the model can use them with their
 * JavaScript meaning: truthiness of optional strings, whitespace and
 * `trim`, UTF-16 `length`, `lastIndexOf` and `substring`, integer
 * `toString` and `parseInt`.
 *
 * Strings are sequences of Unicode scalar values (Dafny `char`); where
 * JavaScript counts UTF-16 code units, that is stated explicitly.
 */
module Js {

  datatype Option<+T> = None | Some(value: T)

  /** A value read from the store or from a request body, as `!x` sees it:
      `undefined`, `null` and the empty string are falsy. */
  predicate Truthy(s: Option<string>) {
    s.Some? && s.value != ""
  }

  /** Looks a key up the way a key-value `get` answers: the value, or null. */
  function Lookup(m: map<string, string>, key: string): (r: Option<string>)
    ensures r.Some? <==> key in m
    ensures r.Some? ==> r.value == m[key]
  {
    if key in m then Some(m[key]) else None
  }

  /** A JavaScript number as the core uses it: an integer, or NaN. */
  datatype Num = Int(v: int) | NaN

  /** `x + 1` on a JavaScript number. */
  function Succ(x: Num): Num {
    match x
    case Int(v) => Int(v + 1)
    case NaN => NaN
  }

  // ---------------------------------------------------------------------
  // Whitespace and trim
  // ---------------------------------------------------------------------

  /** The WhiteSpace and LineTerminator code points of ECMAScript
      (sections 12.2 and 12.3 of ECMA-262): the characters `trim` removes
      and `parseInt` skips. */
  predicate IsWhitespace(c: char) {
    var n := c as int;
    n == 0x09 || n == 0x0A || n == 0x0B || n == 0x0C || n == 0x0D
    || n == 0x20 || n == 0xA0 || n == 0x1680
    || (0x2000 <= n <= 0x200A)
    || n == 0x2028 || n == 0x2029 || n == 0x202F || n == 0x205F
    || n == 0x3000 || n == 0xFEFF
  }

  /** Every character of `s` is whitespace (the empty string included). */
  predicate IsBlank(s: string) {
    forall i :: 0 <= i < |s| ==> IsWhitespace(s[i])
  }

  /** `String.prototype.trimStart`: drops the leading whitespace. */
  function TrimStart(s: string): (r: string)
    ensures |r| <= |s| && r == s[|s| - |r|..]
    ensures IsBlank(s[..|s| - |r|])
    ensures r != [] ==> !IsWhitespace(r[0])
  {
    if s != [] && IsWhitespace(s[0]) then TrimStart(s[1..]) else s
  }

  /** `String.prototype.trimEnd`: drops the trailing whitespace. */
  function TrimEnd(s: string): (r: string)
    ensures |r| <= |s| && r == s[..|r|]
    ensures IsBlank(s[|r|..])
    ensures r != [] ==> !IsWhitespace(r[|r| - 1])
  {
    if s != [] && IsWhitespace(s[|s| - 1]) then TrimEnd(s[..|s| - 1]) else s
  }

  /** `String.prototype.trim`. */
  function Trim(s: string): string {
    TrimEnd(TrimStart(s))
  }

  /** `r` is the part of `s` from position `k`, with only whitespace
      before and after it. */
  predicate MiddleOf(s: string, k: int, r: string) {
    0 <= k && k + |r| <= |s| && r == s[k..k + |r|] && IsBlank(s[..k]) && IsBlank(s[k + |r|..])
  }

  /** `trim` leaves a middle part of the string, with only whitespace on
      either side of it. */
  lemma {:induction false} TrimMiddle(s: string)
    ensures MiddleOf(s, |s| - |TrimStart(s)|, Trim(s))
  {
    var t := TrimStart(s);
    MiddlePart(s, t, TrimEnd(t));
  }

  /** What `trim` leaves neither starts nor ends with whitespace. */
  lemma {:induction false} TrimEnds(s: string)
    ensures Trim(s) != [] ==> !IsWhitespace(Trim(s)[0]) && !IsWhitespace(Trim(s)[|Trim(s)| - 1])
  {
    var t := TrimStart(s);
    var r := TrimEnd(t);
    if r != [] {
      assert r[0] == t[0];
    }
  }

  /** Dropping a blank prefix and then a blank suffix leaves a middle part
      of the string. */
  lemma MiddlePart(s: string, t: string, r: string)
    requires |t| <= |s| && t == s[|s| - |t|..] && IsBlank(s[..|s| - |t|])
    requires |r| <= |t| && r == t[..|r|] && IsBlank(t[|r|..])
    ensures MiddleOf(s, |s| - |t|, r)
  {
    var k := |s| - |t|;
    assert s[k + |r|..] == t[|r|..];
  }

  /** `s.trim().length === 0` holds exactly for the blank strings. */
  lemma TrimEmptyIffBlank(s: string)
    ensures |Trim(s)| == 0 <==> IsBlank(s)
  {
    var t := TrimStart(s);
    var k := |s| - |t|;
    if |Trim(s)| == 0 {
      assert IsBlank(t[0..]);
      forall i | 0 <= i < |s| ensures IsWhitespace(s[i]) {
        if i < k {
          assert s[i] == s[..k][i];
        }
      }
    }
  }

  // ---------------------------------------------------------------------
  // Length in UTF-16 code units
  // ---------------------------------------------------------------------

  /** How many UTF-16 code units encode `c`: two above the Basic
      Multilingual Plane, one otherwise. */
  function CodeUnits(c: char): nat {
    if c as int >= 0x1_0000 then 2 else 1
  }

  /** `s.length` in JavaScript, which counts UTF-16 code units. */
  function Utf16Length(s: string): (n: nat)
    ensures |s| <= n <= 2 * |s|
    ensures (forall i :: 0 <= i < |s| ==> s[i] as int < 0x1_0000) ==> n == |s|
  {
    if s == [] then 0 else CodeUnits(s[0]) + Utf16Length(s[1..])
  }

  // ---------------------------------------------------------------------
  // lastIndexOf and substring
  // ---------------------------------------------------------------------

  /** `s.lastIndexOf(c)` for a one-character needle: the last position of
      `c`, or -1 when `c` does not occur. */
  function LastIndexOf(s: string, c: char): (i: int)
    ensures -1 <= i < |s|
    ensures i == -1 <==> c !in s
    ensures 0 <= i ==> s[i] == c && c !in s[i + 1..]
  {
    if s == [] then -1
    else if s[|s| - 1] == c then |s| - 1
    else
      var i := LastIndexOf(s[..|s| - 1], c);
      assert s[i + 1..] == s[..|s| - 1][i + 1..] + [s[|s| - 1]];
      i
  }

  /** `s.substring(start)` with one argument: `start` is clamped to
      `[0, s.length]`, so a negative start yields the whole string. */
  function SubstringFrom(s: string, start: int): (r: string)
    ensures start <= 0 ==> r == s
    ensures 0 <= start <= |s| ==> r == s[start..]
    ensures |s| < start ==> r == ""
  {
    if start <= 0 then s else if start >= |s| then "" else s[start..]
  }

  // ---------------------------------------------------------------------
  // Integer to string and parseInt
  // ---------------------------------------------------------------------

  /** The value of a digit character in base 10 or 16, or -1. */
  function DigitValue(c: char, radix: nat): (d: int)
    requires radix == 10 || radix == 16
    ensures -1 <= d < radix
  {
    if '0' <= c <= '9' then c as int - '0' as int
    else if radix == 16 && 'a' <= c <= 'f' then c as int - 'a' as int + 10
    else if radix == 16 && 'A' <= c <= 'F' then c as int - 'A' as int + 10
    else -1
  }

  /** Every character of `s` is a digit in base `radix`. */
  predicate AllDigits(s: string, radix: nat)
    requires radix == 10 || radix == 16
  {
    s == [] || (DigitValue(s[0], radix) >= 0 && AllDigits(s[1..], radix))
  }

  function DecimalDigit(d: nat): (c: char)
    requires d < 10
    ensures DigitValue(c, 10) == d
  {
    (d + '0' as int) as char
  }

  /** `n.toString()` for a non-negative integer: shortest decimal form. */
  function NatToDecimal(n: nat): (s: string)
    ensures |s| >= 1 && AllDigits(s, 10)
    ensures s[0] == '0' ==> n == 0 && s == "0"
  {
    if n < 10 then [DecimalDigit(n)]
    else
      var s := NatToDecimal(n / 10) + [DecimalDigit(n % 10)];
      AppendDigit(NatToDecimal(n / 10), DecimalDigit(n % 10), 10);
      s
  }

  /** `i.toString()` for an integer. */
  function IntToString(i: int): string {
    if i < 0 then "-" + NatToDecimal(-i) else NatToDecimal(i)
  }

  /** `String(x)` for a JavaScript number of the core. */
  function NumToString(x: Num): string {
    match x
    case Int(v) => IntToString(v)
    case NaN => "NaN"
  }

  /** `parseInt(s)` with no radix (section 19.2.5 of ECMA-262): skip
      leading whitespace, then read the number that follows. */
  function ParseInt(s: string): Num {
    if s != [] && IsWhitespace(s[0]) then ParseInt(s[1..]) else ParseNumber(s)
  }

  /** `parseInt` reads the number after the leading whitespace, and finds
      none in blank text. */
  lemma {:induction false} ParseIntSkipsWhitespace(s: string)
    ensures ParseInt(s) == ParseNumber(TrimStart(s))
  {
    if s != [] && IsWhitespace(s[0]) {
      assert TrimStart(s) == TrimStart(s[1..]);
      ParseIntSkipsWhitespace(s[1..]);
    } else {
      assert TrimStart(s) == s;
    }
  }

  /** Blank text holds no number: `parseInt` of it is NaN. */
  lemma {:induction false} ParseIntOfBlank(s: string)
    requires IsBlank(s)
    ensures ParseInt(s) == NaN
  {
    if s != [] {
      assert IsWhitespace(s[0]);
      assert IsBlank(s[1..]) by {
        forall i | 0 <= i < |s| - 1 ensures IsWhitespace(s[1..][i]) {
          assert s[1..][i] == s[i + 1];
        }
      }
      ParseIntOfBlank(s[1..]);
    }
  }

  /** The rest of `parseInt` once whitespace is skipped: an optional sign,
      then the magnitude. */
  function ParseNumber(t: string): Num {
    if t != [] && t[0] == '-' then Negate(ParseMagnitude(t[1..]))
    else if t != [] && t[0] == '+' then ParseMagnitude(t[1..])
    else ParseMagnitude(t)
  }

  function Negate(x: Num): Num {
    match x
    case Int(v) => Int(-v)
    case NaN => NaN
  }

  /** Base 16 after a `0x`/`0X` prefix, base 10 otherwise. */
  function ParseMagnitude(u: string): Num {
    if |u| >= 2 && u[0] == '0' && (u[1] == 'x' || u[1] == 'X') then ParseDigits(u[2..], 16)
    else ParseDigits(u, 10)
  }

  /** The value of the longest run of digits at the start of `w`; no
      digits at all gives NaN. JavaScript's loss of precision above 2^53 is
      not modelled. */
  function ParseDigits(w: string, radix: nat): Num
    requires radix == 10 || radix == 16
  {
    if w == [] || DigitValue(w[0], radix) < 0 then NaN else Int(ReadDigits(w, radix, 0))
  }

  /** Reads digits from the left into the accumulator `acc` until the
      first character that is not a digit. */
  function ReadDigits(w: string, radix: nat, acc: nat): nat
    requires radix == 10 || radix == 16
  {
    if w == [] || DigitValue(w[0], radix) < 0 then acc
    else ReadDigits(w[1..], radix, acc * radix + DigitValue(w[0], radix))
  }

  lemma {:induction false} AppendDigit(s: string, c: char, radix: nat)
    requires radix == 10 || radix == 16
    requires AllDigits(s, radix) && DigitValue(c, radix) >= 0
    ensures AllDigits(s + [c], radix)
  {
    if s != [] {
      assert (s + [c])[1..] == s[1..] + [c];
      AppendDigit(s[1..], c, radix);
    }
  }

  /** One more decimal digit at the end multiplies what was read by ten
      and adds the digit. */
  lemma {:induction false} ReadDigitsSnoc(s: string, c: char, acc: nat)
    requires AllDigits(s, 10) && DigitValue(c, 10) >= 0
    ensures ReadDigits(s + [c], 10, acc) == ReadDigits(s, 10, acc) * 10 + DigitValue(c, 10)
  {
    if s == [] {
      assert [] + [c] == [c];
    } else {
      var next := acc * 10 + DigitValue(s[0], 10);
      assert (s + [c])[1..] == s[1..] + [c];
      ReadDigitsSnoc(s[1..], c, next);
    }
  }

  /** Reading back the digits `toString` wrote gives the number. */
  lemma {:induction false} ReadDecimal(n: nat)
    ensures ReadDigits(NatToDecimal(n), 10, 0) == n
  {
    if n >= 10 {
      ReadDecimal(n / 10);
      ReadDigitsSnoc(NatToDecimal(n / 10), DecimalDigit(n % 10), 0);
    } else {
      assert NatToDecimal(n)[1..] == [];
    }
  }

  /** The decimal form of `m` reads back as `m`, unsigned or after a minus
      sign. */
  lemma ParseNumberOfDecimal(m: nat)
    ensures ParseNumber(NatToDecimal(m)) == Int(m)
    ensures ParseNumber("-" + NatToDecimal(m)) == Int(0 - m)
  {
    var d := NatToDecimal(m);
    ReadDecimal(m);
    assert DigitValue(d[0], 10) >= 0;
    assert !(|d| >= 2 && d[0] == '0');
    assert ("-" + d)[0] == '-' && ("-" + d)[1..] == d;
  }

  /** Reading back what `toString` wrote: `parseInt(String(i)) === i`. */
  lemma ParseIntOfIntToString(i: int)
    ensures ParseInt(IntToString(i)) == Int(i)
  {
    var m: nat := if i < 0 then -i else i;
    var d := NatToDecimal(m);
    ParseNumberOfDecimal(m);
    var t := IntToString(i);
    if i < 0 {
      assert t[0] == '-';
    } else {
      assert DigitValue(d[0], 10) >= 0;
    }
  }

  /** The same round trip for every number the core stores, NaN included. */
  lemma ParseIntOfNumToString(x: Num)
    ensures ParseInt(NumToString(x)) == x
  {
    match x
    case Int(v) => ParseIntOfIntToString(v);
    case NaN =>
  }
}
