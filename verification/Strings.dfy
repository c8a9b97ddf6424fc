/**
 * The JavaScript string built-ins the label code relies on: `Array.join`,
 * `String.toUpperCase` (as a per-character map), `String.replace` with a
 * one-character pattern, the whitespace class `\s`, and the decimal rendering
 * of integers.  Each comes with the parse or distribution law that the rest
 * of the model uses.
 */
module Strings {
  import opened Wrappers

  // ---------------------------------------------------------------- digits

  predicate IsDigit(c: char) {
    '0' <= c <= '9'
  }

  predicate AllDigits(s: string) {
    forall i :: 0 <= i < |s| ==> IsDigit(s[i])
  }

  function DigitChar(d: nat): (c: char)
    requires d < 10
    ensures IsDigit(c)
  {
    ('0' as int + d) as char
  }

  function DigitValue(c: char): (d: nat)
    requires IsDigit(c)
    ensures d < 10 && DigitChar(d) == c
  {
    c as int - '0' as int
  }

  /** Decimal rendering of a natural number, most significant digit first, no leading zeros. */
  function NatToString(n: nat): string
    decreases n
  {
    if n < 10 then [DigitChar(n)] else NatToString(n / 10) + [DigitChar(n % 10)]
  }

  /** The rendering is a non-empty run of digits without a leading zero (except "0" itself). */
  lemma {:induction false} NatToStringDigits(n: nat)
    ensures |NatToString(n)| > 0 && AllDigits(NatToString(n))
    ensures n > 0 ==> NatToString(n)[0] != '0'
    decreases n
  {
    if n >= 10 {
      NatToStringDigits(n / 10);
    }
  }

  /** Value of a string of decimal digits (the empty string reads as 0; callers check the digits). */
  function ParseNat(s: string): nat
  {
    if s == [] then 0
    else ParseNat(s[..|s| - 1]) * 10 + (if IsDigit(s[|s| - 1]) then DigitValue(s[|s| - 1]) else 0)
  }

  lemma {:induction false} ParseNatToString(n: nat)
    ensures ParseNat(NatToString(n)) == n
    decreases n
  {
    NatToStringDigits(n);
    var s := NatToString(n);
    if n >= 10 {
      NatToStringDigits(n / 10);
      ParseNatToString(n / 10);
      assert s[..|s| - 1] == NatToString(n / 10);
    }
  }

  /** JavaScript's `String(i)` for an integer-valued number. */
  function IntToString(i: int): string {
    if i < 0 then "-" + NatToString(-i) else NatToString(i)
  }

  /** Reads an optionally signed run of decimal digits. */
  function ParseInt(s: string): Option<int> {
    if |s| > 0 && s[0] == '-' then
      (if |s| > 1 && AllDigits(s[1..]) then Some(-(ParseNat(s[1..]) as int)) else None)
    else if |s| > 0 && AllDigits(s) then Some(ParseNat(s))
    else None
  }

  lemma IntToStringRoundTrip(i: int)
    ensures ParseInt(IntToString(i)) == Some(i)
  {
    if i < 0 {
      NegativeReadsBack(-i);
    } else {
      NaturalReadsBack(i);
    }
  }

  lemma NaturalReadsBack(n: nat)
    ensures ParseInt(NatToString(n)) == Some(n)
  {
    NatToStringDigits(n);
    ParseNatToString(n);
    assert IsDigit(NatToString(n)[0]);
  }

  lemma NegativeReadsBack(n: nat)
    ensures ParseInt("-" + NatToString(n)) == Some(-(n as int))
  {
    NatToStringDigits(n);
    ParseNatToString(n);
    var s := "-" + NatToString(n);
    assert s[0] == '-' && s[1..] == NatToString(n);
  }

  // ---------------------------------------------------------------- join

  /** `parts.join(sep)`: the parts with `sep` between consecutive ones. */
  function Join(parts: seq<string>, sep: string): string
  {
    if |parts| == 0 then ""
    else if |parts| == 1 then parts[0]
    else parts[0] + sep + Join(parts[1..], sep)
  }

  /** Joining one more part at the end adds exactly one separator before it. */
  lemma {:induction false} JoinSnoc(parts: seq<string>, p: string, sep: string)
    requires |parts| > 0
    ensures Join(parts + [p], sep) == Join(parts, sep) + sep + p
    decreases |parts|
  {
    if |parts| > 1 {
      assert (parts + [p])[1..] == parts[1..] + [p];
      JoinSnoc(parts[1..], p, sep);
    }
  }

  // ---------------------------------------------------------------- upper case

  /**
   * `toUpperCase` on one character: ASCII a-z and the Latin-1 lower-case
   * letters U+00E0..U+00FE (except the division sign U+00F7) move down by
   * 0x20; every other character is left as it is.
   */
  function UpperChar(c: char): (u: char)
    ensures 'a' <= c <= 'z' ==> 'A' <= u <= 'Z'
    ensures !('a' <= c <= 'z') && !('\U{E0}' <= c <= '\U{FE}') ==> u == c
  {
    if 'a' <= c <= 'z' then (c as int - 32) as char
    else if '\U{E0}' <= c <= '\U{FE}' && c != '\U{F7}' then (c as int - 32) as char
    else c
  }

  function Upper(s: string): (r: string)
    ensures |r| == |s|
    ensures forall i :: 0 <= i < |s| ==> r[i] == UpperChar(s[i])
  {
    seq(|s|, i requires 0 <= i < |s| => UpperChar(s[i]))
  }

  lemma UpperAppend(a: string, b: string)
    ensures Upper(a + b) == Upper(a) + Upper(b)
  {
  }

  /** Upper-casing a joined list is joining the upper-cased parts with the upper-cased separator. */
  lemma {:induction false} UpperJoin(parts: seq<string>, sep: string)
    ensures Upper(Join(parts, sep)) == Join(MapUpper(parts), Upper(sep))
    decreases |parts|
  {
    if |parts| > 1 {
      UpperJoin(parts[1..], sep);
      assert MapUpper(parts)[1..] == MapUpper(parts[1..]);
      UpperAppend(parts[0] + sep, Join(parts[1..], sep));
      UpperAppend(parts[0], sep);
    }
  }

  function MapUpper(parts: seq<string>): (r: seq<string>)
    ensures |r| == |parts|
    ensures forall i :: 0 <= i < |parts| ==> r[i] == Upper(parts[i])
  {
    seq(|parts|, i requires 0 <= i < |parts| => Upper(parts[i]))
  }

  // ---------------------------------------------------------------- replace

  /** `s.replace(from, to)` with a one-character string pattern: only the first occurrence changes. */
  function ReplaceFirst(s: string, from: char, to: char): string
  {
    if s == [] then []
    else if s[0] == from then [to] + s[1..]
    else [s[0]] + ReplaceFirst(s[1..], from, to)
  }

  lemma {:induction false} ReplaceFirstAt(a: string, b: string, from: char, to: char)
    requires from !in a
    ensures ReplaceFirst(a + [from] + b, from, to) == a + [to] + b
    decreases |a|
  {
    if a != [] {
      assert (a + [from] + b)[1..] == a[1..] + [from] + b;
      ReplaceFirstAt(a[1..], b, from, to);
    }
  }

  // ---------------------------------------------------------------- whitespace

  /** Membership in the regular-expression class `\s` (white space and line terminators). */
  predicate IsSpace(c: char) {
    c == ' ' || c == '\t' || c == '\n' || c == '\r' || c == '\U{0B}' || c == '\U{0C}'
    || c == '\U{A0}' || c == '\U{1680}' || ('\U{2000}' <= c <= '\U{200A}')
    || c == '\U{2028}' || c == '\U{2029}' || c == '\U{202F}' || c == '\U{205F}'
    || c == '\U{3000}' || c == '\U{FEFF}'
  }
}
