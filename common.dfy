/** Shared building blocks: optional values and results, the string helpers the
    engine takes from Kotlin, Guava and the JDK, and decimal conversion. */
module Common {

  datatype Option<+T> = None | Some(value: T) {
    function GetOr(default: T): T {
      match this
      case Some(v) => v
      case None => default
    }
  }

  /** An operation that either yields a value or fails with an exception message. */
  datatype Result<+T> = Ok(value: T) | Err(message: string)

  type byte = x: int | 0 <= x < 256

  // ---------------------------------------------------------------------------
  // Characters and strings

  predicate IsUpper(c: char) { 'A' <= c <= 'Z' }

  predicate IsAsciiLetterOrDigit(c: char) {
    ('a' <= c <= 'z') || IsUpper(c) || ('0' <= c <= '9')
  }

  /** Lower-casing of one character (ASCII letters only). */
  function LowerChar(c: char): (r: char)
    ensures !IsUpper(r)
    ensures IsUpper(c) ==> r as int == c as int + 32
    ensures !IsUpper(c) ==> r == c
  {
    if IsUpper(c) then (c as int + 32) as char else c
  }

  /** `String.lowercase()` over ASCII letters. */
  function Lower(s: string): (r: string)
    ensures |r| == |s|
    ensures forall i :: 0 <= i < |s| ==> r[i] == LowerChar(s[i])
  {
    if s == [] then [] else [LowerChar(s[0])] + Lower(s[1..])
  }

  lemma LowerIdempotent(s: string)
    ensures Lower(Lower(s)) == Lower(s)
  {
  }

  /** `String.equalsIgnoreCase` / Kotlin `equals(ignoreCase = true)` over ASCII letters. */
  predicate EqualsIgnoreCase(a: string, b: string) {
    Lower(a) == Lower(b)
  }

  predicate StartsWith(s: string, prefix: string) {
    |prefix| <= |s| && s[..|prefix|] == prefix
  }

  predicate EndsWith(s: string, suffix: string) {
    |suffix| <= |s| && s[|s| - |suffix|..] == suffix
  }

  /** Kotlin's `Char.isWhitespace` on the JVM, the test `isBlank` applies: Java's
      whitespace controls (tab to carriage return and the four separators U+001C..U+001F)
      together with every Unicode space, line and paragraph separator. */
  predicate IsWhitespace(c: char) {
    ('\t' <= c <= '\r') || ('\U{1C}' <= c <= ' ') ||
    c == '\U{A0}' || c == '\U{1680}' || ('\U{2000}' <= c <= '\U{200A}') ||
    c == '\U{2028}' || c == '\U{2029}' || c == '\U{202F}' || c == '\U{205F}' || c == '\U{3000}'
  }

  /** Kotlin `isBlank`: empty or whitespace only. */
  predicate IsBlank(s: string) {
    forall i :: 0 <= i < |s| ==> IsWhitespace(s[i])
  }

  /** Kotlin `isNullOrBlank`. */
  predicate IsNullOrBlank(s: Option<string>) {
    s.None? || IsBlank(s.value)
  }

  /** Guava `Strings.isNullOrEmpty`. */
  predicate IsNullOrEmpty(s: Option<string>) {
    s.None? || s.value == ""
  }

  /** Every occurrence of character `c` in `s` replaced by `repl` (`String.replace`). */
  function ReplaceChar(s: string, c: char, repl: string): (r: string)
    ensures c !in repl ==> c !in r
    ensures c !in s ==> r == s
  {
    if s == [] then [] else (if s[0] == c then repl else [s[0]]) + ReplaceChar(s[1..], c, repl)
  }

  /** `joinToString(sep)` / `String.join(sep, parts)`. */
  function Join(sep: string, parts: seq<string>): string {
    if parts == [] then []
    else if |parts| == 1 then parts[0]
    else parts[0] + sep + Join(sep, parts[1..])
  }

  /** Number of occurrences of `c` in `s`. */
  function CountChar(s: string, c: char): (n: nat)
    ensures n <= |s|
    ensures n == 0 <==> c !in s
  {
    if s == [] then 0 else (if s[0] == c then 1 else 0) + CountChar(s[1..], c)
  }

  /** The count is the character's multiplicity in the string. */
  lemma {:induction false} CountCharIsMultiplicity(s: string, c: char)
    ensures CountChar(s, c) == multiset(s)[c]
  {
    if s != [] {
      assert s == [s[0]] + s[1..];
      CountCharIsMultiplicity(s[1..], c);
    }
  }

  lemma CountCharAppend(a: string, b: string, c: char)
    ensures CountChar(a + b, c) == CountChar(a, c) + CountChar(b, c)
  {
    if a != [] {
      assert (a + b)[0] == a[0] && (a + b)[1..] == a[1..] + b;
      CountCharAppend(a[1..], b, c);
    } else {
      assert a + b == b;
    }
  }

  lemma CountCharConcat3(a: string, b: string, d: string, c: char)
    ensures CountChar(a + b + d, c) == CountChar(a, c) + CountChar(b, c) + CountChar(d, c)
  {
    CountCharAppend(a, b, c);
    CountCharAppend(a + b, d, c);
  }

  lemma CountCharConcat4(a: string, b: string, d: string, f: string, c: char)
    ensures CountChar(a + b + d + f, c) == CountChar(a, c) + CountChar(b, c) + CountChar(d, c) + CountChar(f, c)
  {
    CountCharConcat3(a, b, d, c);
    CountCharAppend(a + b + d, f, c);
  }

  // ---------------------------------------------------------------------------
  // Decimal numbers (`Int.toString`, `String.toInt`)

  predicate IsDigit(c: char) { '0' <= c <= '9' }

  function DigitChar(d: nat): (c: char)
    requires d < 10
    ensures IsDigit(c) && c as int - '0' as int == d
  {
    (d + '0' as int) as char
  }

  function DigitValue(c: char): (d: nat)
    requires IsDigit(c)
    ensures d < 10
  {
    c as int - '0' as int
  }

  /** Decimal digits of a natural number, most significant first, no leading zero. */
  function NatToString(n: nat): (s: string)
    ensures |s| >= 1
    ensures forall i :: 0 <= i < |s| ==> IsDigit(s[i])
    ensures |s| > 1 ==> s[0] != '0'
    decreases n
  {
    if n < 10 then [DigitChar(n)] else NatToString(n / 10) + [DigitChar(n % 10)]
  }

  function IntToString(i: int): string {
    if i < 0 then "-" + NatToString(-i) else NatToString(i)
  }

  /** The value of a string of decimal digits. */
  function DigitsValue(s: string): nat
    requires forall i :: 0 <= i < |s| ==> IsDigit(s[i])
  {
    if s == [] then 0 else DigitsValue(s[..|s| - 1]) * 10 + DigitValue(s[|s| - 1])
  }

  predicate AllDigits(s: string) {
    forall i :: 0 <= i < |s| ==> IsDigit(s[i])
  }

  const INT_MIN: int := -0x8000_0000
  const INT_MAX: int := 0x7FFF_FFFF

  predicate IsInt32(i: int) { INT_MIN <= i <= INT_MAX }

  /** `String.toInt()`: an optional sign and at least one digit, within the 32-bit range;
      anything else raises `NumberFormatException`, here `None`. */
  function ParseInt(s: string): (r: Option<int>)
    ensures r.Some? ==> IsInt32(r.value)
  {
    if s == [] then None
    else
      var neg := s[0] == '-';
      var digits := if s[0] == '-' || s[0] == '+' then s[1..] else s;
      if digits == [] || !AllDigits(digits) then None
      else
        var v: int := if neg then -(DigitsValue(digits) as int) else DigitsValue(digits);
        if IsInt32(v) then Some(v) else None
  }

  lemma {:induction false} DigitsValueOfNatToString(n: nat)
    ensures DigitsValue(NatToString(n)) == n
    decreases n
  {
    var s := NatToString(n);
    if n >= 10 {
      DigitsValueOfNatToString(n / 10);
      assert s[..|s| - 1] == NatToString(n / 10);
    }
  }

  /** Parsing what `Int.toString` printed gives the number back. */
  lemma ParseIntOfIntToString(i: int)
    requires IsInt32(i)
    ensures ParseInt(IntToString(i)) == Some(i)
  {
    if i < 0 {
      ParseNegative(i);
    } else {
      ParseNonNegative(i);
    }
  }

  lemma ParseNegative(i: int)
    requires INT_MIN <= i < 0
    ensures ParseInt(IntToString(i)) == Some(i)
  {
    var digits := NatToString(-i);
    DigitsValueOfNatToString(-i);
    var s := "-" + digits;
    assert s[0] == '-' && s[1..] == digits;
    assert AllDigits(digits);
  }

  lemma ParseNonNegative(i: int)
    requires 0 <= i <= INT_MAX
    ensures ParseInt(IntToString(i)) == Some(i)
  {
    var s := NatToString(i);
    DigitsValueOfNatToString(i);
    assert IsDigit(s[0]);
    assert AllDigits(s);
  }

  // ---------------------------------------------------------------------------
  // UTF-8 (`Buffer.buffer(String)` encodes the string as UTF-8)

  function Utf8Char(c: char): (bs: seq<byte>)
    ensures 1 <= |bs| <= 4
    ensures (c as int < 0x80) <==> |bs| == 1
  {
    var n := c as int;
    if n < 0x80 then [n]
    else if n < 0x800 then [0xC0 + n / 64, 0x80 + n % 64]
    else if n < 0x10000 then [0xE0 + n / 4096, 0x80 + (n / 64) % 64, 0x80 + n % 64]
    else [0xF0 + n / 262144, 0x80 + (n / 4096) % 64, 0x80 + (n / 64) % 64, 0x80 + n % 64]
  }

  function Utf8(s: string): (bs: seq<byte>)
    ensures |bs| >= |s|
    ensures (forall i :: 0 <= i < |s| ==> s[i] as int < 0x80) ==> |bs| == |s|
    ensures |bs| == 0 <==> s == []
  {
    if s == [] then [] else Utf8Char(s[0]) + Utf8(s[1..])
  }
}
