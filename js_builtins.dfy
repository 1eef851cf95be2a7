/**
 * The few JavaScript built-ins whose exact behaviour the extension's decisions
 * depend on: `substr(0, n)`, `toLowerCase()`, the regular-expression class `\s`,
 * the decimal text of an integer (as produced by `"load:" + status`), and the
 * Number values that a `>` comparison can meet (including NaN).
 */
module JsBuiltins {

  /** `s.substr(0, n)`: the first n characters of s, or all of s when it is shorter. */
  function Substr0(s: string, n: nat): (r: string)
    ensures |r| == if n <= |s| then n else |s|
    ensures r <= s
  {
    if n <= |s| then s[..n] else s
  }

  /** Comparing `s.substr(0, |p|)` with p is exactly the prefix test. */
  lemma Substr0Prefix(s: string, p: string)
    ensures Substr0(s, |p|) == p <==> p <= s
  {
    if p <= s {
      assert s[..|p|] == p;
    }
  }

  predicate IsAsciiUpper(c: char) {
    'A' <= c <= 'Z'
  }

  /** `toLowerCase()` on one character, restricted to the ASCII letters. */
  function LowerChar(c: char): (l: char)
    ensures !IsAsciiUpper(l)
    ensures !IsAsciiUpper(c) ==> l == c
  {
    if IsAsciiUpper(c) then (c as int + 32) as char else c
  }

  /** `s.toLowerCase()` with ASCII case mapping. */
  function ToLowerCase(s: string): (r: string)
    ensures |r| == |s|
    ensures forall i :: 0 <= i < |s| ==> r[i] == LowerChar(s[i])
  {
    seq(|s|, i requires 0 <= i < |s| => LowerChar(s[i]))
  }

  /**
   * The regular-expression class `\s`: the WhiteSpace and LineTerminator
   * code points of ECMAScript (TAB, LF, VT, FF, CR, SPACE, NBSP, OGHAM SPACE
   * MARK, U+2000 to U+200A, LINE and PARAGRAPH SEPARATOR, NARROW NBSP,
   * MEDIUM MATHEMATICAL SPACE, IDEOGRAPHIC SPACE and the BOM).
   */
  predicate IsWhitespace(c: char) {
    var k := c as int;
    k == 0x09 || k == 0x0A || k == 0x0B || k == 0x0C || k == 0x0D || k == 0x20 ||
    k == 0xA0 || k == 0x1680 || (0x2000 <= k <= 0x200A) ||
    k == 0x2028 || k == 0x2029 || k == 0x202F || k == 0x205F || k == 0x3000 || k == 0xFEFF
  }

  predicate IsDigit(c: char) {
    '0' <= c <= '9'
  }

  predicate AllDigits(s: string) {
    forall i :: 0 <= i < |s| ==> IsDigit(s[i])
  }

  function DigitChar(d: nat): (c: char)
    requires d < 10
    ensures IsDigit(c) && c as int - '0' as int == d
  {
    ('0' as int + d) as char
  }

  /** The text JavaScript produces for a non-negative integer Number: decimal, no leading zero. */
  function DecimalString(n: nat): (s: string)
    ensures |s| >= 1 && AllDigits(s)
    ensures |s| > 1 ==> s[0] != '0'
    decreases n
  {
    if n < 10 then [DigitChar(n)] else DecimalString(n / 10) + [DigitChar(n % 10)]
  }

  /** The value of a string of decimal digits. */
  function DecimalValue(s: string): nat
    requires AllDigits(s)
    decreases |s|
  {
    if s == [] then 0 else 10 * DecimalValue(s[..|s| - 1]) + (s[|s| - 1] as int - '0' as int)
  }

  /** Reading back the decimal text of n gives n. */
  lemma {:induction false} DecimalRoundTrip(n: nat)
    ensures DecimalValue(DecimalString(n)) == n
    decreases n
  {
    if n >= 10 {
      var s := DecimalString(n);
      assert s[..|s| - 1] == DecimalString(n / 10);
      DecimalRoundTrip(n / 10);
    }
  }

  /** The decimal text is injective: distinct integers have distinct texts. */
  lemma DecimalStringInjective(m: nat, n: nat)
    requires DecimalString(m) == DecimalString(n)
    ensures m == n
  {
    DecimalRoundTrip(m);
    DecimalRoundTrip(n);
  }

  /** A JavaScript Number as far as a `>` comparison can tell: NaN, finite or infinite. */
  datatype JsNumber = NaN | Finite(value: real) | PlusInfinity | MinusInfinity

  /** `x > y` for a Number x and a finite y; every comparison with NaN is false. */
  predicate GreaterThan(x: JsNumber, y: real) {
    match x
    case NaN => false
    case Finite(v) => v > y
    case PlusInfinity => true
    case MinusInfinity => false
  }
}
