/**
 * The two pieces of JavaScript's string semantics the controllers depend on:
 * `String.prototype.trim` (ECMAScript WhiteSpace and LineTerminator code points)
 * and `Number.prototype.toString` on integral numbers below 10^21 in magnitude (base 10).
 */
module JsStrings {

  /** The code points `trim` removes: WhiteSpace (TAB, VT, FF, SP, NBSP, ZWNBSP, category Zs) and LineTerminator (LF, CR, LS, PS). */
  predicate IsWhitespace(c: char) {
    || c == '\t' || c == '\n' || c == '\U{000B}' || c == '\U{000C}' || c == '\r' || c == ' '
    || c == '\U{00A0}' || c == '\U{1680}' || ('\U{2000}' <= c <= '\U{200A}')
    || c == '\U{2028}' || c == '\U{2029}' || c == '\U{202F}' || c == '\U{205F}'
    || c == '\U{3000}' || c == '\U{FEFF}'
  }

  /** Every character of `s` is whitespace (the empty string included). */
  predicate IsBlank(s: string) {
    forall i :: 0 <= i < |s| ==> IsWhitespace(s[i])
  }

  /** Strips leading whitespace: the result is the suffix of `s` that starts at its first non-whitespace character. */
  function TrimStart(s: string): (r: string)
    ensures |r| <= |s| && r == s[|s| - |r|..]
    ensures r == [] || !IsWhitespace(r[0])
    ensures forall i :: 0 <= i < |s| - |r| ==> IsWhitespace(s[i])
  {
    if s != [] && IsWhitespace(s[0]) then TrimStart(s[1..]) else s
  }

  /** Strips trailing whitespace: the result is the prefix of `s` that ends at its last non-whitespace character. */
  function TrimEnd(s: string): (r: string)
    ensures |r| <= |s| && r == s[..|r|]
    ensures r == [] || !IsWhitespace(r[|r| - 1])
    ensures forall i :: |r| <= i < |s| ==> IsWhitespace(s[i])
  {
    if s != [] && IsWhitespace(s[|s| - 1]) then TrimEnd(s[..|s| - 1]) else s
  }

  /** `s.trim()`; it is empty exactly when `s` is blank. */
  function Trim(s: string): (r: string)
    ensures r == [] <==> IsBlank(s)
  {
    var front := TrimStart(s);
    assert front != [] ==> front[0] == s[|s| - |front|];
    TrimEnd(front)
  }

  /** The value of a decimal digit character. */
  function DigitValue(c: char): int {
    c as int - '0' as int
  }

  /** The value a string of decimal digits denotes, most significant digit first. */
  ghost function DecimalValue(s: string): int
    decreases |s|
  {
    if s == [] then 0 else DecimalValue(s[..|s| - 1]) * 10 + DigitValue(s[|s| - 1])
  }

  /** The decimal digit character for `d`. */
  function DigitChar(d: nat): (c: char)
    requires d < 10
    ensures '0' <= c <= '9' && DigitValue(c) == d
  {
    ('0' as int + d) as char
  }

  /** Base-10 spelling of a natural number, without leading zeros. */
  function NatToString(n: nat): (r: string)
    ensures (|r| == 1) == (n < 10) && |r| >= 1
    ensures forall i :: 0 <= i < |r| ==> '0' <= r[i] <= '9'
  {
    if n < 10 then [DigitChar(n)] else NatToString(n / 10) + [DigitChar(n % 10)]
  }

  /** The spelling denotes `n` and has no leading zero. */
  lemma {:induction false} NatToStringValue(n: nat)
    ensures DecimalValue(NatToString(n)) == n
    ensures n >= 10 ==> NatToString(n)[0] != '0'
    decreases n
  {
    if n >= 10 {
      var front := NatToString(n / 10);
      NatToStringValue(n / 10);
      assert NatToString(n)[..|front|] == front;
    }
  }

  /**
   * `n.toString()` for an integral JavaScript number below 10^21 in magnitude; from 10^21
   * on JavaScript switches to exponent form ("1e+21"), which this spelling does not model.
   */
  function NumberToString(n: int): (r: string)
    ensures r != [] && (r[0] == '-') == (n < 0)
  {
    if n < 0 then "-" + NatToString(-n) else NatToString(n)
  }

  /** After the optional '-', the spelling is the decimal digits of the magnitude, with no leading zero unless `n` is 0. */
  lemma NumberToStringValue(n: int)
    ensures var r, magnitude := NumberToString(n), if n < 0 then -n else n;
            var digits := if n < 0 then r[1..] else r;
            && (forall i :: 0 <= i < |digits| ==> '0' <= digits[i] <= '9')
            && DecimalValue(digits) == magnitude
            && (digits[0] == '0' ==> n == 0)
  {
    var magnitude := if n < 0 then -n else n;
    NatToStringValue(magnitude);
    assert (if n < 0 then NumberToString(n)[1..] else NumberToString(n)) == NatToString(magnitude);
  }

  /** Distinct natural numbers have distinct spellings. */
  lemma {:induction false} NatToStringInjective(a: nat, b: nat)
    requires NatToString(a) == NatToString(b)
    ensures a == b
    decreases a
  {
    var sa, sb := NatToString(a), NatToString(b);
    if a < 10 && b < 10 {
      assert sa[0] == DigitChar(a) && sb[0] == DigitChar(b);
    } else if a >= 10 && b >= 10 {
      var pa, pb := NatToString(a / 10), NatToString(b / 10);
      assert sa == pa + [DigitChar(a % 10)];
      assert sb == pb + [DigitChar(b % 10)];
      assert |pa| == |pb|;
      assert pa == sa[..|pa|] && pb == sb[..|pb|];
      assert DigitChar(a % 10) == sa[|pa|] && DigitChar(b % 10) == sb[|pb|];
      NatToStringInjective(a / 10, b / 10);
    }
  }

  /** Distinct integers have distinct spellings, so comparing spellings compares the numbers. */
  lemma NumberToStringInjective(a: int, b: int)
    requires NumberToString(a) == NumberToString(b)
    ensures a == b
  {
    if a < 0 && b < 0 {
      assert NatToString(-a) == NumberToString(a)[1..];
      assert NatToString(-b) == NumberToString(b)[1..];
      NatToStringInjective(-a, -b);
    } else if a >= 0 && b >= 0 {
      NatToStringInjective(a, b);
    }
  }
}
