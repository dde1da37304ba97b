/**
 * The PHP values a UUID field can hold when it is read back from the
 * database, and PHP's `(string)` cast on them.
 *
 * Integers are unbounded here; the cast never overflows, so PHP's 64-bit
 * width plays no part in the text it produces.
 */
module PhpValues {

  /** A stored field value: PHP `null`, a string, a boolean or an integer. */
  datatype PhpValue = Null | Str(s: string) | Bool(b: bool) | Int(i: int)

  predicate IsDigit(c: char) {
    '0' <= c <= '9'
  }

  predicate AllDigits(s: string) {
    forall k :: 0 <= k < |s| ==> IsDigit(s[k])
  }

  function DigitChar(d: nat): (c: char)
    requires d < 10
    ensures IsDigit(c)
  {
    ('0' as int + d) as char
  }

  function DigitValue(c: char): (d: nat)
    requires IsDigit(c)
    ensures d < 10 && DigitChar(d) == c
  {
    c as int - '0' as int
  }

  /** The number a string of decimal digits denotes (most significant digit first). */
  function ParseDigits(s: string): nat
    requires AllDigits(s)
  {
    if |s| == 0 then 0 else ParseDigits(s[..|s| - 1]) * 10 + DigitValue(s[|s| - 1])
  }

  /**
   * The decimal text of a natural number, as PHP writes it: at least one
   * digit, no leading zero except for the number zero itself.
   */
  function DecimalText(n: nat): (r: string)
    ensures |r| > 0 && AllDigits(r)
    ensures r[0] == '0' ==> n == 0
    ensures ParseDigits(r) == n
    decreases n
  {
    if n < 10 then [DigitChar(n)]
    else
      var prefix := DecimalText(n / 10);
      var r := prefix + [DigitChar(n % 10)];
      assert r[..|r| - 1] == prefix;
      r
  }

  /** Canonical integer text: an optional minus sign, then digits without a leading zero, and no "-0". */
  predicate IsIntegerText(t: string) {
    if |t| > 0 && t[0] == '-' then
      |t| > 1 && AllDigits(t[1..]) && t[1] != '0'
    else
      |t| > 0 && AllDigits(t) && (t[0] == '0' ==> |t| == 1)
  }

  /** The integer a canonical integer text denotes: the inverse of the cast on integers. */
  function ParseIntText(t: string): int
    requires IsIntegerText(t)
  {
    if t[0] == '-' then 0 - ParseDigits(t[1..]) else ParseDigits(t)
  }

  /**
   * PHP's `(string)` cast: null and false become "", true becomes "1",
   * a string is unchanged and an integer becomes its canonical decimal
   * text, which reads back as the same integer.
   */
  function ToText(v: PhpValue): (r: string)
    ensures v.Null? ==> r == ""
    ensures v.Bool? ==> r == (if v.b then "1" else "")
    ensures v.Str? ==> r == v.s
    ensures v.Int? ==> IsIntegerText(r) && ParseIntText(r) == v.i
  {
    match v
    case Null => ""
    case Str(s) => s
    case Bool(b) => if b then "1" else ""
    case Int(i) =>
      if i < 0 then
        var digits := DecimalText(-i);
        assert ("-" + digits)[1..] == digits;
        "-" + digits
      else DecimalText(i)
  }

  /** Zero casts to the one-character text "0", not to the empty string. */
  lemma ZeroText()
    ensures ToText(Int(0)) == "0"
  {
  }

  /** Distinct integers never cast to the same text. */
  lemma IntTextInjective(i: int, j: int)
    requires ToText(Int(i)) == ToText(Int(j))
    ensures i == j
  {
  }

  /** The cast yields the empty string for exactly three values: null, "" and false. */
  lemma EmptyTextExactly(v: PhpValue)
    ensures ToText(v) == "" <==> (v == Null || v == Str("") || v == Bool(false))
  {
  }
}
