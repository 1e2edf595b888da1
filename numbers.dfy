/**
 * Conversions between JavaScript numbers and the decimal strings that the
 * forms hold: `n.toString()` on an integer and `Number(s)` on a form field.
 * Numbers are integers throughout the model.
 */
module Numbers {

  predicate IsDigit(c: char) {
    '0' <= c <= '9'
  }

  predicate AllDigits(s: string) {
    forall i :: 0 <= i < |s| ==> IsDigit(s[i])
  }

  function DigitChar(d: int): (c: char)
    requires 0 <= d < 10
    ensures IsDigit(c) && c as int - '0' as int == d
  {
    ('0' as int + d) as char
  }

  function DigitValue(c: char): (d: int)
    requires IsDigit(c)
    ensures 0 <= d < 10
  {
    c as int - '0' as int
  }

  /** The decimal numeral of a natural number, most significant digit first, no leading zeros. */
  function NatToDecimal(n: nat): (s: string)
    ensures 1 <= |s| && AllDigits(s)
    ensures |s| > 1 ==> s[0] != '0'
    decreases n
  {
    if n < 10 then [DigitChar(n)] else NatToDecimal(n / 10) + [DigitChar(n % 10)]
  }

  /** The value of a string of decimal digits, read left to right; the empty string reads as 0. */
  function DecimalValue(s: string): (n: nat)
    requires AllDigits(s)
    decreases |s|
  {
    if s == [] then 0 else DecimalValue(s[..|s| - 1]) * 10 + DigitValue(s[|s| - 1])
  }

  /** `n.toString()` for an integer `n`: a minus sign for negatives, then the decimal numeral. */
  function IntToString(n: int): (s: string)
  {
    if n < 0 then "-" + NatToDecimal(-n) else NatToDecimal(n)
  }

  /** What `Number(s)` yields: an integer, or something the model does not track further. */
  datatype JsNumber = Finite(value: int) | Untracked

  /**
   * `Number(s)` on a form field: the empty string is 0, and an optional sign
   * followed by decimal digits is that integer. Every other string is
   * `Untracked`: the model does not follow it further, whether `Number`
   * gives NaN, a fraction, or an integer written another way (`"1e3"`,
   * `"0x10"`, `" 5"`).
   */
  function ToNumber(s: string): (r: JsNumber)
    ensures AllDigits(s) ==> r == Finite(DecimalValue(s))
    ensures r.Finite? && s != [] && s[0] == '-' ==> r.value <= 0
  {
    if s == [] then Finite(0)
    else if AllDigits(s) then Finite(DecimalValue(s))
    else if |s| > 1 && (s[0] == '-' || s[0] == '+') && AllDigits(s[1..]) then
      (if s[0] == '-' then Finite(-(DecimalValue(s[1..]) as int)) else Finite(DecimalValue(s[1..])))
    else Untracked
  }

  /** Reading back the numeral of `n` gives `n`. */
  lemma {:induction false} DecimalRoundTrip(n: nat)
    ensures DecimalValue(NatToDecimal(n)) == n
    decreases n
  {
    if n >= 10 {
      var s := NatToDecimal(n);
      DecimalRoundTrip(n / 10);
      assert s[..|s| - 1] == NatToDecimal(n / 10);
    }
  }

  /** `Number(n.toString())` is `n` for every integer `n`. */
  lemma IntStringRoundTrip(n: int)
    ensures ToNumber(IntToString(n)) == Finite(n)
  {
    if n < 0 {
      var d := NatToDecimal(-n);
      DecimalRoundTrip(-n);
      assert ("-" + d)[1..] == d;
    } else {
      DecimalRoundTrip(n);
    }
  }

  /** `toString` is injective on integers: different integers never share a string. */
  lemma IntToStringInjective(a: int, b: int)
    requires IntToString(a) == IntToString(b)
    ensures a == b
  {
    IntStringRoundTrip(a);
    IntStringRoundTrip(b);
  }
}
