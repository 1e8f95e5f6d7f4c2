/**
 * JavaScript's `Number(s)` on the route parameter of the member form, and the
 * decimal text of an integer that the router writes into the URL for
 * `navigate(['/member-details', id])`.
 */
module Numbers {

  /**
   * A JavaScript number as far as member ids go: an integer, or NaN. The
   * integer is exact; the double's rounding above 2^53 and `Infinity` are
   * not represented.
   */
  datatype Num = Finite(value: int) | NaN

  predicate IsDigit(c: char) {
    '0' <= c <= '9'
  }

  predicate AllDigits(s: string) {
    forall i :: 0 <= i < |s| ==> IsDigit(s[i])
  }

  /** The value of a string of decimal digits, most significant digit first. */
  function DigitsValue(s: string): nat
    requires AllDigits(s)
  {
    if s == [] then 0
    else 10 * DigitsValue(s[..|s| - 1]) + (s[|s| - 1] as int - '0' as int)
  }

  /** A decimal literal with an optional sign, as `Number` reads it. */
  predicate SignedDecimal(s: string) {
    if |s| > 0 && (s[0] == '-' || s[0] == '+') then |s| > 1 && AllDigits(s[1..])
    else |s| > 0 && AllDigits(s)
  }

  /**
   * `Number(s)`: the empty string is 0, an optionally signed decimal literal is
   * its value, and every other string is NaN.
   */
  function ToNumber(s: string): (r: Num)
    ensures s == "" ==> r == Finite(0)
    ensures r.NaN? <==> s != "" && !SignedDecimal(s)
    ensures r.Finite? && s != "" && s[0] != '-' ==> r.value >= 0
    ensures r.Finite? && s != "" && s[0] == '-' ==> r.value <= 0
  {
    if s == "" then Finite(0)
    else if !SignedDecimal(s) then NaN
    else if s[0] == '-' then Finite(-(DigitsValue(s[1..]) as int))
    else if s[0] == '+' then Finite(DigitsValue(s[1..]))
    else Finite(DigitsValue(s))
  }

  function DigitChar(d: nat): (c: char)
    requires d < 10
    ensures IsDigit(c) && c as int - '0' as int == d
  {
    (d + '0' as int) as char
  }

  /**
   * `String(n)` for an integer below 1e21 in magnitude: its decimal text, with
   * a leading '-' when negative. Larger numbers, which JavaScript writes in
   * exponent form, are written here in digits too.
   */
  function Decimal(n: int): (s: string)
    ensures s != ""
    ensures n >= 0 ==> AllDigits(s)
    ensures n < 0 ==> s[0] == '-'
    decreases if n < 0 then 1 - n else n
  {
    if n < 0 then "-" + Decimal(-n)
    else if n < 10 then [DigitChar(n)]
    else Decimal(n / 10) + [DigitChar(n % 10)]
  }

  /** Reading back the digits of a non-negative number gives the number. */
  lemma {:induction false} DigitsValueOfDecimal(n: nat)
    ensures AllDigits(Decimal(n)) && DigitsValue(Decimal(n)) == n
  {
    var s := Decimal(n);
    if n >= 10 {
      DigitsValueOfDecimal(n / 10);
      assert s[..|s| - 1] == Decimal(n / 10);
    }
  }

  /** `Number(String(n)) == n`: an id written into a route comes back unchanged. */
  lemma NumberOfDecimal(n: int)
    ensures ToNumber(Decimal(n)) == Finite(n)
  {
    if n < 0 {
      DigitsValueOfDecimal(-n);
      assert Decimal(n)[1..] == Decimal(-n);
    } else {
      DigitsValueOfDecimal(n);
    }
  }
}
