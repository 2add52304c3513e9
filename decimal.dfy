/**
 * Decimal text: zero-padded fields as chrono's `%Y`, `%m`, `%d`, `%H`, `%M`
 * print them, Rust's `u32::to_string`, and Rust's `str::parse::<i64>`.
 */
module Decimal {
  import opened Wrappers
  import opened Strings

  const I64_MIN: int := -0x8000_0000_0000_0000
  const I64_MAX: int := 0x7FFF_FFFF_FFFF_FFFF

  function Digit(d: nat): (c: char)
    requires d < 10
    ensures '0' <= c <= '9' && c as int - '0' as int == d
  {
    ('0' as int + d) as char
  }

  predicate IsDigit(c: char) { '0' <= c <= '9' }

  function Pow10(w: nat): (p: nat)
    ensures p >= 1
  {
    if w == 0 then 1 else 10 * Pow10(w - 1)
  }

  /** The last `w` decimal digits of `n`, with leading zeros: `Pad(7, 2) == "07"`. */
  function Pad(n: nat, w: nat): (s: string)
    ensures |s| == w && forall i :: 0 <= i < w ==> IsDigit(s[i])
  {
    if w == 0 then [] else Pad(n / 10, w - 1) + [Digit(n % 10)]
  }

  /** The value of a string of decimal digits, most significant first. */
  function DigitsValue(s: string): nat
    requires forall i :: 0 <= i < |s| ==> IsDigit(s[i])
  {
    if s == [] then 0
    else
      assert IsDigit(s[|s| - 1]);
      10 * DigitsValue(s[..|s| - 1]) + (s[|s| - 1] as int - '0' as int) as nat
  }

  /** Padding to `w` digits loses nothing when `n` has at most `w` digits. */
  lemma {:induction false} PadValue(n: nat, w: nat)
    requires n < Pow10(w)
    ensures DigitsValue(Pad(n, w)) == n
  {
    if w > 0 {
      PadValue(n / 10, w - 1);
      assert Pad(n, w)[..w - 1] == Pad(n / 10, w - 1);
    }
  }

  /** Fixed-width fields compare as text exactly as their values compare as numbers. */
  lemma {:induction false} PadOrder(n: nat, m: nat, w: nat)
    requires n < Pow10(w) && m < Pow10(w)
    ensures LexLt(Pad(n, w), Pad(m, w)) <==> n < m
    ensures Pad(n, w) == Pad(m, w) <==> n == m
  {
    if w == 0 {
    } else {
      var a, b := n / 10, m / 10;
      assert a < Pow10(w - 1) && b < Pow10(w - 1);
      PadOrder(a, b, w - 1);
      LexLtConcat(Pad(a, w - 1), [Digit(n % 10)], Pad(b, w - 1), [Digit(m % 10)]);
      DivModCompare(n, m);
      if Pad(n, w) == Pad(m, w) {
        assert Pad(a, w - 1) == Pad(n, w)[..w - 1] && Pad(b, w - 1) == Pad(m, w)[..w - 1];
        assert Digit(n % 10) == Pad(n, w)[w - 1] && Digit(m % 10) == Pad(m, w)[w - 1];
      }
    }
  }

  /** Numbers compare as their quotient by ten, then their last digit. */
  lemma DivModCompare(n: nat, m: nat)
    ensures n < m <==> n / 10 < m / 10 || (n / 10 == m / 10 && n % 10 < m % 10)
    ensures n == m <==> n / 10 == m / 10 && n % 10 == m % 10
  {
    assert n == 10 * (n / 10) + n % 10 && m == 10 * (m / 10) + m % 10;
  }

  /** `n.to_string()`: decimal digits without leading zeros ("0" for zero). */
  function DecimalString(n: nat): (s: string)
    ensures s != [] && forall i :: 0 <= i < |s| ==> IsDigit(s[i])
  {
    if n < 10 then [Digit(n)] else DecimalString(n / 10) + [Digit(n % 10)]
  }

  lemma {:induction false} DecimalStringValue(n: nat)
    ensures DigitsValue(DecimalString(n)) == n
  {
    if n >= 10 {
      DecimalStringValue(n / 10);
      var s := DecimalString(n);
      assert s[..|s| - 1] == DecimalString(n / 10);
    }
  }

  /**
   * `s.parse::<i64>()`: an optional `+` or `-`, then at least one ASCII digit
   * and nothing else; a value outside the 64-bit range is an error too.
   */
  function ParseI64(s: string): Option<int>
  {
    if s == [] then None
    else
      var negative := s[0] == '-';
      var digits := if s[0] == '-' || s[0] == '+' then s[1..] else s;
      if digits == [] || exists i :: 0 <= i < |digits| && !IsDigit(digits[i]) then None
      else
        var v := if negative then -(DigitsValue(digits) as int) else DigitsValue(digits);
        if I64_MIN <= v <= I64_MAX then Some(v) else None
  }

  /** Rendering a number and parsing it back is the identity on the 64-bit range. */
  lemma ParseDecimalString(n: nat)
    requires n <= I64_MAX
    ensures ParseI64(DecimalString(n)) == Some(n)
  {
    DecimalStringValue(n);
  }

  lemma ParseNegativeDecimalString(n: nat)
    requires n <= -I64_MIN
    ensures ParseI64("-" + DecimalString(n)) == Some(-(n as int))
  {
    DecimalStringValue(n);
    assert ("-" + DecimalString(n))[1..] == DecimalString(n);
  }

  /** A digit string beyond the 64-bit range does not parse. */
  lemma ParseOverflow(n: nat)
    requires n > I64_MAX
    ensures ParseI64(DecimalString(n)) == None
  {
    DecimalStringValue(n);
  }
}
