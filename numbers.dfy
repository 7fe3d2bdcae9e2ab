/** Python's numeric conversions used throughout the backend: `int()` on a float,
    which truncates toward zero, and `str()` / f-string formatting of an int. */
module Numbers {

  /** `int(x)` for a float `x`: the integer part, rounded toward zero. */
  function Trunc(x: real): (r: int)
    ensures x >= 0.0 ==> 0 <= r && r as real <= x < r as real + 1.0
    ensures x < 0.0 ==> r <= 0 && x <= r as real < x + 1.0
  {
    if x >= 0.0 then x.Floor else -((-x).Floor)
  }

  /** Truncation never moves a value away from zero and is monotone. */
  lemma TruncMonotone(x: real, y: real)
    requires x <= y
    ensures Trunc(x) <= Trunc(y)
  {
    if x >= 0.0 {
      assert Trunc(x) as real <= x <= y < Trunc(y) as real + 1.0;
    } else if y >= 0.0 {
    } else {
      assert x <= Trunc(x) as real && Trunc(y) as real < y + 1.0;
      assert Trunc(x) as real < Trunc(y) as real + 1.0 by {
        assert Trunc(x) as real < x + 1.0;
      }
    }
  }

  /** On an integer-valued argument truncation is exact. */
  lemma TruncOfInt(n: int)
    ensures Trunc(n as real) == n
  {
  }

  const Digits: string := "0123456789"

  function DigitValue(c: char): (d: nat)
    requires c in Digits
    ensures d < 10 && Digits[d] == c
  {
    if c == '0' then 0 else if c == '1' then 1 else if c == '2' then 2
    else if c == '3' then 3 else if c == '4' then 4 else if c == '5' then 5
    else if c == '6' then 6 else if c == '7' then 7 else if c == '8' then 8 else 9
  }

  /** Decimal text of a natural number, most significant digit first, no leading zeros. */
  function NatToString(n: nat): (s: string)
    ensures |s| >= 1
    ensures forall i :: 0 <= i < |s| ==> s[i] in Digits
    ensures |s| > 1 ==> s[0] != '0'
    decreases n
  {
    if n < 10 then [Digits[n]] else NatToString(n / 10) + [Digits[n % 10]]
  }

  /** Python's `str(i)` for an int: a minus sign before the digits of a negative number. */
  function IntToString(i: int): (s: string)
    ensures forall k :: 0 <= k < |s| ==> s[k] in Digits || s[k] == '-'
    ensures forall k :: 0 < k < |s| ==> s[k] in Digits
    ensures i < 0 <==> (|s| > 0 && s[0] == '-')
    ensures i >= 0 ==> ParseNat(s) == i
    ensures i < 0 ==> ParseNat(s[1..]) == -i
  {
    if i < 0 then
      ParseNatToString(-i);
      assert ("-" + NatToString(-i))[1..] == NatToString(-i);
      "-" + NatToString(-i)
    else
      ParseNatToString(i);
      NatToString(i)
  }

  /** Reads a string of decimal digits back as a number. */
  function ParseNat(s: string): nat
    requires forall i :: 0 <= i < |s| ==> s[i] in Digits
  {
    if s == [] then 0 else 10 * ParseNat(s[..|s| - 1]) + DigitValue(s[|s| - 1])
  }

  /** Number formatting loses nothing: the printed digits read back as the number. */
  lemma {:induction false} ParseNatToString(n: nat)
    ensures ParseNat(NatToString(n)) == n
    decreases n
  {
    var s := NatToString(n);
    if n >= 10 {
      ParseNatToString(n / 10);
      assert s[..|s| - 1] == NatToString(n / 10);
      assert s[|s| - 1] == Digits[n % 10];
    } else {
      assert s == [Digits[n]];
    }
  }
}
