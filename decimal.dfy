/**
 * Decimal text of 32-bit integers, as the bridge uses it: `int.ToString()`
 * (what string interpolation does with an `int` hole) and `int.Parse(string)`
 * with the default integer number style.
 */
module Decimal {
  import opened Wrappers

  const Int32Min: int := -0x8000_0000
  const Int32Max: int := 0x7FFF_FFFF

  predicate IsInt32(n: int) {
    Int32Min <= n <= Int32Max
  }

  predicate IsDigit(c: char) {
    '0' <= c <= '9'
  }

  predicate AllDigits(s: string) {
    forall i | 0 <= i < |s| :: IsDigit(s[i])
  }

  function DigitValue(c: char): (d: nat)
    requires IsDigit(c)
    ensures d < 10
  {
    (c as int) - ('0' as int)
  }

  function DigitChar(d: nat): (c: char)
    requires d < 10
    ensures IsDigit(c) && DigitValue(c) == d
  {
    ('0' as int + d) as char
  }

  /** Digits of `n`, most significant first, with no leading zero. */
  function ShowNat(n: nat): (s: string)
    ensures 0 < |s| && AllDigits(s)
    ensures |s| > 1 ==> s[0] != '0'
  {
    if n < 10 then [DigitChar(n)] else ShowNat(n / 10) + [DigitChar(n % 10)]
  }

  /** `int.ToString()`: a minus sign before the digits of a negative number. */
  function ShowInt(n: int): string {
    if n < 0 then "-" + ShowNat(-n) else ShowNat(n)
  }

  /** Value of a run of decimal digits, most significant first. */
  function DigitsValue(s: string): nat
    requires AllDigits(s)
  {
    if s == [] then 0 else DigitsValue(s[..|s| - 1]) * 10 + DigitValue(s[|s| - 1])
  }

  /** The white-space characters the parser skips: space and U+0009 to U+000D. */
  predicate IsWhite(c: char) {
    c == ' ' || '\t' <= c <= '\r'
  }

  function TrimStart(s: string): (t: string)
    ensures |t| <= |s| && (t != [] ==> !IsWhite(t[0]))
  {
    if s != [] && IsWhite(s[0]) then TrimStart(s[1..]) else s
  }

  function TrimEnd(s: string): (t: string)
    ensures |t| <= |s| && (t != [] ==> !IsWhite(t[|t| - 1]))
  {
    if s != [] && IsWhite(s[|s| - 1]) then TrimEnd(s[..|s| - 1]) else s
  }

  /** Optional sign, then at least one digit; the value as an unbounded integer. */
  function SignedDigits(t: string): Option<int> {
    if t != [] && (t[0] == '-' || t[0] == '+') then
      var digits := t[1..];
      if digits != [] && AllDigits(digits) then
        var v: int := DigitsValue(digits);
        Some(if t[0] == '-' then -v else v)
      else None
    else if t != [] && AllDigits(t) then Some(DigitsValue(t))
    else None
  }

  /**
   * `int.Parse(s)`: surrounding white space is skipped, the rest must be a
   * signed decimal numeral, and a value outside the 32-bit range fails
   * (the source's FormatException and OverflowException are both `None`).
   */
  function ParseInt32(s: string): (r: Option<int>)
    ensures r.Some? ==> IsInt32(r.value)
  {
    match SignedDigits(TrimEnd(TrimStart(s)))
    case Some(v) => if IsInt32(v) then Some(v) else None
    case None => None
  }

  lemma {:induction false} DigitsOfShowNat(n: nat)
    ensures DigitsValue(ShowNat(n)) == n
  {
    var s := ShowNat(n);
    if n >= 10 {
      DigitsOfShowNat(n / 10);
      assert s[..|s| - 1] == ShowNat(n / 10);
    }
  }

  lemma ShowIntUntrimmed(n: int)
    ensures TrimEnd(TrimStart(ShowInt(n))) == ShowInt(n)
  {
    var s := ShowInt(n);
    var d := ShowNat(if n < 0 then -n else n);
    assert s[|s| - 1] == d[|d| - 1];
    assert !IsWhite(s[0]) && !IsWhite(s[|s| - 1]);
  }

  /** Printing then parsing gives the number back exactly when it fits in 32 bits. */
  lemma {:induction false} ParseShowInt(n: int)
    ensures ParseInt32(ShowInt(n)) == if IsInt32(n) then Some(n) else None
  {
    ShowIntUntrimmed(n);
    var s := ShowInt(n);
    if n < 0 {
      DigitsOfShowNat(-n);
      assert s[1..] == ShowNat(-n);
      assert SignedDigits(s) == Some(n);
    } else {
      DigitsOfShowNat(n);
      assert SignedDigits(s) == Some(n);
    }
  }

  /** Two 32-bit integers print alike only when they are equal. */
  lemma ShowIntInjective(m: int, n: int)
    requires IsInt32(m) && IsInt32(n) && ShowInt(m) == ShowInt(n)
    ensures m == n
  {
    ParseShowInt(m);
    ParseShowInt(n);
  }
}
