/**
 * Decimal rendering and parsing of integers, as strconv.Itoa, fmt's %d and
 * strconv.Atoi do them for Go's 64-bit `int`.
 */
module Decimal {
  import opened Wrappers

  /** The range of Go's `int` on the 64-bit platforms the programs target. */
  const MinInt: int := -0x8000_0000_0000_0000
  const MaxInt: int := 0x7FFF_FFFF_FFFF_FFFF

  predicate IsDigit(c: char) { '0' <= c <= '9' }

  predicate AllDigits(s: string) { forall i :: 0 <= i < |s| ==> IsDigit(s[i]) }

  function DigitChar(d: nat): (c: char)
    requires d < 10
    ensures IsDigit(c)
  {
    (48 + d) as char
  }

  function DigitValue(c: char): (d: nat)
    requires IsDigit(c)
    ensures d < 10 && DigitChar(d) == c
  {
    c as int - 48
  }

  /** The decimal digits of `n`, most significant first, with no leading zero. */
  function Digits(n: nat): (s: string)
    ensures |s| > 0 && AllDigits(s)
    ensures s[0] == '0' ==> n == 0 && |s| == 1
    decreases n
  {
    if n < 10 then [DigitChar(n)] else Digits(n / 10) + [DigitChar(n % 10)]
  }

  /** The number a string of decimal digits denotes (leading zeros allowed). */
  function Value(s: string): nat
    requires AllDigits(s)
    decreases |s|
  {
    if s == [] then 0 else Value(s[..|s| - 1]) * 10 + DigitValue(s[|s| - 1])
  }

  /** strconv.Itoa(n), equally fmt.Sprintf("%d", n). */
  function Itoa(n: int): (s: string)
    ensures |s| > 0
    ensures s[0] == '-' <==> n < 0
    ensures AllDigits(if n < 0 then s[1..] else s)
    ensures (if n < 0 then s[1..] else s) == Digits(if n < 0 then -n else n)
  {
    if n < 0 then "-" + Digits(-n) else Digits(n)
  }

  /**
   * strconv.Atoi(s) with its error folded into None: an optional sign, then
   * one or more decimal digits, denoting a value inside Go's `int` range.
   */
  function Atoi(s: string): (r: Option<int>)
    ensures r.Some? ==> MinInt <= r.value <= MaxInt
    ensures r.Some? ==> |s| > 0 && (IsDigit(s[0]) || s[0] == '+' || s[0] == '-')
  {
    if |s| == 0 then None
    else
      var body := if s[0] == '+' || s[0] == '-' then s[1..] else s;
      if |body| == 0 || !AllDigits(body) then None
      else
        var v: int := if s[0] == '-' then -(Value(body) as int) else Value(body);
        if MinInt <= v <= MaxInt then Some(v) else None
  }

  lemma {:induction false} ValueOfDigits(n: nat)
    ensures Value(Digits(n)) == n
    decreases n
  {
    if n >= 10 {
      var s := Digits(n);
      assert s[..|s| - 1] == Digits(n / 10);
      ValueOfDigits(n / 10);
    }
  }

  /** Atoi of an unsigned digit string in range is its value. */
  lemma AtoiUnsigned(d: string)
    requires |d| > 0 && AllDigits(d) && Value(d) <= MaxInt
    ensures Atoi(d) == Some(Value(d) as int)
  {
  }

  /** Atoi of a minus sign and a digit string in range is the negated value. */
  lemma AtoiNegative(s: string)
    requires |s| > 1 && s[0] == '-' && AllDigits(s[1..]) && MinInt <= -(Value(s[1..]) as int)
    ensures Atoi(s) == Some(-(Value(s[1..]) as int))
  {
  }

  /** Parsing what Itoa printed gives the number back. */
  lemma AtoiItoa(n: int)
    requires MinInt <= n <= MaxInt
    ensures Atoi(Itoa(n)) == Some(n)
  {
    if n < 0 {
      AtoiItoaNegative(n);
    } else {
      AtoiItoaNatural(n);
    }
  }

  lemma AtoiItoaNatural(n: nat)
    requires n <= MaxInt
    ensures Atoi(Itoa(n)) == Some(n)
  {
    var d := Digits(n);
    assert Itoa(n) == d;
    ValueOfDigits(n);
    AtoiUnsigned(d);
  }

  lemma AtoiItoaNegative(n: int)
    requires MinInt <= n < 0
    ensures Atoi(Itoa(n)) == Some(n)
  {
    Magnitude(n);
    AtoiNegative(Itoa(n));
  }

  /** After its sign, a negative number prints as the digits of its magnitude. */
  lemma Magnitude(n: int)
    requires n < 0
    ensures |Itoa(n)| > 1 && Itoa(n)[0] == '-'
    ensures AllDigits(Itoa(n)[1..]) && Value(Itoa(n)[1..]) == -n
  {
    ValueOfDigits(-n);
  }

  lemma DigitsInjective(a: nat, b: nat)
    requires Digits(a) == Digits(b)
    ensures a == b
  {
    ValueOfDigits(a);
    ValueOfDigits(b);
  }

  /** Distinct integers print differently, whatever their size. */
  lemma ItoaInjective(m: int, n: int)
    requires Itoa(m) == Itoa(n)
    ensures m == n
  {
    if m < 0 {
      assert n < 0;
      DigitsInjective(-m, -n);
    } else {
      assert n >= 0;
      DigitsInjective(m, n);
    }
  }

  /** Rendered integers never contain a slash, so a path segment stays one segment. */
  lemma ItoaHasNoSlash(n: int)
    ensures forall i :: 0 <= i < |Itoa(n)| ==> Itoa(n)[i] != '/'
  {
  }
}
