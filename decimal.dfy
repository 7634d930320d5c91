/**
 * Decimal rendering and parsing of integers, as Go's strconv.Itoa and
 * strconv.Atoi do them on a 64-bit platform.
 */
module Decimal {
  import opened Errors

  const MaxInt64: int := 0x7fff_ffff_ffff_ffff
  const MinInt64: int := -0x8000_0000_0000_0000

  predicate IsDigit(c: char) { '0' <= c <= '9' }

  predicate AllDigits(s: string) { forall i :: 0 <= i < |s| ==> IsDigit(s[i]) }

  function DigitValue(c: char): nat
    requires IsDigit(c)
  {
    c as int - '0' as int
  }

  function DigitChar(d: nat): (c: char)
    requires d < 10
    ensures IsDigit(c) && DigitValue(c) == d
  {
    ('0' as int + d) as char
  }

  /** The decimal digits of `n`, most significant first, without leading zeros. */
  function Digits(n: nat): (s: string)
    ensures |s| > 0 && AllDigits(s)
    ensures |s| > 1 ==> s[0] != '0'
    decreases n
  {
    if n < 10 then [DigitChar(n)] else Digits(n / 10) + [DigitChar(n % 10)]
  }

  /** strconv.Itoa: a minus sign for negative numbers, then the digits of the magnitude. */
  function Itoa(n: int): (s: string)
    ensures |s| > 0
    ensures s[0] == '-' <==> n < 0
  {
    if n < 0 then "-" + Digits(-n) else Digits(n)
  }

  /** The value of a string of digits read most significant first. */
  function DigitsValue(s: string): nat
    requires AllDigits(s)
  {
    if s == [] then 0 else 10 * DigitsValue(s[..|s| - 1]) + DigitValue(s[|s| - 1])
  }

  /** The value of a non-empty string of decimal digits; None if it is empty or holds any other character. */
  function ParseDigits(s: string): Option<nat>
  {
    if s == [] || !IsDigit(s[|s| - 1]) then None
    else if |s| == 1 then Some(DigitValue(s[0]))
    else match ParseDigits(s[..|s| - 1])
      case None => None
      case Some(v) => Some(10 * v + DigitValue(s[|s| - 1]))
  }

  /** Parsing accepts exactly the non-empty strings of digits, and yields their value. */
  lemma {:induction false} ParseDigitsValue(s: string)
    ensures ParseDigits(s) == if s != [] && AllDigits(s) then Some(DigitsValue(s)) else None
  {
    if |s| > 1 {
      var init := s[..|s| - 1];
      ParseDigitsValue(init);
      assert AllDigits(s) ==> AllDigits(init) by {
        if AllDigits(s) {
          forall i | 0 <= i < |init| ensures IsDigit(init[i]) { assert init[i] == s[i]; }
        }
      }
      assert AllDigits(init) && IsDigit(s[|s| - 1]) ==> AllDigits(s) by {
        if AllDigits(init) && IsDigit(s[|s| - 1]) {
          forall i | 0 <= i < |s| ensures IsDigit(s[i]) { if i < |s| - 1 { assert s[i] == init[i]; } }
        }
      }
    } else if |s| == 1 {
      assert s[..0] == [];
    }
  }

  /**
   * strconv.Atoi: an optional '+' or '-' followed by one or more decimal
   * digits. A string of any other shape is a syntax error with value 0; a
   * numeral outside the 64-bit range is a range error whose value is the
   * bound nearest to it.
   */
  function Atoi(s: string): (r: (int, Option<Error>))
    ensures MinInt64 <= r.0 <= MaxInt64
    ensures r.1 == None || r.1 == Some(AtoiSyntax(s)) || r.1 == Some(AtoiRange(s))
    ensures r.1 == Some(AtoiSyntax(s)) ==> r.0 == 0
    ensures r.1 == Some(AtoiRange(s)) ==> r.0 == if |s| > 0 && s[0] == '-' then MinInt64 else MaxInt64
  {
    var neg := |s| > 0 && s[0] == '-';
    var numeral := if |s| > 0 && (s[0] == '+' || s[0] == '-') then s[1..] else s;
    match ParseDigits(numeral)
    case None => (0, Some(AtoiSyntax(s)))
    case Some(v) =>
      if !neg && v > MaxInt64 then (MaxInt64, Some(AtoiRange(s)))
      else if neg && v > -MinInt64 then (MinInt64, Some(AtoiRange(s)))
      else (if neg then -(v as int) else v, None)
  }

  /** Reading back the digits of `n` yields `n`. */
  lemma {:induction false} DigitsValueOfDigits(n: nat)
    ensures DigitsValue(Digits(n)) == n
    decreases n
  {
    var s := Digits(n);
    if n >= 10 {
      assert s[..|s| - 1] == Digits(n / 10);
      DigitsValueOfDigits(n / 10);
    }
  }

  /** Atoi undoes Itoa on every 64-bit integer. */
  lemma AtoiOfItoa(n: int)
    requires MinInt64 <= n <= MaxInt64
    ensures Atoi(Itoa(n)) == (n, None)
  {
    var s := Itoa(n);
    var m: nat := if n < 0 then -n else n;
    DigitsValueOfDigits(m);
    ParseDigitsValue(Digits(m));
    assert ParseDigits(Digits(m)) == Some(m);
    if n < 0 {
      assert s[0] == '-' && s[1..] == Digits(m);
    } else {
      assert s == Digits(m) && IsDigit(s[0]);
    }
  }

  /** Different integers have different decimal renderings. */
  lemma ItoaInjective(a: int, b: int)
    requires Itoa(a) == Itoa(b)
    ensures a == b
  {
    if a < 0 {
      assert Itoa(a)[1..] == Digits(-a) && Itoa(b)[1..] == Digits(-b);
      DigitsValueOfDigits(-a);
      DigitsValueOfDigits(-b);
    } else {
      DigitsValueOfDigits(a);
      DigitsValueOfDigits(b);
    }
  }
}
