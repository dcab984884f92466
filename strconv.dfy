/**
 * Go's `strconv.Atoi` and `strconv.Itoa` for the platform's 64-bit `int`.
 *
 * `Atoi` accepts an optional `+` or `-` followed by one or more ASCII digits
 * (leading zeros allowed, no spaces, no underscores) whose value fits in a
 * signed 64-bit integer; every other string is an error (`None`).
 * `Itoa` writes the shortest decimal text, with a `-` for negative values.
 */
module Strconv {
  import opened Wrappers

  const MinInt: int := -0x8000_0000_0000_0000
  const MaxInt: int := 0x7FFF_FFFF_FFFF_FFFF

  predicate IsDigit(c: char) {
    '0' <= c <= '9'
  }

  predicate AllDigits(s: string) {
    forall i :: 0 <= i < |s| ==> IsDigit(s[i])
  }

  function DigitValue(c: char): (d: nat)
    requires IsDigit(c)
    ensures d < 10
  {
    (c as int) - ('0' as int)
  }

  function DigitChar(d: nat): (c: char)
    requires d < 10
    ensures IsDigit(c) && DigitValue(c) == d
  {
    ('0' as int + d) as char
  }

  /** The value of a string of decimal digits, most significant first. */
  function DigitsValue(s: string): nat
    requires AllDigits(s)
  {
    if s == [] then 0 else DigitsValue(s[..|s| - 1]) * 10 + DigitValue(s[|s| - 1])
  }

  /** The shortest decimal text of a natural number. */
  function NatDigits(n: nat): (s: string)
    ensures s != []
  {
    if n < 10 then [DigitChar(n)] else NatDigits(n / 10) + [DigitChar(n % 10)]
  }

  /** strconv.Atoi: a signed decimal integer in the 64-bit range, or an error. */
  function Atoi(s: string): (r: Option<int>)
    ensures r.Some? ==> s != [] && MinInt <= r.value <= MaxInt
  {
    if s == [] then None
    else
      var negative := s[0] == '-';
      var body := if s[0] == '-' || s[0] == '+' then s[1..] else s;
      if body == [] || !AllDigits(body) then None
      else
        var v := if negative then -(DigitsValue(body) as int) else DigitsValue(body) as int;
        if MinInt <= v <= MaxInt then Some(v) else None
  }

  /** strconv.Itoa: a `-` exactly for negative values, then the digits of the magnitude. */
  function Itoa(i: int): (r: string)
    ensures r != [] && (r[0] == '-' <==> i < 0)
    ensures AllDigits(if i < 0 then r[1..] else r)
  {
    if i < 0 then
      NatDigitsRoundTrip(-i);
      assert ("-" + NatDigits(-i))[1..] == NatDigits(-i);
      "-" + NatDigits(-i)
    else
      NatDigitsRoundTrip(i);
      assert IsDigit(NatDigits(i)[0]);
      NatDigits(i)
  }

  /** The digits written by NatDigits read back as the same number. */
  lemma {:induction false} NatDigitsRoundTrip(n: nat)
    ensures AllDigits(NatDigits(n)) && DigitsValue(NatDigits(n)) == n
  {
    if n >= 10 {
      NatDigitsRoundTrip(n / 10);
      var s := NatDigits(n);
      assert s[..|s| - 1] == NatDigits(n / 10);
    }
  }

  /** NatDigits never writes a leading zero, except for zero itself. */
  lemma {:induction false} NatDigitsCanonical(n: nat)
    ensures NatDigits(n)[0] == '0' <==> n == 0
  {
    if n >= 10 {
      NatDigitsCanonical(n / 10);
    }
  }

  /** Parsing what Itoa writes gives back the integer, for every 64-bit int. */
  lemma AtoiItoa(i: int)
    requires MinInt <= i <= MaxInt
    ensures Atoi(Itoa(i)) == Some(i)
  {
    var s := Itoa(i);
    if i < 0 {
      var digits := NatDigits(-i);
      NatDigitsRoundTrip(-i);
      assert s == "-" + digits && s[1..] == digits;
    } else {
      var digits := NatDigits(i);
      NatDigitsRoundTrip(i);
      assert s == digits && IsDigit(s[0]);
    }
  }

  /** A string Atoi accepts is a sign or a digit followed by digits only. */
  lemma AtoiAcceptsOnlyDecimals(s: string)
    requires Atoi(s).Some?
    ensures s != [] && (IsDigit(s[0]) || s[0] == '-' || s[0] == '+')
    ensures AllDigits(s[1..]) && (!IsDigit(s[0]) ==> |s| >= 2)
  {
  }

  /** Conversely, every signed digit string in range is accepted, whatever its leading zeros. */
  lemma AtoiAcceptsDecimals(sign: string, digits: string)
    requires sign == "" || sign == "+" || sign == "-"
    requires digits != [] && AllDigits(digits)
    requires if sign == "-" then DigitsValue(digits) <= -MinInt else DigitsValue(digits) <= MaxInt
    ensures Atoi(sign + digits) == Some(if sign == "-" then -(DigitsValue(digits) as int) else DigitsValue(digits))
  {
    var s := sign + digits;
    if sign == "" {
      assert s == digits;
      assert s[0] != '-' && s[0] != '+' by { assert IsDigit(s[0]); }
    } else {
      assert s[1..] == digits;
      assert s[0] == sign[0];
    }
  }

  /** And a signed digit string out of range is an error. */
  lemma AtoiRejectsOutOfRange(sign: string, digits: string)
    requires sign == "" || sign == "+" || sign == "-"
    requires digits != [] && AllDigits(digits)
    requires if sign == "-" then DigitsValue(digits) > -MinInt else DigitsValue(digits) > MaxInt
    ensures Atoi(sign + digits) == None
  {
    var s := sign + digits;
    if sign == "" {
      assert s == digits;
      assert s[0] != '-' && s[0] != '+' by { assert IsDigit(s[0]); }
    } else {
      assert s[1..] == digits;
      assert s[0] == sign[0];
    }
  }
}
