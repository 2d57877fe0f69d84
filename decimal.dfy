/** The decimal rendering JavaScript gives an integral `number` (`n.toString()` and
    template-literal interpolation), and its inverse. The connection registry is keyed
    by these strings, so the round trip below is what makes a numeric user id and the
    registry key name the same user. */
module Decimal {
  import opened Wrappers

  predicate IsDigit(c: char) {
    '0' <= c <= '9'
  }

  predicate AllDigits(s: string) {
    forall i :: 0 <= i < |s| ==> IsDigit(s[i])
  }

  function DigitChar(d: nat): (c: char)
    requires d < 10
    ensures IsDigit(c) && c as int - '0' as int == d
  {
    ('0' as int + d) as char
  }

  /** Digits of a natural number, most significant first, without leading zeros. */
  function Digits(n: nat): (s: string)
    ensures |s| >= 1 && AllDigits(s)
    ensures s[0] == '0' ==> n == 0
  {
    if n < 10 then [DigitChar(n)] else Digits(n / 10) + [DigitChar(n % 10)]
  }

  /** `n.toString()` for an integral number. */
  function Show(n: int): (s: string)
    ensures |s| >= 1
  {
    if n < 0 then "-" + Digits(-n) else Digits(n)
  }

  /** Value of a string of decimal digits. */
  function DigitsValue(s: string): nat
    requires AllDigits(s)
  {
    if s == [] then 0 else DigitsValue(s[..|s| - 1]) * 10 + (s[|s| - 1] as int - '0' as int)
  }

  /** Reads back an optionally signed decimal numeral. */
  function Parse(s: string): Option<int> {
    if |s| >= 2 && s[0] == '-' && AllDigits(s[1..]) then Some(0 - DigitsValue(s[1..]))
    else if |s| >= 1 && AllDigits(s) then Some(DigitsValue(s))
    else None
  }

  lemma {:induction false} DigitsRoundTrip(n: nat)
    ensures DigitsValue(Digits(n)) == n
  {
    if n >= 10 {
      var s := Digits(n);
      assert s[..|s| - 1] == Digits(n / 10);
      DigitsRoundTrip(n / 10);
    }
  }

  /** Parsing the rendering of any integer gives that integer back. */
  lemma ShowRoundTrip(n: int)
    ensures Parse(Show(n)) == Some(n)
  {
    if n < 0 {
      DigitsRoundTrip(-n);
      assert Show(n)[1..] == Digits(-n);
    } else {
      DigitsRoundTrip(n);
    }
  }

  /** Distinct user ids never share a rendering, so never share a registry key. */
  lemma ShowInjective(a: int, b: int)
    ensures Show(a) == Show(b) ==> a == b
  {
    ShowRoundTrip(a);
    ShowRoundTrip(b);
  }

  /** A rendering is canonical: no sign but a leading minus, and no leading zero.
      A client that registered under "07" or "+7" is therefore never reached
      through user id 7. */
  lemma ShowIsCanonical(n: int)
    ensures Show(n)[0] == '-' || IsDigit(Show(n)[0])
    ensures Show(n)[0] == '0' ==> Show(n) == "0"
    ensures Show(n) != "-0"
    ensures n < 0 ==> |Show(n)| >= 2 && Show(n)[1] != '0'
  {
    if n < 0 {
      var d := Digits(-n);
      assert Show(n) == "-" + d && Show(n)[1..] == d;
      assert d[0] != '0';
    } else {
      var d := Digits(n);
      if d[0] == '0' { assert n == 0; }
    }
  }
}
