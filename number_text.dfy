/**
  JavaScript's `Math.round` on a real number and the decimal text that a
  template literal such as `${n}` produces for the resulting integer.
*/
module NumberText {

  /** `Math.round(x)`: the integer nearest to `x`, halves rounded up (towards +infinity). */
  function Round(x: real): (r: int)
    ensures x - 0.5 < r as real <= x + 0.5
  {
    (x + 0.5).Floor
  }

  predicate IsDigit(c: char) {
    '0' <= c <= '9'
  }

  predicate AllDigits(s: string) {
    forall i :: 0 <= i < |s| ==> IsDigit(s[i])
  }

  function DigitChar(d: nat): (c: char)
    requires d < 10
    ensures IsDigit(c) && c as int - '0' as int == d
  {
    ('0' as int + d) as char
  }

  /** Decimal digits with no leading zero, except for the single digit `0`. */
  predicate CanonicalNat(s: string) {
    |s| >= 1 && AllDigits(s) && (s[0] == '0' ==> |s| == 1)
  }

  /**
    The form in which JavaScript prints an integer: canonical digits, preceded
    by `-` for a negative value (never `-0`).
  */
  predicate Canonical(s: string) {
    && |s| >= 1
    && (s[0] == '-' ==> CanonicalNat(s[1..]) && s[1..] != "0")
    && (s[0] != '-' ==> CanonicalNat(s))
  }

  /** Decimal digits of `n`, most significant first, without leading zeros. */
  function NatToString(n: nat): (s: string)
    ensures CanonicalNat(s)
    ensures (s[0] == '0') <==> n == 0
  {
    if n < 10 then [DigitChar(n)] else NatToString(n / 10) + [DigitChar(n % 10)]
  }

  /** Text of an integer as JavaScript prints it: a minus sign for negatives, then the digits. */
  function IntToString(n: int): (s: string)
    ensures Canonical(s)
    ensures s[0] == '-' <==> n < 0
  {
    if n < 0 then "-" + NatToString(-n) else NatToString(n)
  }

  /** The value of a string of decimal digits (the inverse of NatToString). */
  function ParseNat(s: string): nat
    requires AllDigits(s)
  {
    if s == [] then 0 else ParseNat(s[..|s| - 1]) * 10 + (s[|s| - 1] as int - '0' as int)
  }

  /** The value of an optionally signed decimal numeral. */
  function ParseInt(s: string): int
    requires |s| >= 1
    requires s[0] == '-' ==> AllDigits(s[1..])
    requires s[0] != '-' ==> AllDigits(s)
  {
    if s[0] == '-' then -(ParseNat(s[1..]) as int) else ParseNat(s)
  }

  /** `s` is a well-formed decimal numeral whose value is `n`. */
  predicate Denotes(s: string, n: int) {
    && |s| >= 1
    && (s[0] == '-' ==> AllDigits(s[1..]))
    && (s[0] != '-' ==> AllDigits(s))
    && ParseInt(s) == n
  }

  lemma {:induction false} ParseNatToString(n: nat)
    ensures ParseNat(NatToString(n)) == n
  {
    if n >= 10 {
      var s := NatToString(n);
      assert s[..|s| - 1] == NatToString(n / 10);
      ParseNatToString(n / 10);
    }
  }

  /** The printed integer reads back as the same integer. */
  lemma IntToStringRoundTrip(n: int)
    ensures Denotes(IntToString(n), n)
  {
    var s := IntToString(n);
    if n < 0 {
      assert s[1..] == NatToString(-n);
      ParseNatToString(-n);
    } else {
      ParseNatToString(n);
    }
  }

  /** A non-empty digit string that does not start with `0` has a positive value. */
  lemma {:induction false} ParseNatPositive(s: string)
    requires |s| >= 1 && AllDigits(s) && s[0] != '0'
    ensures ParseNat(s) >= 1
  {
    if |s| > 1 {
      ParseNatPositive(s[..|s| - 1]);
    }
  }

  /** Canonical digits are exactly what NatToString prints for their value. */
  lemma {:induction false} CanonicalNatUnique(s: string)
    requires CanonicalNat(s)
    ensures NatToString(ParseNat(s)) == s
  {
    if |s| > 1 {
      var init := s[..|s| - 1];
      var d := s[|s| - 1] as int - '0' as int;
      ParseNatPositive(init);
      CanonicalNatUnique(init);
      var n := ParseNat(s);
      assert n == ParseNat(init) * 10 + d && 0 <= d < 10;
      assert n / 10 == ParseNat(init) && n % 10 == d;
      assert s == init + [s[|s| - 1]];
    }
  }

  /** The printed form is the only canonical numeral for an integer. */
  lemma CanonicalUnique(s: string, n: int)
    requires Canonical(s) && Denotes(s, n)
    ensures s == IntToString(n)
  {
    if s[0] == '-' {
      CanonicalNatUnique(s[1..]);
      assert s == "-" + s[1..];
    } else {
      CanonicalNatUnique(s);
    }
  }

  /** Two integers print the same exactly when they are equal. */
  lemma IntToStringInjective(m: int, n: int)
    ensures IntToString(m) == IntToString(n) <==> m == n
  {
    IntToStringRoundTrip(m);
    IntToStringRoundTrip(n);
  }
}
