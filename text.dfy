/** Text helpers of the code generator: joining with a separator, and the
    canonical decimal text of an integer together with its reading back. */
module Text {

  /** The parts with `sep` between consecutive ones and nowhere else. */
  function Join(parts: seq<string>, sep: string): string
  {
    if |parts| == 0 then ""
    else if |parts| == 1 then parts[0]
    else parts[0] + sep + Join(parts[1..], sep)
  }

  predicate IsDigit(c: char)
  {
    '0' <= c <= '9'
  }

  predicate AllDigits(s: string)
  {
    forall k :: 0 <= k < |s| ==> IsDigit(s[k])
  }

  function DigitChar(d: nat): (c: char)
    requires d < 10
    ensures IsDigit(c)
  {
    (48 + d) as char
  }

  function DigitValue(c: char): (d: nat)
    requires IsDigit(c)
    ensures d < 10 && DigitChar(d) == c
  {
    (c as int - 48) as nat
  }

  /** Decimal digits without superfluous leading zeros: the shape of every
      non-negative integer's display text. */
  predicate CanonicalNat(s: string)
  {
    |s| > 0 && AllDigits(s) && (s[0] == '0' ==> |s| == 1)
  }

  /** An optional minus sign before canonical digits; no `-0`. */
  predicate CanonicalInt(s: string)
  {
    CanonicalNat(s) || (|s| > 1 && s[0] == '-' && CanonicalNat(s[1..]) && s[1..] != "0")
  }

  /** The value of a string of decimal digits, most significant first. */
  function NatValue(s: string): nat
    requires AllDigits(s)
  {
    if |s| == 0 then 0
    else 10 * NatValue(s[..|s| - 1]) + DigitValue(s[|s| - 1])
  }

  function IntValue(s: string): int
    requires CanonicalInt(s)
  {
    if s[0] == '-' then -(NatValue(s[1..]) as int) else NatValue(s)
  }

  /** The display text of a non-negative integer. */
  function NatText(n: nat): (s: string)
    ensures CanonicalNat(s) && NatValue(s) == n
  {
    if n < 10 then [DigitChar(n)]
    else
      var s := NatText(n / 10) + [DigitChar(n % 10)];
      assert s[..|s| - 1] == NatText(n / 10);
      s
  }

  /** The display text of an integer: a minus sign for negative values. */
  function IntText(n: int): (s: string)
    ensures CanonicalInt(s) && IntValue(s) == n
  {
    if n < 0 then
      var s := "-" + NatText(-n);
      assert s[1..] == NatText(-n);
      s
    else NatText(n)
  }

  lemma {:induction false} LeadingDigitBound(s: string)
    requires AllDigits(s) && |s| > 0
    ensures NatValue(s) >= DigitValue(s[0])
  {
    if |s| > 1 {
      var p := s[..|s| - 1];
      assert AllDigits(p);
      LeadingDigitBound(p);
      assert p[0] == s[0];
    }
  }

  /** Reading canonical digits and displaying the value gives the digits back. */
  lemma {:induction false} NatTextOfValue(s: string)
    requires CanonicalNat(s)
    ensures NatText(NatValue(s)) == s
  {
    if |s| > 1 {
      var p := s[..|s| - 1];
      assert AllDigits(p) && p[0] == s[0];
      assert CanonicalNat(p);
      LeadingDigitBound(p);
      assert s[0] != '0';
      assert NatValue(p) >= 1;
      var v := NatValue(s);
      assert v == 10 * NatValue(p) + DigitValue(s[|s| - 1]);
      assert v / 10 == NatValue(p) && v % 10 == DigitValue(s[|s| - 1]);
      NatTextOfValue(p);
      assert s == p + [s[|s| - 1]];
    }
  }

  /** Reading a canonical integer text and displaying the value gives the
      text back (the other direction is IntText's own postcondition). */
  lemma {:induction false} IntTextOfValue(s: string)
    requires CanonicalInt(s)
    ensures IntText(IntValue(s)) == s
  {
    if s[0] == '-' {
      NatTextOfValue(s[1..]);
      assert NatText(0) == "0";
      assert s == "-" + s[1..];
    } else {
      NatTextOfValue(s);
    }
  }
}
