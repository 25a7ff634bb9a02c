/** Decimal rendering of numbers, two-digit zero padding and upper-casing,
    the string operations the dashboard uses in its labels and identifiers. */
module Text {

  predicate IsDigit(c: char) {
    '0' <= c <= '9'
  }

  function Digit(d: nat): (c: char)
    requires d < 10
    ensures IsDigit(c)
  {
    ('0' as int + d) as char
  }

  function DigitValue(c: char): nat {
    if IsDigit(c) then c as int - '0' as int else 0
  }

  /** The decimal text of `n`, as `String(n)` renders a non-negative integer:
      digits only, at least one, and no leading zero except for 0 itself. */
  function NatToString(n: nat): (s: string)
    ensures |s| >= 1
    ensures forall k :: 0 <= k < |s| ==> IsDigit(s[k])
    ensures s[0] == '0' <==> n == 0
    ensures |s| == 1 <==> n < 10
    decreases n
  {
    if n < 10 then [Digit(n)] else NatToString(n / 10) + [Digit(n % 10)]
  }

  /** Reads a run of decimal digits back as a number (the reference decoder). */
  function ParseDecimal(s: string): nat
  {
    if s == [] then 0 else ParseDecimal(s[..|s| - 1]) * 10 + DigitValue(s[|s| - 1])
  }

  lemma {:induction false} ParseNatToString(n: nat)
    ensures ParseDecimal(NatToString(n)) == n
    decreases n
  {
    if n >= 10 {
      var p := NatToString(n / 10);
      ParseNatToString(n / 10);
      assert (p + [Digit(n % 10)])[..|p|] == p;
    }
  }

  /** Distinct numbers have distinct decimal texts. */
  lemma NatToStringInjective(a: nat, b: nat)
    ensures NatToString(a) == NatToString(b) ==> a == b
  {
    ParseNatToString(a);
    ParseNatToString(b);
  }

  /** Appending the same suffix keeps distinct numbers distinct, so
      `prefix + NatToString(i)` names are unique per index. */
  lemma PrefixedNatInjective(prefix: string, a: nat, b: nat)
    ensures prefix + NatToString(a) == prefix + NatToString(b) ==> a == b
  {
    if prefix + NatToString(a) == prefix + NatToString(b) {
      assert NatToString(a) == (prefix + NatToString(a))[|prefix|..];
      assert NatToString(b) == (prefix + NatToString(b))[|prefix|..];
      NatToStringInjective(a, b);
    }
  }

  /** `String(n).padStart(2, '0')`: one leading zero for a single digit. */
  function Pad2(n: nat): (s: string)
    ensures n < 100 ==> |s| == 2
    ensures n >= 100 ==> |s| >= 3
    ensures forall k :: 0 <= k < |s| ==> IsDigit(s[k])
  {
    var t := NatToString(n);
    assert n >= 100 ==> |t| >= 3 by {
      if n >= 100 {
        assert t == NatToString(n / 10) + [Digit(n % 10)];
      }
    }
    if |t| < 2 then "0" + t else t
  }

  lemma {:induction false} ParseLeadingZero(t: string)
    ensures ParseDecimal("0" + t) == ParseDecimal(t)
    decreases |t|
  {
    if t != [] {
      var u := t[..|t| - 1];
      assert ("0" + t)[..|"0" + t| - 1] == "0" + u;
      ParseLeadingZero(u);
    }
  }

  /** Padding never changes the value the digits stand for. */
  lemma Pad2RoundTrip(n: nat)
    ensures ParseDecimal(Pad2(n)) == n
  {
    ParseNatToString(n);
    ParseLeadingZero(NatToString(n));
  }

  function UpperChar(c: char): char {
    if 'a' <= c <= 'z' then (c as int - 32) as char else c
  }

  /** `toUpperCase` restricted to ASCII letters: every lower-case letter is
      replaced by its capital, everything else is kept. */
  function ToUpper(s: string): (r: string)
    ensures |r| == |s|
    ensures forall k :: 0 <= k < |r| ==> !('a' <= r[k] <= 'z')
    ensures forall k :: 0 <= k < |r| && !('a' <= s[k] <= 'z') ==> r[k] == s[k]
    ensures forall k :: 0 <= k < |r| && 'a' <= s[k] <= 'z' ==> r[k] as int == s[k] as int - 32
  {
    seq(|s|, k requires 0 <= k < |s| => UpperChar(s[k]))
  }

  lemma ToUpperIdempotent(s: string)
    ensures ToUpper(ToUpper(s)) == ToUpper(s)
  {
  }
}
