/** Decimal rendering of a non-negative integer, as `std::to_string` produces it
    for the chain positions that end every parameter key. */
module Decimal {

  predicate IsDigit(ch: char) {
    '0' <= ch <= '9'
  }

  function DigitChar(d: nat): (ch: char)
    requires d < 10
    ensures IsDigit(ch)
    ensures ch as int - '0' as int == d
  {
    ['0', '1', '2', '3', '4', '5', '6', '7', '8', '9'][d]
  }

  /** The value of a digit character. */
  function DigitValue(ch: char): int {
    ch as int - '0' as int
  }

  /** The number a string of decimal digits denotes, most significant digit first. */
  function DecimalValue(s: string): int {
    if |s| == 0 then 0 else DecimalValue(s[..|s| - 1]) * 10 + DigitValue(s[|s| - 1])
  }

  /** The shortest decimal spelling of `n`, most significant digit first. */
  function NatToString(n: nat): (s: string)
    ensures 1 <= |s|
    ensures n < 10 <==> |s| == 1
    ensures forall k :: 0 <= k < |s| ==> IsDigit(s[k])
    ensures s[0] == '0' <==> n == 0
  {
    if n < 10 then [DigitChar(n)] else NatToString(n / 10) + [DigitChar(n % 10)]
  }

  /** Reading the spelling back gives the number: the digits spell `n`. */
  lemma {:induction false} NatToStringRoundTrip(n: nat)
    ensures DecimalValue(NatToString(n)) == n
  {
    var s := NatToString(n);
    if n < 10 {
      assert s[..0] == [];
    } else {
      assert s[..|s| - 1] == NatToString(n / 10);
      NatToStringRoundTrip(n / 10);
    }
  }

  /** A digit string's value is never negative, and is positive when it starts with a
      non-zero digit. */
  lemma {:induction false} DecimalValueSign(s: string)
    requires forall k :: 0 <= k < |s| ==> IsDigit(s[k])
    ensures 0 <= DecimalValue(s)
    ensures 1 <= |s| && s[0] != '0' ==> 1 <= DecimalValue(s)
  {
    if |s| != 0 {
      var p := s[..|s| - 1];
      DecimalValueSign(p);
      if |p| == 0 {
        assert s[|s| - 1] == s[0];
      } else {
        assert p[0] == s[0];
      }
    }
  }

  /** Conversely, every digit string without a leading zero is the spelling of its value. */
  lemma {:induction false} DecimalValueSpelling(s: string)
    requires 1 <= |s|
    requires forall k :: 0 <= k < |s| ==> IsDigit(s[k])
    requires |s| == 1 || s[0] != '0'
    ensures 0 <= DecimalValue(s) && NatToString(DecimalValue(s)) == s
  {
    var p, d := s[..|s| - 1], DigitValue(s[|s| - 1]);
    DecimalValueSign(p);
    var v := DecimalValue(s);
    if |s| == 1 {
      assert p == [];
      assert NatToString(v) == [DigitChar(d)];
    } else {
      assert p[0] == s[0];
      assert v / 10 == DecimalValue(p) && v % 10 == d;
      DecimalValueSpelling(p);
    }
  }

  /** Distinct numbers have distinct spellings: a key suffix names exactly one position. */
  lemma NatToStringInjective(a: nat, b: nat)
    requires NatToString(a) == NatToString(b)
    ensures a == b
  {
    NatToStringRoundTrip(a);
    NatToStringRoundTrip(b);
  }
}
