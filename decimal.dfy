/**
 * Decimal text of counters, as Python's str() writes a non-negative integer,
 * and the disk-activity key the HTTP script builds by concatenating the
 * decimal texts of the cumulative read and write byte counters.
 */
module Decimal {

  predicate IsDigit(c: char)
  {
    '0' <= c <= '9'
  }

  predicate AllDigits(s: string)
  {
    forall i :: 0 <= i < |s| ==> IsDigit(s[i])
  }

  function DigitChar(d: nat): (c: char)
    requires d < 10
    ensures IsDigit(c)
  {
    ('0' as int + d) as char
  }

  function DigitValue(c: char): (d: nat)
    requires IsDigit(c)
    ensures d < 10
  {
    c as int - '0' as int
  }

  /** str(n): the shortest decimal text of n, with no leading zero except for 0 itself. */
  function DecimalString(n: nat): (s: string)
    ensures |s| >= 1
    ensures AllDigits(s)
    ensures s[0] == '0' ==> n == 0
  {
    if n < 10 then [DigitChar(n)]
    else DecimalString(n / 10) + [DigitChar(n % 10)]
  }

  /** The integer a decimal text denotes. */
  function ParseDecimal(s: string): nat
    requires AllDigits(s)
  {
    if s == [] then 0
    else ParseDecimal(s[..|s| - 1]) * 10 + DigitValue(s[|s| - 1])
  }

  /** Reading back the decimal text of n gives n. */
  lemma {:induction false} ParseDecimalString(n: nat)
    ensures ParseDecimal(DecimalString(n)) == n
  {
    var s := DecimalString(n);
    if n >= 10 {
      ParseDecimalString(n / 10);
      assert s[..|s| - 1] == DecimalString(n / 10);
    }
  }

  /** Distinct counters have distinct decimal texts. */
  lemma DecimalStringInjective(a: nat, b: nat)
    requires DecimalString(a) == DecimalString(b)
    ensures a == b
  {
    ParseDecimalString(a);
    ParseDecimalString(b);
  }

  /** A larger counter never has a shorter decimal text. */
  lemma {:induction false} DecimalLengthMonotone(a: nat, b: nat)
    requires a <= b
    ensures |DecimalString(a)| <= |DecimalString(b)|
  {
    if a >= 10 {
      DecimalLengthMonotone(a / 10, b / 10);
    }
  }

  /** The stored disk-activity value: str(readBytes) + str(writeBytes). */
  function ActivityKey(readBytes: nat, writeBytes: nat): (key: string)
    ensures AllDigits(key) && '\n' !in key
  {
    DecimalString(readBytes) + DecimalString(writeBytes)
  }

  /** The key is "00" exactly when both counters are zero. */
  lemma ZeroKey(readBytes: nat, writeBytes: nat)
    ensures ActivityKey(readBytes, writeBytes) == "00" <==> readBytes == 0 && writeBytes == 0
  {
    var r, w := DecimalString(readBytes), DecimalString(writeBytes);
    if ActivityKey(readBytes, writeBytes) == "00" {
      var key := ActivityKey(readBytes, writeBytes);
      assert |r| == 1 && |w| == 1;
      assert r[0] == key[0] == '0';
      assert w[0] == key[1] == '0';
    }
  }

  /**
   * For cumulative counters that never decrease, the concatenated key is
   * unchanged exactly when neither counter moved: concatenating the texts
   * instead of adding the numbers loses no change in activity.
   */
  lemma SameKeyIffNoChange(r1: nat, w1: nat, r2: nat, w2: nat)
    requires r1 <= r2 && w1 <= w2
    ensures ActivityKey(r1, w1) == ActivityKey(r2, w2) <==> r1 == r2 && w1 == w2
  {
    if ActivityKey(r1, w1) == ActivityKey(r2, w2) {
      var a1, b1, a2, b2 := DecimalString(r1), DecimalString(w1), DecimalString(r2), DecimalString(w2);
      DecimalLengthMonotone(r1, r2);
      DecimalLengthMonotone(w1, w2);
      assert |a1| == |a2|;
      assert a1 == (a1 + b1)[..|a1|] == (a2 + b2)[..|a2|] == a2;
      assert b1 == (a1 + b1)[|a1|..] == (a2 + b2)[|a2|..] == b2;
      DecimalStringInjective(r1, r2);
      DecimalStringInjective(w1, w2);
    }
  }

  /** Counters that go down (a reset) can collide: (1, 23) and (12, 3) store the same key. */
  lemma ResetCountersCanCollide()
    ensures ActivityKey(1, 23) == ActivityKey(12, 3)
  {
    assert DecimalString(23) == "23";
    assert DecimalString(12) == "12";
  }
}
