/** Identifiers of the form `PREFIX-nnn`, built by every screen as
    `` `${PREFIX}-${String(list.length + 1).padStart(3, '0')}` ``. */
module SequenceIds {

  predicate IsDigit(c: char)
  {
    '0' <= c <= '9'
  }

  predicate AllDigits(s: string)
  {
    forall i :: 0 <= i < |s| ==> IsDigit(s[i])
  }

  function DigitChar(d: nat): (c: char)
    requires d < 10
    ensures IsDigit(c)
  {
    ('0' as int + d) as char
  }

  function DigitValue(c: char): nat
    requires IsDigit(c)
  {
    c as int - '0' as int
  }

  /** `String(n)` for a non-negative integer: its decimal digits, most
      significant first, with no leading zero. */
  function DecimalDigits(n: nat): (s: string)
    ensures 1 <= |s|
    ensures AllDigits(s)
    ensures 0 < n ==> s[0] != '0'
    decreases n
  {
    if n < 10 then [DigitChar(n)] else DecimalDigits(n / 10) + [DigitChar(n % 10)]
  }

  /** The number a string of decimal digits denotes. */
  function DecimalValue(s: string): nat
    requires AllDigits(s)
  {
    if |s| == 0 then 0 else 10 * DecimalValue(s[..|s| - 1]) + DigitValue(s[|s| - 1])
  }

  /** Reading back the digits of `n` gives `n`. */
  lemma {:induction false} DecimalRoundTrip(n: nat)
    ensures DecimalValue(DecimalDigits(n)) == n
    decreases n
  {
    if n >= 10 {
      var s := DecimalDigits(n);
      DecimalRoundTrip(n / 10);
      assert s[..|s| - 1] == DecimalDigits(n / 10);
    }
  }

  function Zeros(k: nat): (z: string)
    ensures |z| == k && AllDigits(z)
    ensures forall i :: 0 <= i < k ==> z[i] == '0'
  {
    seq(k, _ => '0')
  }

  /** Leading zeros do not change the value of a digit string. */
  lemma {:induction false} LeadingZerosIgnored(k: nat, s: string)
    requires AllDigits(s)
    ensures AllDigits(Zeros(k) + s)
    ensures DecimalValue(Zeros(k) + s) == DecimalValue(s)
    decreases |s|, k
  {
    var t := Zeros(k) + s;
    if |s| == 0 {
      assert t == Zeros(k);
      if k > 0 {
        assert t[..k - 1] == Zeros(k - 1);
        LeadingZerosIgnored(k - 1, s);
        assert Zeros(k - 1) + s == Zeros(k - 1);
      }
    } else {
      assert t[..|t| - 1] == Zeros(k) + s[..|s| - 1];
      LeadingZerosIgnored(k, s[..|s| - 1]);
    }
  }

  /** The decimal form of `n` has at most three digits exactly when `n` is
      below 1000. */
  lemma DigitCount(n: nat)
    ensures n < 1000 <==> |DecimalDigits(n)| <= 3
  {
    if n >= 10 {
      var m := n / 10;
      assert |DecimalDigits(n)| == |DecimalDigits(m)| + 1;
      if m >= 10 {
        var q := m / 10;
        assert |DecimalDigits(m)| == |DecimalDigits(q)| + 1;
        if q >= 10 {
          assert |DecimalDigits(q)| == |DecimalDigits(q / 10)| + 1;
        }
      }
    }
  }

  /** `s.padStart(width, fill)` for a one-character fill: the fill is put in
      front until the string is `width` long; longer strings are kept whole. */
  function PadStart(s: string, width: nat, fill: char): (r: string)
    ensures |r| == if |s| < width then width else |s|
    ensures r[|r| - |s|..] == s
    ensures forall i :: 0 <= i < |r| - |s| ==> r[i] == fill
  {
    if |s| >= width then s else seq(width - |s|, _ => fill) + s
  }

  /** `String(n).padStart(3, '0')`. */
  function PaddedNumber(n: nat): string
  {
    PadStart(DecimalDigits(n), 3, '0')
  }

  /** The padded number is all digits, is three long below 1000 and exactly
      the decimal form from 1000 on, and reads back as `n`. */
  lemma PaddedNumberFacts(n: nat)
    ensures |PaddedNumber(n)| == if n < 1000 then 3 else |DecimalDigits(n)|
    ensures AllDigits(PaddedNumber(n))
    ensures DecimalValue(PaddedNumber(n)) == n
  {
    var digits := DecimalDigits(n);
    var padded := PaddedNumber(n);
    DigitCount(n);
    DecimalRoundTrip(n);
    assert padded == Zeros(|padded| - |digits|) + digits;
    LeadingZerosIgnored(|padded| - |digits|, digits);
  }

  /** The id given to the entity added to a list of `count` entities. Its
      digits are never truncated, and they read back as `count + 1`. */
  function SequenceId(prefix: string, count: nat): (id: string)
    ensures |id| == |prefix| + 1 + (if count + 1 < 1000 then 3 else |DecimalDigits(count + 1)|)
    ensures id[..|prefix| + 1] == prefix + "-"
    ensures AllDigits(id[|prefix| + 1..])
    ensures DecimalValue(id[|prefix| + 1..]) == count + 1
  {
    var head := prefix + "-";
    var padded := PaddedNumber(count + 1);
    PaddedNumberFacts(count + 1);
    assert (head + padded)[..|head|] == head;
    assert (head + padded)[|head|..] == padded;
    head + padded
  }

  /** Two ids with the same prefix are equal only if they were generated for
      lists of the same length. */
  lemma SequenceIdInjective(prefix: string, a: nat, b: nat)
    ensures SequenceId(prefix, a) == SequenceId(prefix, b) <==> a == b
  {
  }

  /** The first id is `001`, and the thousandth entity gets four digits. */
  lemma SequenceIdExamples()
    ensures SequenceId("INV", 0) == "INV-001"
    ensures SequenceId("PAY", 41) == "PAY-042"
    ensures SequenceId("CUST", 999) == "CUST-1000"
  {
    assert DecimalDigits(1) == "1";
    assert PaddedNumber(1) == "001";
    assert DecimalDigits(4) == "4";
    assert DecimalDigits(42) == "42";
    assert PaddedNumber(42) == "042";
    assert DecimalDigits(10) == "10";
    assert DecimalDigits(100) == "100";
    assert DecimalDigits(1000) == "1000";
    assert PaddedNumber(1000) == "1000";
  }
}
