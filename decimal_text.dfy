/**
 * Decimal text as the front end writes and reads it: `String(n)` for a
 * non-negative integer, `padStart`, and the value of a run of ASCII digits
 * (the `\d` class of a regular expression).
 */
module DecimalText {

  /** `\d`: an ASCII digit. */
  predicate IsDigit(c: char) { '0' <= c <= '9' }

  predicate AllDigits(s: string) {
    forall i :: 0 <= i < |s| ==> IsDigit(s[i])
  }

  predicate NoDash(s: string) {
    forall i :: 0 <= i < |s| ==> s[i] != '-'
  }

  function DigitValue(c: char): int { c as int - '0' as int }

  function DigitChar(d: int): (c: char)
    requires 0 <= d <= 9
    ensures IsDigit(c) && DigitValue(c) == d
  {
    ('0' as int + d) as char
  }

  /** The number a run of digits denotes, most significant digit first. */
  function DigitsValue(ds: string): (n: nat)
    requires AllDigits(ds)
  {
    if ds == [] then 0 else 10 * DigitsValue(ds[..|ds| - 1]) + DigitValue(ds[|ds| - 1])
  }

  /** Ten to the power `k`. */
  function Pow10(k: nat): (p: nat)
    ensures p >= 1
  {
    if k == 0 then 1 else 10 * Pow10(k - 1)
  }

  /** `String(n)` for a non-negative integer: its shortest decimal text. */
  function NatText(n: nat): (s: string)
    ensures 1 <= |s| && AllDigits(s) && NoDash(s)
    ensures n < 10 <==> |s| == 1
  {
    if n < 10 then [DigitChar(n)] else NatText(n / 10) + [DigitChar(n % 10)]
  }

  /** Reading back the text of a number gives the number, and it has no leading zero. */
  lemma {:induction false} NatTextRoundTrip(n: nat)
    ensures DigitsValue(NatText(n)) == n
    ensures NatText(n)[0] == '0' ==> n == 0
  {
    if n >= 10 {
      NatTextRoundTrip(n / 10);
      var s := NatText(n);
      assert s[..|s| - 1] == NatText(n / 10);
    }
  }

  /** Different numbers are written differently. */
  lemma NatTextInjective(a: nat, b: nat)
    requires NatText(a) == NatText(b)
    ensures a == b
  {
    NatTextRoundTrip(a);
    NatTextRoundTrip(b);
  }

  /** `s.padStart(width, fill)` with a one-character fill. */
  function PadStart(s: string, width: nat, fill: char): (r: string)
    ensures |r| == if |s| >= width then |s| else width
    ensures r[|r| - |s|..] == s
    ensures forall i :: 0 <= i < |r| - |s| ==> r[i] == fill
  {
    if |s| >= width then s else seq(width - |s|, _ => fill) + s
  }

  /** A number from 10 on is at least two characters long, so padding to two leaves it alone. */
  lemma NatTextWide(n: nat)
    requires n >= 10
    ensures PadStart(NatText(n), 2, '0') == NatText(n)
  {
    var s := NatText(n);
    assert |s| >= 2;
  }

  /** Leading zeros do not change the value of a run of digits. */
  lemma {:induction false} LeadingZerosValue(zeros: string, ds: string)
    requires forall i :: 0 <= i < |zeros| ==> zeros[i] == '0'
    requires AllDigits(ds)
    ensures AllDigits(zeros + ds) && DigitsValue(zeros + ds) == DigitsValue(ds)
    decreases |ds|
  {
    var s := zeros + ds;
    if ds == [] {
      LeadingZerosOnly(zeros);
      assert s == zeros;
    } else {
      LeadingZerosValue(zeros, ds[..|ds| - 1]);
      assert s[..|s| - 1] == zeros + ds[..|ds| - 1];
    }
  }

  lemma {:induction false} LeadingZerosOnly(zeros: string)
    requires forall i :: 0 <= i < |zeros| ==> zeros[i] == '0'
    ensures AllDigits(zeros) && DigitsValue(zeros) == 0
  {
    if zeros != [] {
      LeadingZerosOnly(zeros[..|zeros| - 1]);
    }
  }

  /** Padding a number's text with zeros keeps its value. */
  lemma PadStartValue(n: nat, width: nat)
    ensures AllDigits(PadStart(NatText(n), width, '0'))
    ensures DigitsValue(PadStart(NatText(n), width, '0')) == n
  {
    var s := NatText(n);
    var r := PadStart(s, width, '0');
    var k := |r| - |s|;
    assert r == r[..k] + s;
    LeadingZerosValue(r[..k], s);
    NatTextRoundTrip(n);
  }

  /** The position of the first dash, or the length when there is none. */
  function FirstDash(s: string): (k: nat)
    ensures k <= |s|
  {
    if s == [] then 0 else if s[0] == '-' then 0 else 1 + FirstDash(s[1..])
  }

  lemma {:induction false} FirstDashAfter(a: string, rest: string)
    requires NoDash(a) && rest != [] && rest[0] == '-'
    ensures FirstDash(a + rest) == |a|
  {
    if a != [] {
      assert (a + rest)[1..] == a[1..] + rest;
      FirstDashAfter(a[1..], rest);
    } else {
      assert a + rest == rest;
    }
  }

  /**
   * Joining two texts with a dash can be undone when the first has no dash:
   * the first dash marks the join.
   */
  lemma DashJoinSplit(a: string, p: string, b: string, q: string)
    requires NoDash(a) && NoDash(b)
    requires a + "-" + p == b + "-" + q
    ensures a == b && p == q
  {
    var s := a + "-" + p;
    FirstDashAfter(a, "-" + p);
    FirstDashAfter(b, "-" + q);
    assert a + "-" + p == a + ("-" + p);
    assert b + "-" + q == b + ("-" + q);
    assert a == s[..|a|] == b;
    assert p == s[|a| + 1..] == q;
  }
}
