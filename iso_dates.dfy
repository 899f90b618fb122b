/** ISO 8601 calendar dates written `YYYY-MM-DD`, the keys of the daily time
    series. The client sorts these keys as plain strings; this module shows
    that for such dates the string order is the order of the calendar. */
module IsoDates {
  import opened StringOrder

  predicate IsDigit(c: char) {
    '0' <= c <= '9'
  }

  predicate AllDigits(s: string) {
    forall i :: 0 <= i < |s| ==> IsDigit(s[i])
  }

  function DigitValue(c: char): nat
    requires IsDigit(c)
  {
    c as int - '0' as int
  }

  function Pow10(k: nat): nat {
    if k == 0 then 1 else 10 * Pow10(k - 1)
  }

  /** The number a string of decimal digits denotes, leading zeros allowed. */
  function Number(s: string): nat
    requires AllDigits(s)
  {
    if |s| == 0 then 0 else DigitValue(s[0]) * Pow10(|s| - 1) + Number(s[1..])
  }

  lemma MulLe(a: nat, b: nat, p: nat)
    requires a <= b
    ensures a * p <= b * p
  {
  }

  lemma MulSucc(a: nat, p: nat)
    ensures (a + 1) * p == a * p + p
  {
  }

  lemma {:induction false} NumberBound(s: string)
    requires AllDigits(s)
    ensures Number(s) < Pow10(|s|)
  {
    if |s| > 0 {
      var d, p := DigitValue(s[0]), Pow10(|s| - 1);
      NumberBound(s[1..]);
      assert Number(s) == d * p + Number(s[1..]);
      MulSucc(d, p);
      MulLe(d + 1, 10, p);
      assert Pow10(|s|) == 10 * p;
    }
  }

  /** On digit strings of one width, string order is numeric order and
      string equality is numeric equality. */
  lemma {:induction false} DigitsOrder(x: string, y: string)
    requires AllDigits(x) && AllDigits(y) && |x| == |y|
    ensures Less(x, y) <==> Number(x) < Number(y)
    ensures x == y <==> Number(x) == Number(y)
    decreases |x|
  {
    if |x| > 0 {
      var p := Pow10(|x| - 1);
      var dx, dy := DigitValue(x[0]), DigitValue(y[0]);
      var tx, ty := Number(x[1..]), Number(y[1..]);
      assert Number(x) == dx * p + tx;
      assert Number(y) == dy * p + ty;
      NumberBound(x[1..]);
      NumberBound(y[1..]);
      DigitsOrder(x[1..], y[1..]);
      assert x == [x[0]] + x[1..] && y == [y[0]] + y[1..];
      if dx < dy {
        LeadingDigitDecides(dx, dy, p, tx, ty);
        assert x[0] < y[0];
      } else if dy < dx {
        LeadingDigitDecides(dy, dx, p, ty, tx);
        assert y[0] < x[0];
      } else {
        assert x[0] == y[0];
      }
    }
  }

  /** A smaller leading digit gives a smaller number, whatever follows. */
  lemma LeadingDigitDecides(d1: nat, d2: nat, p: nat, t1: nat, t2: nat)
    requires d1 < d2 && t1 < p
    ensures d1 * p + t1 < d2 * p + t2
  {
    MulSucc(d1, p);
    MulLe(d1 + 1, d2, p);
  }

  /** Comparing two strings split at the same width: the heads decide unless
      they are equal. */
  lemma {:induction false} LessConcat(p: string, q: string, p2: string, q2: string)
    requires |p| == |p2|
    ensures Less(p + q, p2 + q2) <==> Less(p, p2) || (p == p2 && Less(q, q2))
    decreases |p|
  {
    if |p| == 0 {
      assert p + q == q && p2 + q2 == q2;
    } else {
      assert (p + q)[1..] == p[1..] + q && (p2 + q2)[1..] == p2[1..] + q2;
      LessConcat(p[1..], q, p2[1..], q2);
      assert p == [p[0]] + p[1..] && p2 == [p2[0]] + p2[1..];
    }
  }

  predicate IsIsoDate(s: string) {
    && |s| == 10
    && s[4] == '-' && s[7] == '-'
    && AllDigits(s[..4]) && AllDigits(s[5..7]) && AllDigits(s[8..])
  }

  function Year(s: string): nat
    requires IsIsoDate(s)
  {
    Number(s[..4])
  }

  function Month(s: string): nat
    requires IsIsoDate(s)
  {
    Number(s[5..7])
  }

  function Day(s: string): nat
    requires IsIsoDate(s)
  {
    Number(s[8..])
  }

  /** `a` is an earlier calendar day than `b`. */
  predicate Before(a: string, b: string)
    requires IsIsoDate(a) && IsIsoDate(b)
  {
    || Year(a) < Year(b)
    || (Year(a) == Year(b) && Month(a) < Month(b))
    || (Year(a) == Year(b) && Month(a) == Month(b) && Day(a) < Day(b))
  }

  /** Sorting ISO dates as strings sorts them chronologically. */
  lemma {:induction false} LexicographicIsChronological(a: string, b: string)
    requires IsIsoDate(a) && IsIsoDate(b)
    ensures Less(a, b) <==> Before(a, b)
  {
    DigitsOrder(a[..4], b[..4]);
    DigitsOrder(a[5..7], b[5..7]);
    DigitsOrder(a[8..], b[8..]);
    assert a[4..] == a[4..5] + a[5..] && b[4..] == b[4..5] + b[5..];
    assert a[5..] == a[5..7] + a[7..] && b[5..] == b[5..7] + b[7..];
    assert a[7..] == a[7..8] + a[8..] && b[7..] == b[7..8] + b[8..];
    assert a[4..5] == b[4..5] == a[7..8] == b[7..8] == "-";
    LessIrreflexive("-");
    LessConcat(a[7..8], a[8..], b[7..8], b[8..]);
    LessConcat(a[5..7], a[7..], b[5..7], b[7..]);
    LessConcat(a[4..5], a[5..], b[4..5], b[5..]);
    assert a == a[..4] + a[4..] && b == b[..4] + b[4..];
    LessConcat(a[..4], a[4..], b[..4], b[4..]);
  }
}
