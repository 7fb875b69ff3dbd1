/** Premium expiry dates in app_enhanced.py are stored as 'YYYY-MM-DD'
    strings and compared with today's date, formatted the same way, by
    Python's string comparison. This module shows that for such strings the
    comparison is the order of (year, month, day), which is why the rest of
    the model compares day numbers instead. */
module IsoDates {

  /** Python's `a < b` on strings: code point by code point, a proper
      prefix before the longer string. */
  predicate Less(a: string, b: string)
  {
    if |a| == 0 then |b| > 0
    else if |b| == 0 then false
    else if a[0] != b[0] then a[0] < b[0]
    else Less(a[1..], b[1..])
  }

  function Pow10(w: nat): nat
    ensures Pow10(w) >= 1
  {
    if w == 0 then 1 else 10 * Pow10(w - 1)
  }

  function DigitChar(d: nat): char
    requires d < 10
  {
    ('0' as int + d) as char
  }

  /** `n` written with exactly `w` decimal digits, zero-padded on the left
      (`%Y`, `%m` and `%d` of `strftime` for four and two digits). */
  function Digits(n: nat, w: nat): (s: string)
    ensures |s| == w
  {
    if w == 0 then "" else Digits(n / 10, w - 1) + [DigitChar(n % 10)]
  }

  /** A date as `strftime('%Y-%m-%d')` writes it. */
  function IsoDate(year: nat, month: nat, day: nat): (s: string)
    ensures |s| == 10
  {
    Digits(year, 4) + "-" + Digits(month, 2) + "-" + Digits(day, 2)
  }

  /** The order of (year, month, day) triples. */
  predicate Before(y1: nat, m1: nat, d1: nat, y2: nat, m2: nat, d2: nat)
  {
    y1 < y2 || (y1 == y2 && (m1 < m2 || (m1 == m2 && d1 < d2)))
  }

  /** Comparing two concatenations whose first parts have the same length
      compares the first parts, then the second. */
  lemma {:induction false} LessConcat(a1: string, a2: string, b1: string, b2: string)
    requires |a1| == |b1|
    ensures Less(a1 + a2, b1 + b2) <==> Less(a1, b1) || (a1 == b1 && Less(a2, b2))
  {
    if |a1| > 0 {
      assert (a1 + a2)[0] == a1[0] && (b1 + b2)[0] == b1[0];
      assert (a1 + a2)[1..] == a1[1..] + a2 && (b1 + b2)[1..] == b1[1..] + b2;
      LessConcat(a1[1..], a2, b1[1..], b2);
      if a1[0] == b1[0] && a1[1..] == b1[1..] {
        assert a1 == [a1[0]] + a1[1..] && b1 == [b1[0]] + b1[1..];
      }
    } else {
      assert a1 + a2 == a2 && b1 + b2 == b2;
    }
  }

  /** Two one-character strings compare as their characters. */
  lemma LessChar(c: char, d: char)
    ensures Less([c], [d]) <==> c < d
  {
    assert [c][1..] == [] && [d][1..] == [];
  }

  /** Numbers that fit in `w` digits have different digit strings. */
  lemma {:induction false} DigitsInjective(x: nat, y: nat, w: nat)
    requires x < Pow10(w) && y < Pow10(w)
    ensures Digits(x, w) == Digits(y, w) <==> x == y
  {
    if w > 0 && Digits(x, w) == Digits(y, w) {
      assert Digits(x, w)[w - 1] == DigitChar(x % 10) && Digits(y, w)[w - 1] == DigitChar(y % 10);
      assert Digits(x, w)[..w - 1] == Digits(x / 10, w - 1) && Digits(y, w)[..w - 1] == Digits(y / 10, w - 1);
      DigitsInjective(x / 10, y / 10, w - 1);
    }
  }

  /** For numbers that fit in `w` digits, the digit strings compare as the
      numbers do. */
  lemma {:induction false} DigitsOrder(x: nat, y: nat, w: nat)
    requires x < Pow10(w) && y < Pow10(w)
    ensures Less(Digits(x, w), Digits(y, w)) <==> x < y
  {
    if w > 0 {
      LessConcat(Digits(x / 10, w - 1), [DigitChar(x % 10)], Digits(y / 10, w - 1), [DigitChar(y % 10)]);
      DigitsOrder(x / 10, y / 10, w - 1);
      DigitsInjective(x / 10, y / 10, w - 1);
      LessChar(DigitChar(x % 10), DigitChar(y % 10));
    }
  }

  /** The expiry test `today > premium_until` on formatted dates of years
      below 10000 is the order of the dates themselves. */
  lemma {:induction false} IsoDateOrder(y1: nat, m1: nat, d1: nat, y2: nat, m2: nat, d2: nat)
    requires y1 < 10000 && y2 < 10000 && m1 < 100 && m2 < 100 && d1 < 100 && d2 < 100
    ensures Less(IsoDate(y1, m1, d1), IsoDate(y2, m2, d2)) <==> Before(y1, m1, d1, y2, m2, d2)
  {
    assert Pow10(2) == 100 && Pow10(4) == 10000;
    var a1, b1 := Digits(y1, 4) + "-" + Digits(m1, 2) + "-", Digits(y2, 4) + "-" + Digits(m2, 2) + "-";
    LessConcat(a1, Digits(d1, 2), b1, Digits(d2, 2));
    var a2, b2 := Digits(y1, 4) + "-", Digits(y2, 4) + "-";
    LessConcat(a2 + Digits(m1, 2), "-", b2 + Digits(m2, 2), "-");
    LessConcat(a2, Digits(m1, 2), b2, Digits(m2, 2));
    LessConcat(Digits(y1, 4), "-", Digits(y2, 4), "-");
    LessChar('-', '-');
    DigitsOrder(y1, y2, 4);
    DigitsOrder(m1, m2, 2);
    DigitsOrder(d1, d2, 2);
    DigitsInjective(y1, y2, 4);
    DigitsInjective(m1, m2, 2);
    if a1 == b1 {
      assert a1[..4] == Digits(y1, 4) && b1[..4] == Digits(y2, 4);
      assert a1[5..7] == Digits(m1, 2) && b1[5..7] == Digits(m2, 2);
    }
    if a2 + Digits(m1, 2) == b2 + Digits(m2, 2) {
      assert (a2 + Digits(m1, 2))[..4] == Digits(y1, 4) && (b2 + Digits(m2, 2))[..4] == Digits(y2, 4);
      assert (a2 + Digits(m1, 2))[5..] == Digits(m1, 2) && (b2 + Digits(m2, 2))[5..] == Digits(m2, 2);
    }
    if a2 == b2 {
      assert a2[..4] == Digits(y1, 4) && b2[..4] == Digits(y2, 4);
    }
  }
}
