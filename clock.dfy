/** Calendar values stand in for `datetime.now()` / `datetime.utcnow()`, and
    their text forms: `str(date)` ("YYYY-MM-DD") and
    `strftime('%Y%m%d-%H%M%S')`. */
module Clock {

  datatype Date = Date(year: int, month: int, day: int)

  datatype DateTime = DateTime(date: Date, hour: int, minute: int, second: int)

  /** The ranges Python's `date` and `datetime` accept (month lengths are not checked). */
  predicate ValidDate(d: Date) {
    1 <= d.year <= 9999 && 1 <= d.month <= 12 && 1 <= d.day <= 31
  }

  predicate ValidDateTime(t: DateTime) {
    ValidDate(t.date) && 0 <= t.hour < 24 && 0 <= t.minute < 60 && 0 <= t.second < 60
  }

  function Pow10(w: nat): (r: nat)
    ensures r >= 1
  {
    if w == 0 then 1 else 10 * Pow10(w - 1)
  }

  function DigitChar(d: nat): char
    requires d < 10
  {
    ('0' as int + d) as char
  }

  function DigitValue(c: char): nat {
    if '0' <= c <= '9' then (c as int - '0' as int) as nat else 0
  }

  /** `n` written in exactly `w` decimal digits, zero-padded (Python's `%0wd`). */
  function Fixed(n: nat, w: nat): (r: string)
    requires n < Pow10(w)
    ensures |r| == w
    ensures forall k :: 0 <= k < |r| ==> '0' <= r[k] <= '9'
  {
    if w == 0 then ""
    else Fixed(n / 10, w - 1) + [DigitChar(n % 10)]
  }

  /** The number a string of decimal digits denotes. */
  function Value(s: string): nat {
    if s == [] then 0 else 10 * Value(s[..|s| - 1]) + DigitValue(s[|s| - 1])
  }

  /** Reading a fixed-width number back gives the number. */
  lemma {:induction false} ValueFixed(n: nat, w: nat)
    requires n < Pow10(w)
    ensures Value(Fixed(n, w)) == n
  {
    if w > 0 {
      var q, d := n / 10, n % 10;
      ValueFixed(q, w - 1);
      var s := Fixed(n, w);
      assert s == Fixed(q, w - 1) + [DigitChar(d)];
      assert s[..|s| - 1] == Fixed(q, w - 1);
      assert s[|s| - 1] == DigitChar(d);
      assert DigitValue(DigitChar(d)) == d;
      assert n == 10 * q + d;
    }
  }

  /** The decimal digits of `n`, without leading zeros. */
  function Digits(n: nat): (r: string)
    ensures |r| >= 1
    ensures forall k :: 0 <= k < |r| ==> '0' <= r[k] <= '9'
  {
    if n < 10 then [DigitChar(n)] else Digits(n / 10) + [DigitChar(n % 10)]
  }

  /** Python's `str(n)` for an integer. */
  function Decimal(n: int): string {
    if n < 0 then "-" + Digits(-n) else Digits(n)
  }

  /** Reading the digits back gives the number; they start with a zero
      only for zero itself. */
  lemma {:induction false} DigitsValue(n: nat)
    ensures Value(Digits(n)) == n
    ensures Digits(n)[0] == '0' <==> n == 0
  {
    if n >= 10 {
      DigitsValue(n / 10);
      var s := Digits(n);
      assert s[..|s| - 1] == Digits(n / 10);
      assert s[0] == Digits(n / 10)[0];
      assert DigitValue(DigitChar(n % 10)) == n % 10;
    } else {
      assert Digits(n)[..0] == [];
    }
  }

  /** The text starts with a minus sign exactly for negative numbers. */
  lemma DecimalSign(n: int)
    ensures |Decimal(n)| >= 1 && (Decimal(n)[0] == '-' <==> n < 0)
  {
  }

  /** `str` is injective on integers. */
  lemma DecimalInjective(a: int, b: int)
    ensures Decimal(a) == Decimal(b) <==> a == b
  {
    if Decimal(a) == Decimal(b) {
      DecimalSign(a);
      DecimalSign(b);
      if a < 0 {
        NegativeDigits(a);
        NegativeDigits(b);
        SameDigits(-a, -b);
      } else {
        SameDigits(a, b);
      }
    }
  }

  /** A negative number's text is a minus sign and its magnitude's digits. */
  lemma NegativeDigits(n: int)
    requires n < 0
    ensures Decimal(n)[1..] == Digits(-n)
  {
    assert ("-" + Digits(-n))[1..] == Digits(-n);
  }

  lemma SameDigits(a: nat, b: nat)
    requires Digits(a) == Digits(b)
    ensures a == b
  {
    DigitsValue(a);
    DigitsValue(b);
  }

  /** `str(date)`: the ISO form YYYY-MM-DD. */
  function IsoDate(d: Date): (r: string)
    requires ValidDate(d)
    ensures |r| == 10 && r[4] == '-' && r[7] == '-'
  {
    Fixed(d.year, 4) + "-" + Fixed(d.month, 2) + "-" + Fixed(d.day, 2)
  }

  /** Three numbers written side by side, the first in `wa` digits, the others in two. */
  function Triple(a: nat, wa: nat, b: nat, c: nat): (r: string)
    requires a < Pow10(wa) && b < 100 && c < 100
    ensures |r| == wa + 4
  {
    assert Pow10(2) == 100;
    Fixed(a, wa) + Fixed(b, 2) + Fixed(c, 2)
  }

  /** `strftime('%Y%m%d-%H%M%S')`. */
  function CompactStamp(t: DateTime): (r: string)
    requires ValidDateTime(t)
    ensures |r| == 15 && r[8] == '-'
  {
    Triple(t.date.year, 4, t.date.month, t.date.day) + "-" + Triple(t.hour, 2, t.minute, t.second)
  }

  function ParseIsoDate(s: string): Date
    requires |s| == 10
  {
    Date(Value(s[0..4]), Value(s[5..7]), Value(s[8..10]))
  }

  function ParseCompactStamp(s: string): DateTime
    requires |s| == 15
  {
    DateTime(Date(Value(s[0..4]), Value(s[4..6]), Value(s[6..8])),
             Value(s[9..11]), Value(s[11..13]), Value(s[13..15]))
  }

  lemma IsoDateRoundTrip(d: Date)
    requires ValidDate(d)
    ensures ParseIsoDate(IsoDate(d)) == d
  {
    var s := IsoDate(d);
    assert s[0..4] == Fixed(d.year, 4);
    assert s[5..7] == Fixed(d.month, 2);
    assert s[8..10] == Fixed(d.day, 2);
    ValueFixed(d.year, 4);
    ValueFixed(d.month, 2);
    ValueFixed(d.day, 2);
  }

  lemma Pieces(x: string, y: string, z: string)
    ensures var s := x + y + z;
      s[0..|x|] == x && s[|x|..|x| + |y|] == y && s[|x| + |y|..|x| + |y| + |z|] == z
  {
  }

  /** Three fixed-width fields side by side read back as the three numbers. */
  lemma ReadThree(a: nat, wa: nat, b: nat, c: nat)
    requires a < Pow10(wa) && b < 100 && c < 100
    ensures var s := Triple(a, wa, b, c);
      Value(s[0..wa]) == a && Value(s[wa..wa + 2]) == b && Value(s[wa + 2..wa + 4]) == c
  {
    assert Pow10(2) == 100;
    Pieces(Fixed(a, wa), Fixed(b, 2), Fixed(c, 2));
    ValueFixed(a, wa);
    ValueFixed(b, 2);
    ValueFixed(c, 2);
  }

  lemma CompactStampRoundTrip(t: DateTime)
    requires ValidDateTime(t)
    ensures ParseCompactStamp(CompactStamp(t)) == t
  {
    assert Pow10(4) == 10000;
    var ymd := Triple(t.date.year, 4, t.date.month, t.date.day);
    var hms := Triple(t.hour, 2, t.minute, t.second);
    ReadThree(t.date.year, 4, t.date.month, t.date.day);
    ReadThree(t.hour, 2, t.minute, t.second);
    StampPieces(ymd, hms);
  }

  /** The fields of a compact stamp sit at fixed places around its dash. */
  lemma StampPieces(ymd: string, hms: string)
    requires |ymd| == 8 && |hms| == 6
    ensures var s := ymd + "-" + hms;
      s[0..4] == ymd[0..4] && s[4..6] == ymd[4..6] && s[6..8] == ymd[6..8] &&
      s[9..11] == hms[0..2] && s[11..13] == hms[2..4] && s[13..15] == hms[4..6]
  {
  }

  /** Two calendar dates have the same text exactly when they are the same date. */
  lemma IsoDateInjective(a: Date, b: Date)
    requires ValidDate(a) && ValidDate(b)
    ensures IsoDate(a) == IsoDate(b) <==> a == b
  {
    if IsoDate(a) == IsoDate(b) {
      IsoDateRoundTrip(a);
      IsoDateRoundTrip(b);
    }
  }

  lemma CompactStampInjective(a: DateTime, b: DateTime)
    requires ValidDateTime(a) && ValidDateTime(b)
    ensures CompactStamp(a) == CompactStamp(b) <==> a == b
  {
    if CompactStamp(a) == CompactStamp(b) {
      CompactStampRoundTrip(a);
      CompactStampRoundTrip(b);
    }
  }
}
