/** Calendar dates as Python's `date` holds them, their ISO 8601 text
    (`date.isoformat()`, `datetime.isoformat()`), and the fact that the
    frontend's plain string comparison of those texts is the date order. */
module Dates {
  import opened Text

  /** Year, month and day, before the calendar rules are applied. */
  datatype CalendarDate = CalendarDate(year: int, month: int, day: int)

  /** A time of day on a date, before the clock rules are applied. */
  datatype Moment = Moment(date: Date, hour: int, minute: int, second: int, microsecond: int)

  predicate IsLeap(y: int) {
    (y % 4 == 0 && y % 100 != 0) || y % 400 == 0
  }

  function DaysInMonth(y: int, m: int): int {
    if m == 2 then (if IsLeap(y) then 29 else 28)
    else if m == 4 || m == 6 || m == 9 || m == 11 then 30
    else 31
  }

  /** The dates Python's `date` can represent. */
  predicate ValidDate(d: CalendarDate) {
    1 <= d.year <= 9999 && 1 <= d.month <= 12 && 1 <= d.day <= DaysInMonth(d.year, d.month)
  }

  predicate ValidDateTime(t: Moment) {
    0 <= t.hour < 24 && 0 <= t.minute < 60 && 0 <= t.second < 60
    && 0 <= t.microsecond < 1000000
  }

  /** A Python `date`: only real calendar days exist. */
  type Date = d: CalendarDate | ValidDate(d) witness CalendarDate(2000, 1, 1)

  /** A naive Python `datetime`. */
  type DateTime = t: Moment | ValidDateTime(t) witness Moment(CalendarDate(2000, 1, 1), 0, 0, 0, 0)

  /** `a < b` on dates. */
  predicate Before(a: Date, b: Date) {
    a.year < b.year || (a.year == b.year && (a.month < b.month || (a.month == b.month && a.day < b.day)))
  }

  function Pow10(w: nat): (r: nat)
    ensures r >= 1
  {
    if w == 0 then 1 else 10 * Pow10(w - 1)
  }

  /** `n` written with exactly `w` decimal digits, zero-padded on the left (`%0wd`). */
  function Pad(n: nat, w: nat): (r: string)
    ensures |r| == w
    ensures forall i :: 0 <= i < |r| ==> IsDigit(r[i])
  {
    if w == 0 then [] else Pad(n / 10, w - 1) + [Digit(n % 10)]
  }

  lemma DivModSplit(n: nat, m: nat, w: nat)
    requires w >= 1 && n < Pow10(w) && m < Pow10(w)
    ensures n / 10 < Pow10(w - 1) && m / 10 < Pow10(w - 1)
    ensures n < m <==> n / 10 < m / 10 || (n / 10 == m / 10 && n % 10 < m % 10)
    ensures n == m <==> n / 10 == m / 10 && n % 10 == m % 10
  {
  }

  /** Zero-padded numerals of one width compare as strings exactly as the numbers do. */
  lemma {:induction false} PadOrder(n: nat, m: nat, w: nat)
    requires n < Pow10(w) && m < Pow10(w)
    ensures LexLess(Pad(n, w), Pad(m, w)) <==> n < m
    ensures Pad(n, w) == Pad(m, w) <==> n == m
  {
    if w == 0 {
    } else {
      DivModSplit(n, m, w);
      PadOrder(n / 10, m / 10, w - 1);
      var c, d := Digit(n % 10), Digit(m % 10);
      LexLessConcat(Pad(n / 10, w - 1), [c], Pad(m / 10, w - 1), [d]);
      assert LexLess([c], [d]) <==> c < d by {
        assert [c][1..] == [] && [d][1..] == [];
      }
      assert DigitValue(c) == n % 10 && DigitValue(d) == m % 10;
      var pn, pm := Pad(n / 10, w - 1), Pad(m / 10, w - 1);
      assert Pad(n, w) == pn + [c] && Pad(m, w) == pm + [d];
      if pn + [c] == pm + [d] {
        assert pn == (pn + [c])[..w - 1] && pm == (pm + [d])[..w - 1];
        assert c == (pn + [c])[w - 1] && d == (pm + [d])[w - 1];
      }
    }
  }

  /** `date.isoformat()`: YYYY-MM-DD. */
  function IsoDate(d: Date): (r: string)
    ensures |r| == 10 && r[4] == '-' && r[7] == '-'
  {
    Pad(d.year, 4) + ("-" + (Pad(d.month, 2) + ("-" + Pad(d.day, 2))))
  }

  /** `datetime.isoformat()` on a naive datetime: the microseconds appear only when non-zero. */
  function IsoDateTime(t: DateTime): (r: string)
    ensures |r| == (if t.microsecond == 0 then 19 else 26)
    ensures r[..10] == IsoDate(t.date) && r[10] == 'T'
  {
    IsoDate(t.date) + "T" + Pad(t.hour, 2) + ":" + Pad(t.minute, 2) + ":" + Pad(t.second, 2)
    + (if t.microsecond == 0 then "" else "." + Pad(t.microsecond, 6))
  }

  lemma DashStep(x: string, y: string)
    ensures LexLess("-" + x, "-" + y) <==> LexLess(x, y)
  {
    assert ("-" + x)[1..] == x && ("-" + y)[1..] == y;
  }

  /** For valid dates, string order on the ISO texts is date order. */
  lemma {:induction false} IsoDateOrder(a: Date, b: Date)
    ensures LexLess(IsoDate(a), IsoDate(b)) <==> Before(a, b)
    ensures IsoDate(a) == IsoDate(b) <==> a == b
  {
    var ya, yb := Pad(a.year, 4), Pad(b.year, 4);
    var ma, mb := Pad(a.month, 2), Pad(b.month, 2);
    var da, db := Pad(a.day, 2), Pad(b.day, 2);
    PadOrder(a.year, b.year, 4);
    PadOrder(a.month, b.month, 2);
    PadOrder(a.day, b.day, 2);
    var ta, tb := "-" + (ma + ("-" + da)), "-" + (mb + ("-" + db));
    LexLessConcat(ya, ta, yb, tb);
    DashStep(ma + ("-" + da), mb + ("-" + db));
    LexLessConcat(ma, "-" + da, mb, "-" + db);
    DashStep(da, db);
    assert IsoDate(a) == ya + ta && IsoDate(b) == yb + tb;
    if IsoDate(a) == IsoDate(b) {
      assert ya == IsoDate(a)[..4] && yb == IsoDate(b)[..4];
      assert ma == IsoDate(a)[5..7] && mb == IsoDate(b)[5..7];
      assert da == IsoDate(a)[8..] && db == IsoDate(b)[8..];
    }
  }

  /** JavaScript's `end <= start` on ISO texts holds exactly when the end date is not after the start date. */
  lemma IsoDateNotAfter(e: Date, s: Date)
    ensures LexLessEq(IsoDate(e), IsoDate(s)) <==> !Before(s, e)
  {
    IsoDateOrder(e, s);
  }

  /** Cutting an ISO date or date-time text at its first 'T' leaves the ISO date. */
  lemma IsoDateCut(t: DateTime)
    ensures TakeUntil(IsoDate(t.date), 'T') == IsoDate(t.date)
    ensures TakeUntil(IsoDateTime(t), 'T') == IsoDate(t.date)
  {
    var d := IsoDate(t.date);
    assert 'T' !in d by {
      forall i | 0 <= i < |d| ensures d[i] != 'T' {
        assert d[i] == '-' || IsDigit(d[i]) by {
          if i < 4 { assert d[i] == Pad(t.date.year, 4)[i]; }
          else if 4 < i < 7 { assert d[i] == Pad(t.date.month, 2)[i - 5]; }
          else if i > 7 { assert d[i] == Pad(t.date.day, 2)[i - 8]; }
        }
      }
    }
    NoSepTakeAll(d, 'T');
    var full := IsoDateTime(t);
    assert full == d + "T" + full[11..];
    TakeUntilPrefix(d, 'T', full[11..]);
  }

  lemma {:induction false} NoSepTakeAll(s: string, sep: char)
    requires sep !in s
    ensures TakeUntil(s, sep) == s
  {
    if s != [] {
      NoSepTakeAll(s[1..], sep);
    }
  }
}
