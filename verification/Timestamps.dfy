/**
  UTC date-times as the execution log stores them: the text of `datetime.isoformat()`, compared byte by byte.

  The text leaves out the fraction when it is zero, so it is not of fixed width; it sorts chronologically
  all the same, because '+' sorts before '.'.
 */
module Timestamps {

  /** A UTC `datetime`; Python allows the years 1 to 9999. */
  datatype Time = Time(year: nat, month: nat, day: nat, hour: nat, minute: nat, second: nat, micro: nat)

  predicate IsLeap(y: nat) {
    y % 4 == 0 && (y % 100 != 0 || y % 400 == 0)
  }

  function DaysInMonth(y: nat, m: nat): nat {
    if m == 2 then (if IsLeap(y) then 29 else 28)
    else if m == 4 || m == 6 || m == 9 || m == 11 then 30 else 31
  }

  predicate Valid(t: Time) {
    && 1 <= t.year <= 9999 && 1 <= t.month <= 12 && 1 <= t.day <= DaysInMonth(t.year, t.month)
    && t.hour < 24 && t.minute < 60 && t.second < 60 && t.micro < 1_000_000
  }

  /** What a `datetime` can be. */
  type Moment = t: Time | Valid(t) witness Time(1, 1, 1, 0, 0, 0, 0)

  // ---- the order of instants ---------------------------------------------------------------------

  function DaysBeforeMonth(y: nat, m: nat): nat {
    if m <= 1 then 0 else DaysBeforeMonth(y, m - 1) + DaysInMonth(y, m - 1)
  }

  function DaysBeforeYear(y: nat): nat {
    if y <= 1 then 0 else DaysBeforeYear(y - 1) + DaysBeforeMonth(y - 1, 13)
  }

  function Seconds(t: Time): int {
    ((DaysBeforeYear(t.year) + DaysBeforeMonth(t.year, t.month) + t.day) * 24 + t.hour) * 3600 + t.minute * 60 + t.second
  }

  /** Microseconds since the start of the calendar. */
  function Instant(t: Time): int {
    Seconds(t) * 1_000_000 + t.micro
  }

  lemma {:induction false} MonthsAddUp(y: nat, m: nat, n: nat)
    requires 1 <= m < n
    ensures DaysBeforeMonth(y, m) + DaysInMonth(y, m) <= DaysBeforeMonth(y, n)
    decreases n
  {
    if m + 1 < n { MonthsAddUp(y, m, n - 1); }
  }

  lemma {:induction false} YearsAddUp(y: nat, z: nat)
    requires 1 <= y < z
    ensures DaysBeforeYear(y) + DaysBeforeMonth(y, 13) <= DaysBeforeYear(z)
    decreases z
  {
    if y + 1 < z { YearsAddUp(y, z - 1); }
  }

  /** Field by field, most significant first. */
  predicate Earlier(a: Time, b: Time) {
    a.year < b.year || (a.year == b.year && (
    a.month < b.month || (a.month == b.month && (
    a.day < b.day || (a.day == b.day && (
    a.hour < b.hour || (a.hour == b.hour && (
    a.minute < b.minute || (a.minute == b.minute && (
    a.second < b.second || (a.second == b.second &&
    a.micro < b.micro)))))))))))
  }

  lemma EarlierDay(a: Time, b: Time)
    requires Valid(a) && Valid(b)
    requires a.year < b.year || (a.year == b.year && (a.month < b.month || (a.month == b.month && a.day < b.day)))
    ensures DaysBeforeYear(a.year) + DaysBeforeMonth(a.year, a.month) + a.day
         < DaysBeforeYear(b.year) + DaysBeforeMonth(b.year, b.month) + b.day
  {
    if a.year < b.year {
      YearsAddUp(a.year, b.year);
      MonthsAddUp(a.year, a.month, 13);
    } else if a.month < b.month {
      MonthsAddUp(a.year, a.month, b.month);
    }
  }

  lemma EarlierInstant(a: Time, b: Time)
    requires Valid(a) && Valid(b) && Earlier(a, b)
    ensures Instant(a) < Instant(b)
  {
    if a.year != b.year || a.month != b.month || a.day != b.day {
      EarlierDay(a, b);
    }
  }

  /** Comparing fields is comparing instants. */
  lemma EarlierIsByInstant(a: Time, b: Time)
    requires Valid(a) && Valid(b)
    ensures Earlier(a, b) <==> Instant(a) < Instant(b)
  {
    if Earlier(a, b) { EarlierInstant(a, b); }
    if Earlier(b, a) { EarlierInstant(b, a); }
  }

  // ---- the order of texts ------------------------------------------------------------------------

  /** Byte order, a proper prefix first. */
  predicate Before(a: string, b: string) {
    b != [] && (a == [] || a[0] < b[0] || (a[0] == b[0] && Before(a[1..], b[1..])))
  }

  predicate NotAfter(a: string, b: string) {
    !Before(b, a)
  }

  /** The decimal digits of n, zero-padded to the given width. */
  function Digits(n: nat, width: nat): (s: string)
    ensures |s| == width
  {
    if width == 0 then "" else Digits(n / 10, width - 1) + [(n % 10) as char + '0']
  }

  function Fraction(micro: nat): string {
    if micro == 0 then "" else "." + Digits(micro, 6)
  }

  /** `datetime.isoformat()` of a UTC date-time. */
  function Iso(t: Time): string {
    Digits(t.year, 4) + ("-" + (Digits(t.month, 2) + ("-" + (Digits(t.day, 2) + ("T" + (Digits(t.hour, 2) + (":" +
    (Digits(t.minute, 2) + (":" + (Digits(t.second, 2) + (Fraction(t.micro) + "+00:00")))))))))))
  }

  function Power10(width: nat): nat {
    if width == 0 then 1 else 10 * Power10(width - 1)
  }

  lemma SamePrefix(p: string, a: string, b: string)
    ensures Before(p + a, p + b) <==> Before(a, b)
  {
    if p == [] {
      assert p + a == a && p + b == b;
    } else {
      SamePrefix(p[1..], a, b);
      assert (p + a)[1..] == p[1..] + a && (p + b)[1..] == p[1..] + b;
    }
  }

  /** Padded numbers compare like numbers, whatever follows. */
  lemma {:induction false} DigitsOrder(n: nat, m: nat, width: nat, a: string, b: string)
    requires n < Power10(width) && m < Power10(width)
    ensures Before(Digits(n, width) + a, Digits(m, width) + b) <==> n < m || (n == m && Before(a, b))
    decreases width
  {
    if width == 0 {
      assert Digits(n, 0) + a == a && Digits(m, 0) + b == b;
    } else {
      var c, d := [(n % 10) as char + '0'], [(m % 10) as char + '0'];
      DigitsOrder(n / 10, m / 10, width - 1, c + a, d + b);
      assert Digits(n, width) + a == Digits(n / 10, width - 1) + (c + a);
      assert Digits(m, width) + b == Digits(m / 10, width - 1) + (d + b);
      assert (c + a)[1..] == a && (d + b)[1..] == b;
    }
  }

  lemma FieldOrder(n: nat, m: nat, width: nat, sep: string, a: string, b: string)
    requires n < Power10(width) && m < Power10(width)
    ensures Before(Digits(n, width) + (sep + a), Digits(m, width) + (sep + b)) <==> n < m || (n == m && Before(a, b))
  {
    DigitsOrder(n, m, width, sep + a, sep + b);
    SamePrefix(sep, a, b);
  }

  const ZONE := "+00:00"

  /** The fraction may be missing: then '+' stands where a '.' would, and sorts first. */
  lemma FractionOrder(n: nat, m: nat)
    requires n < 1_000_000 && m < 1_000_000
    ensures Before(Fraction(n) + ZONE, Fraction(m) + ZONE) <==> n < m
  {
    if n > 0 && m > 0 {
      assert Fraction(n) + ZONE == "." + (Digits(n, 6) + ZONE) && Fraction(m) + ZONE == "." + (Digits(m, 6) + ZONE);
      SamePrefix(".", Digits(n, 6) + ZONE, Digits(m, 6) + ZONE);
      assert Power10(6) == 1_000_000;
      DigitsOrder(n, m, 6, ZONE, ZONE);
      NotBeforeItself(ZONE);
    } else if n == 0 && m == 0 {
      NotBeforeItself(Fraction(n) + ZONE);
    } else {
      assert (Fraction(0) + ZONE)[0] == '+';
      assert n > 0 ==> (Fraction(n) + ZONE)[0] == '.';
      assert m > 0 ==> (Fraction(m) + ZONE)[0] == '.';
    }
  }

  lemma NotBeforeItself(a: string)
    ensures !Before(a, a)
  {
  }

  /** Byte order of the stored text is chronological order, for every pair of times. */
  lemma TextOrderIsTimeOrder(a: Time, b: Time)
    requires Valid(a) && Valid(b)
    ensures Before(Iso(a), Iso(b)) <==> Instant(a) < Instant(b)
  {
    assert Power10(2) == 100 && Power10(4) == 10_000;
    EarlierIsByInstant(a, b);
    FractionOrder(a.micro, b.micro);
    var fa, fb := Fraction(a.micro) + "+00:00", Fraction(b.micro) + "+00:00";
    DigitsOrder(a.second, b.second, 2, fa, fb);
    var sa, sb := Digits(a.second, 2) + fa, Digits(b.second, 2) + fb;
    FieldOrder(a.minute, b.minute, 2, ":", sa, sb);
    var ma, mb := Digits(a.minute, 2) + (":" + sa), Digits(b.minute, 2) + (":" + sb);
    FieldOrder(a.hour, b.hour, 2, ":", ma, mb);
    var ha, hb := Digits(a.hour, 2) + (":" + ma), Digits(b.hour, 2) + (":" + mb);
    FieldOrder(a.day, b.day, 2, "T", ha, hb);
    var da, db := Digits(a.day, 2) + ("T" + ha), Digits(b.day, 2) + ("T" + hb);
    FieldOrder(a.month, b.month, 2, "-", da, db);
    var na, nb := Digits(a.month, 2) + ("-" + da), Digits(b.month, 2) + ("-" + db);
    FieldOrder(a.year, b.year, 4, "-", na, nb);
  }

  /** Different times have different texts. */
  lemma IsoIsInjective(a: Time, b: Time)
    requires Valid(a) && Valid(b) && Iso(a) == Iso(b)
    ensures a == b
  {
    NotBeforeItself(Iso(a));
    TextOrderIsTimeOrder(a, b);
    TextOrderIsTimeOrder(b, a);
    EarlierIsByInstant(a, b);
    EarlierIsByInstant(b, a);
  }

  lemma BeforeTrans(a: string, b: string, c: string)
    requires Before(a, b) && Before(b, c)
    ensures Before(a, c)
  {
  }

  lemma BeforeTotal(a: string, b: string)
    ensures Before(a, b) || Before(b, a) || a == b
    ensures !(Before(a, b) && Before(b, a))
  {
    if a != [] && b != [] && a[0] == b[0] {
      BeforeTotal(a[1..], b[1..]);
      assert a == [a[0]] + a[1..] && b == [b[0]] + b[1..];
    }
  }
}
