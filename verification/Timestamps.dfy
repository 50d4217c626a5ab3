/** Timestamps are stored as UTC text in isoformat, which leaves out the fraction when it is zero. SQL compares the texts. */
module Timestamps {
  import opened Prelude

  /** A UTC date and time, as datetime holds it. */
  datatype Stamp = Stamp(year: nat, month: nat, day: nat, hour: nat, minute: nat, second: nat, micros: nat)

  predicate IsLeap(y: nat) {
    y % 4 == 0 && (y % 100 != 0 || y % 400 == 0)
  }

  function DaysInMonth(y: nat, m: nat): nat {
    if m == 2 then (if IsLeap(y) then 29 else 28) else if m in {4, 6, 9, 11} then 30 else 31
  }

  predicate ValidDate(y: nat, m: nat, d: nat) {
    1 <= y <= 9999 && 1 <= m <= 12 && 1 <= d <= DaysInMonth(y, m)
  }

  predicate Valid(t: Stamp) {
    ValidDate(t.year, t.month, t.day) && t.hour < 24 && t.minute < 60 && t.second < 60 && t.micros < 1_000_000
  }

  // ----- instants

  function DaysBeforeYear(y: nat): nat
    requires y >= 1
  {
    if y == 1 then 0 else DaysBeforeYear(y - 1) + if IsLeap(y - 1) then 366 else 365
  }

  function DaysBeforeMonth(y: nat, m: nat): nat {
    if m <= 1 then 0 else DaysBeforeMonth(y, m - 1) + DaysInMonth(y, m - 1)
  }

  function DayNumber(y: nat, m: nat, d: nat): nat
    requires y >= 1
  {
    DaysBeforeYear(y) + DaysBeforeMonth(y, m) + d
  }

  /** Microseconds since the start of day 0. */
  function Instant(t: Stamp): nat
    requires t.year >= 1
  {
    (((DayNumber(t.year, t.month, t.day) * 24 + t.hour) * 60 + t.minute) * 60 + t.second) * 1_000_000 + t.micros
  }

  // ----- text

  function Digits(n: nat, width: nat): (s: string)
    ensures |s| == width
  {
    if width == 0 then "" else Digits(n / 10, width - 1) + ['0' + (n % 10) as char]
  }

  const ZONE := "+00:00"

  function Fraction(micros: nat): string {
    if micros == 0 then ZONE else "." + Digits(micros, 6) + ZONE
  }

  function Text(t: Stamp): string {
    Digits(t.year, 4) + ("-" + (Digits(t.month, 2) + ("-" + (Digits(t.day, 2) + ("T" + (Digits(t.hour, 2) +
    (":" + (Digits(t.minute, 2) + (":" + (Digits(t.second, 2) + Fraction(t.micros)))))))))))
  }

  /** Byte-wise comparison, as SQLite compares texts. */
  predicate Less(s: string, t: string) {
    t != "" && (s == "" || s[0] < t[0] || (s[0] == t[0] && Less(s[1..], t[1..])))
  }

  // ----- comparing texts

  lemma {:induction false} LessInParts(a: string, b: string, x: string, y: string)
    requires |a| == |b|
    ensures Less(a + x, b + y) <==> Less(a, b) || (a == b && Less(x, y))
    ensures a + x == b + y <==> a == b && x == y
  {
    if a == "" {
      assert a + x == x && b + y == y;
    } else {
      assert (a + x)[1..] == a[1..] + x && (b + y)[1..] == b[1..] + y;
      assert a == [a[0]] + a[1..] && b == [b[0]] + b[1..];
      LessInParts(a[1..], b[1..], x, y);
      assert (a + x)[0] == a[0] && (b + y)[0] == b[0];
      assert a + x == b + y ==> a[0] == b[0] && (a + x)[1..] == (b + y)[1..];
    }
  }

  lemma LessIrreflexive(s: string)
    ensures !Less(s, s)
  {
  }

  function Power10(width: nat): nat {
    if width == 0 then 1 else 10 * Power10(width - 1)
  }

  lemma {:induction false} DigitsCompare(n: nat, m: nat, width: nat)
    requires n < Power10(width) && m < Power10(width)
    ensures Less(Digits(n, width), Digits(m, width)) <==> n < m
    ensures Digits(n, width) == Digits(m, width) <==> n == m
  {
    if width > 0 {
      DigitsCompare(n / 10, m / 10, width - 1);
      LessInParts(Digits(n / 10, width - 1), Digits(m / 10, width - 1),
                  ['0' + (n % 10) as char], ['0' + (m % 10) as char]);
    }
  }

  /** A fixed-width number and what follows it compare like the pair. */
  lemma NumberThen(n: nat, m: nat, width: nat, x: string, y: string)
    requires n < Power10(width) && m < Power10(width)
    ensures Less(Digits(n, width) + x, Digits(m, width) + y) <==> n < m || (n == m && Less(x, y))
  {
    DigitsCompare(n, m, width);
    LessInParts(Digits(n, width), Digits(m, width), x, y);
  }

  lemma MarkThen(c: char, x: string, y: string)
    ensures Less([c] + x, [c] + y) <==> Less(x, y)
  {
    LessInParts([c], [c], x, y);
    LessIrreflexive([c]);
  }

  /** Leaving out a zero fraction does no harm, because the zone's sign sorts before the fraction's point. */
  lemma FractionCompare(a: nat, b: nat)
    requires a < 1_000_000 && b < 1_000_000
    ensures Less(Fraction(a), Fraction(b)) <==> a < b
  {
    assert Power10(6) == 1_000_000;
    if a != 0 && b != 0 {
      assert Fraction(a) == ['.'] + (Digits(a, 6) + ZONE) && Fraction(b) == ['.'] + (Digits(b, 6) + ZONE);
      MarkThen('.', Digits(a, 6) + ZONE, Digits(b, 6) + ZONE);
      NumberThen(a, b, 6, ZONE, ZONE);
      LessIrreflexive(ZONE);
    } else if a == 0 && b == 0 {
      LessIrreflexive(ZONE);
    } else {
      assert Fraction(0)[0] == '+' && Fraction(if a == 0 then b else a)[0] == '.';
    }
  }

  /** The fields in order of significance. */
  predicate TimeBefore(a: Stamp, b: Stamp) {
    || a.hour < b.hour || (a.hour == b.hour && (|| a.minute < b.minute || (a.minute == b.minute && (
       || a.second < b.second || (a.second == b.second && a.micros < b.micros)))))
  }

  predicate DateBefore(a: Stamp, b: Stamp) {
    a.year < b.year || (a.year == b.year && (a.month < b.month || (a.month == b.month && a.day < b.day)))
  }

  predicate SameDate(a: Stamp, b: Stamp) {
    a.year == b.year && a.month == b.month && a.day == b.day
  }

  function TimeText(t: Stamp): string {
    Digits(t.hour, 2) + (":" + (Digits(t.minute, 2) + (":" + (Digits(t.second, 2) + Fraction(t.micros)))))
  }

  lemma TimeTextCompare(a: Stamp, b: Stamp)
    requires Valid(a) && Valid(b)
    ensures Less(TimeText(a), TimeText(b)) <==> TimeBefore(a, b)
  {
    assert Power10(2) == 100;
    FractionCompare(a.micros, b.micros);
    NumberThen(a.second, b.second, 2, Fraction(a.micros), Fraction(b.micros));
    var sa, sb := Digits(a.second, 2) + Fraction(a.micros), Digits(b.second, 2) + Fraction(b.micros);
    MarkThen(':', sa, sb);
    NumberThen(a.minute, b.minute, 2, ":" + sa, ":" + sb);
    var ma, mb := Digits(a.minute, 2) + (":" + sa), Digits(b.minute, 2) + (":" + sb);
    MarkThen(':', ma, mb);
    NumberThen(a.hour, b.hour, 2, ":" + ma, ":" + mb);
  }

  lemma TextCompare(a: Stamp, b: Stamp)
    requires Valid(a) && Valid(b)
    ensures Less(Text(a), Text(b)) <==> DateBefore(a, b) || (SameDate(a, b) && TimeBefore(a, b))
  {
    assert Power10(2) == 100 && Power10(4) == 10_000;
    TimeTextCompare(a, b);
    MarkThen('T', TimeText(a), TimeText(b));
    NumberThen(a.day, b.day, 2, "T" + TimeText(a), "T" + TimeText(b));
    var da, db := Digits(a.day, 2) + ("T" + TimeText(a)), Digits(b.day, 2) + ("T" + TimeText(b));
    MarkThen('-', da, db);
    NumberThen(a.month, b.month, 2, "-" + da, "-" + db);
    var ma, mb := Digits(a.month, 2) + ("-" + da), Digits(b.month, 2) + ("-" + db);
    MarkThen('-', ma, mb);
    NumberThen(a.year, b.year, 4, "-" + ma, "-" + mb);
    assert Text(a) == Digits(a.year, 4) + ("-" + ma) && Text(b) == Digits(b.year, 4) + ("-" + mb);
  }

  // ----- comparing instants

  lemma {:induction false} MonthEndsBeforeNext(y: nat, m: nat, n: nat)
    requires 1 <= m < n
    ensures DaysBeforeMonth(y, m) + DaysInMonth(y, m) <= DaysBeforeMonth(y, n)
  {
    if m + 1 < n { MonthEndsBeforeNext(y, m, n - 1); }
  }

  lemma YearLength(y: nat)
    ensures DaysBeforeMonth(y, 12) + 31 == if IsLeap(y) then 366 else 365
  {
    assert DaysBeforeMonth(y, 4) == DaysBeforeMonth(y, 2) + DaysInMonth(y, 2) + 31;
    assert DaysBeforeMonth(y, 6) == DaysBeforeMonth(y, 4) + 61;
    assert DaysBeforeMonth(y, 8) == DaysBeforeMonth(y, 6) + 61;
    assert DaysBeforeMonth(y, 10) == DaysBeforeMonth(y, 8) + 61;
    assert DaysBeforeMonth(y, 12) == DaysBeforeMonth(y, 10) + 61;
  }

  lemma {:induction false} YearEndsBeforeNext(y: nat, z: nat)
    requires 1 <= y < z
    ensures DaysBeforeYear(y) + (if IsLeap(y) then 366 else 365) <= DaysBeforeYear(z)
  {
    if y + 1 < z { YearEndsBeforeNext(y, z - 1); }
  }

  lemma DateInYear(t: Stamp)
    requires Valid(t)
    ensures 1 <= DaysBeforeMonth(t.year, t.month) + t.day <= if IsLeap(t.year) then 366 else 365
  {
    YearLength(t.year);
    if t.month < 12 { MonthEndsBeforeNext(t.year, t.month, 12); }
  }

  lemma EarlierDate(a: Stamp, b: Stamp)
    requires Valid(a) && Valid(b) && DateBefore(a, b)
    ensures DayNumber(a.year, a.month, a.day) < DayNumber(b.year, b.month, b.day)
  {
    DateInYear(a);
    DateInYear(b);
    if a.year < b.year {
      YearEndsBeforeNext(a.year, b.year);
    } else if a.month < b.month {
      MonthEndsBeforeNext(a.year, a.month, b.month);
    }
  }

  lemma InstantCompare(a: Stamp, b: Stamp)
    requires Valid(a) && Valid(b)
    ensures Instant(a) < Instant(b) <==> DateBefore(a, b) || (SameDate(a, b) && TimeBefore(a, b))
  {
    if DateBefore(a, b) { EarlierDate(a, b); }
    if DateBefore(b, a) { EarlierDate(b, a); }
  }

  // ----- the stored texts

  /** utc is the UTC form of a local time with an offset (in microseconds); a naive time has offset 0. */
  ghost predicate IsUtcOf(utc: Stamp, local: Stamp, offset: int) {
    Valid(utc) && Valid(local) && Instant(utc) == Instant(local) - offset
  }

  /** Comparing the stored texts is comparing the instants, for all dates and offsets and with or without a fraction. */
  lemma StoredTextsCompareAsInstants(a: Stamp, b: Stamp)
    requires Valid(a) && Valid(b)
    ensures Less(Text(a), Text(b)) <==> Instant(a) < Instant(b)
    ensures Text(a) == Text(b) <==> Instant(a) == Instant(b)
  {
    TextCompare(a, b);
    TextCompare(b, a);
    InstantCompare(a, b);
    InstantCompare(b, a);
    LessIrreflexive(Text(a));
  }

  lemma NormalizedTimestampsCompare(u: Stamp, a: Stamp, offsetA: int, v: Stamp, b: Stamp, offsetB: int)
    requires IsUtcOf(u, a, offsetA) && IsUtcOf(v, b, offsetB)
    ensures Less(Text(u), Text(v)) <==> Instant(a) - offsetA < Instant(b) - offsetB
  {
    StoredTextsCompareAsInstants(u, v);
  }

  // ----- every instant has a stamp

  function NextDay(y: nat, m: nat, d: nat): (nat, nat, nat) {
    if d < DaysInMonth(y, m) then (y, m, d + 1) else if m < 12 then (y, m + 1, 1) else (y + 1, 1, 1)
  }

  lemma NextDayNumber(y: nat, m: nat, d: nat)
    requires 1 <= y && 1 <= m <= 12 && 1 <= d <= DaysInMonth(y, m)
    ensures var (y', m', d') := NextDay(y, m, d); y' >= 1 && DayNumber(y', m', d') == DayNumber(y, m, d) + 1
  {
    YearLength(y);
  }

  /** The dates of days 1, 2, ... */
  function DateOf(n: nat): (date: (nat, nat, nat))
    requires n >= 1
    ensures date.0 >= 1 && 1 <= date.1 <= 12 && 1 <= date.2 <= DaysInMonth(date.0, date.1)
  {
    if n == 1 then (1, 1, 1) else var (y, m, d) := DateOf(n - 1); NextDay(y, m, d)
  }

  lemma {:induction false} DateOfIsInverse(n: nat)
    requires n >= 1
    ensures DayNumber(DateOf(n).0, DateOf(n).1, DateOf(n).2) == n
  {
    if n > 1 {
      DateOfIsInverse(n - 1);
      NextDayNumber(DateOf(n - 1).0, DateOf(n - 1).1, DateOf(n - 1).2);
    }
  }

  const DAY_MICROS := 86_400_000_000

  function StampOf(instant: nat): Stamp
    requires instant >= DAY_MICROS
  {
    var (y, m, d) := DateOf(instant / DAY_MICROS);
    var rest := instant % DAY_MICROS;
    var seconds := rest / 1_000_000;
    Stamp(y, m, d, seconds / 3600, seconds / 60 % 60, seconds % 60, rest % 1_000_000)
  }

  lemma StampOfIsInverse(instant: nat)
    requires instant >= DAY_MICROS
    ensures Instant(StampOf(instant)) == instant
  {
    DateOfIsInverse(instant / DAY_MICROS);
    var seconds := instant % DAY_MICROS / 1_000_000;
    assert seconds / 60 / 60 == seconds / 3600;
  }

  lemma YearWithin(y: nat, m: nat, d: nat)
    requires 1 <= y && 1 <= m <= 12 && 1 <= d && DayNumber(y, m, d) <= DaysBeforeYear(10_000)
    ensures y <= 9999
  {
    if y > 10_000 { YearEndsBeforeNext(10_000, y); }
  }

  /** Every instant from the first day of year 1 to the last of year 9999 has exactly one stored text. */
  lemma UtcFormExists(instant: nat)
    requires DAY_MICROS <= instant < (DaysBeforeYear(10_000) + 1) * DAY_MICROS
    ensures Valid(StampOf(instant)) && Instant(StampOf(instant)) == instant
    ensures forall t :: Valid(t) && Instant(t) == instant ==> Text(t) == Text(StampOf(instant))
  {
    StampOfIsInverse(instant);
    DateOfIsInverse(instant / DAY_MICROS);
    var (y, m, d) := DateOf(instant / DAY_MICROS);
    YearWithin(y, m, d);
    forall t | Valid(t) && Instant(t) == instant ensures Text(t) == Text(StampOf(instant)) {
      StoredTextsCompareAsInstants(t, StampOf(instant));
    }
  }
}
