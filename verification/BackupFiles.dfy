/** Names of backup and restore files in the object store, and the choice of the newest backup by the
    order of its printed start time. */
module BackupFiles {
  import opened Decimals
  import opened Wrappers

  // ---- Order of strings ----

  /** Strings compare by their first difference; a proper prefix comes first. */
  predicate Before(a: string, b: string) {
    b != [] && (a == [] || a[0] < b[0] || (a[0] == b[0] && Before(a[1..], b[1..])))
  }

  lemma {:induction false} BeforeAfterPrefix(p: string, a: string, b: string)
    ensures Before(p + a, p + b) <==> Before(a, b)
  {
    if p == [] {
      assert p + a == a && p + b == b;
    } else {
      assert (p + a)[1..] == p[1..] + a && (p + b)[1..] == p[1..] + b;
      BeforeAfterPrefix(p[1..], a, b);
    }
  }

  /** Fields of one width are compared first, whatever follows. */
  lemma {:induction false} BeforeByFirstField(x: string, y: string, a: string, b: string)
    requires |x| == |y| && x != y
    ensures Before(x + a, y + b) <==> Before(x, y)
  {
    assert (x + a)[0] == x[0] && (y + b)[0] == y[0];
    if x[0] == y[0] {
      assert x == [x[0]] + x[1..] && y == [y[0]] + y[1..];
      assert (x + a)[1..] == x[1..] + a && (y + b)[1..] == y[1..] + b;
      BeforeByFirstField(x[1..], y[1..], a, b);
    }
  }

  // ---- Numbers of fixed width ----

  lemma {:induction false} PadOrder(n: nat, m: nat, w: nat)
    requires n < Pow10(w) && m < Pow10(w)
    ensures Pad(n, w) == Pad(m, w) <==> n == m
    ensures Before(Pad(n, w), Pad(m, w)) <==> n < m
  {
    if w > 0 {
      PadOrder(n / 10, m / 10, w - 1);
      var x, y := Pad(n / 10, w - 1), Pad(m / 10, w - 1);
      assert Pad(n, w)[..w - 1] == x && Pad(m, w)[..w - 1] == y;
      if x == y {
        assert Pad(n, w)[w - 1] == Digit(n % 10) && Pad(m, w)[w - 1] == Digit(m % 10);
        BeforeAfterPrefix(x, [Digit(n % 10)], [Digit(m % 10)]);
      } else {
        BeforeByFirstField(x, y, [Digit(n % 10)], [Digit(m % 10)]);
      }
    }
  }

  lemma FieldOrder(n: nat, m: nat, w: nat, a: string, b: string)
    requires n < Pow10(w) && m < Pow10(w)
    ensures Before(Pad(n, w) + a, Pad(m, w) + b) <==> n < m || (n == m && Before(a, b))
  {
    PadOrder(n, m, w);
    if n == m {
      BeforeAfterPrefix(Pad(n, w), a, b);
    } else {
      BeforeByFirstField(Pad(n, w), Pad(m, w), a, b);
    }
  }

  // ---- The calendar ----

  /** The day on which 1970 starts, counted from the start of the year 0, and that day in milliseconds. */
  const EPOCH_DAY := 719528
  const EPOCH := EPOCH_DAY * 86400000

  predicate IsLeap(y: nat) { y % 4 == 0 && (y % 100 != 0 || y % 400 == 0) }

  function YearLength(y: nat): nat { if IsLeap(y) then 366 else 365 }

  function MonthLength(y: nat, m: nat): (n: nat)
    ensures 28 <= n <= 31
  {
    if m == 2 then (if IsLeap(y) then 29 else 28)
    else if m in {4, 6, 9, 11} then 30 else 31
  }

  datatype YearDay = YearDay(year: nat, day: nat)

  /** Counting `days` on from the start of year `y`. */
  function YearFrom(y: nat, days: nat): (r: YearDay)
    ensures r.year >= y && r.day < YearLength(r.year)
    decreases days
  {
    if days < YearLength(y) then YearDay(y, days) else YearFrom(y + 1, days - YearLength(y))
  }

  datatype MonthDay = MonthDay(month: nat, day: nat)

  function MonthFrom(y: nat, m: nat, days: nat): (r: MonthDay)
    requires 1 <= m <= 12
    ensures m <= r.month <= 12 && 1 <= r.day
    ensures r.month < 12 ==> r.day <= MonthLength(y, r.month)
    decreases 12 - m
  {
    if m == 12 || days < MonthLength(y, m) then MonthDay(m, days + 1) else MonthFrom(y, m + 1, days - MonthLength(y, m))
  }

  /** The date and time of day of an instant, in the order in which they are compared. */
  datatype Civil = Civil(year: nat, month: nat, day: nat, hour: nat, minute: nat, second: nat)

  /** The day on which a year starts. */
  function YearStart(y: nat): nat {
    if y == 0 then 0 else YearStart(y - 1) + YearLength(y - 1)
  }

  /** Counting years off agrees with the days on which they start. */
  lemma {:induction false} YearFromStart(y: nat, days: nat)
    ensures YearStart(YearFrom(y, days).year) + YearFrom(y, days).day == YearStart(y) + days
    decreases days
  {
    if days >= YearLength(y) {
      YearFromStart(y + 1, days - YearLength(y));
    }
  }

  function One(y: nat, k: nat): nat
    requires k > 0
  {
    if y % k == 0 then 1 else 0
  }

  /** How many of the years before `y` are multiples of `k`. */
  function Multiples(y: nat, k: nat): nat
    requires k > 0
  {
    (y + k - 1) / k
  }

  lemma NextFourth(y: nat)
    ensures Multiples(y + 1, 4) == Multiples(y, 4) + One(y, 4)
  {
  }

  lemma NextHundredth(y: nat)
    ensures Multiples(y + 1, 100) == Multiples(y, 100) + One(y, 100)
  {
  }

  lemma NextFourHundredth(y: nat)
    ensures Multiples(y + 1, 400) == Multiples(y, 400) + One(y, 400)
  {
  }

  lemma LeapDay(y: nat)
    ensures YearLength(y) == 365 + One(y, 4) - One(y, 100) + One(y, 400)
  {
    if y % 100 == 0 { HundredthIsFourth(y); }
    if y % 400 == 0 { FourHundredthIsHundredth(y); }
  }

  lemma HundredthIsFourth(y: nat)
    requires y % 100 == 0
    ensures y % 4 == 0
  {
    assert y % 4 == (y % 100) % 4;
  }

  lemma FourHundredthIsHundredth(y: nat)
    requires y % 400 == 0
    ensures y % 100 == 0
  {
    assert y % 100 == (y % 400) % 100;
  }

  /** Every fourth year is a leap year, but not every hundredth, but every four hundredth. */
  lemma {:induction false} YearStartClosed(y: nat)
    ensures YearStart(y) == 365 * y + Multiples(y, 4) - Multiples(y, 100) + Multiples(y, 400)
  {
    if y > 0 {
      YearStartClosed(y - 1);
      NextFourth(y - 1);
      NextHundredth(y - 1);
      NextFourHundredth(y - 1);
      LeapDay(y - 1);
    }
  }

  lemma {:induction false} YearStartsGrow(y: nat, z: nat)
    requires y <= z
    ensures YearStart(y) <= YearStart(z)
  {
    if y < z { YearStartsGrow(y, z - 1); }
  }

  /** The years of four digits end before this day. */
  const LAST_DAY := 3652425

  lemma FourDigitYear(days: nat)
    requires days < LAST_DAY
    ensures YearFrom(0, days).year <= 9999
  {
    YearFromStart(0, days);
    var y: nat :| y == 10000;
    YearStartClosed(y);
    if YearFrom(0, days).year >= y {
      YearStartsGrow(y, YearFrom(0, days).year);
    }
  }

  lemma EpochIs1970(y: nat)
    requires y == 1970
    ensures YearStart(y) == EPOCH_DAY
  {
    YearStartClosed(y);
  }

  /** Instants, in milliseconds since 1970, in the years 0 to 9999. */
  type Instant = i: int | 0 <= i + EPOCH < LAST_DAY * 86400000

  /** Whole seconds since the start of the year 0. */
  function Seconds(instant: int): int { (instant + EPOCH) / 1000 }

  lemma SecondsOrder(s: int, t: int)
    ensures Seconds(s) < Seconds(t) <==> s / 1000 < t / 1000
    ensures Seconds(s) == Seconds(t) <==> s / 1000 == t / 1000
  {
  }

  function CivilOf(instant: Instant): Civil {
    CivilAt(Seconds(instant))
  }

  function CivilAt(s: nat): Civil {
    var yd := YearFrom(0, s / 86400);
    var md := MonthFrom(yd.year, 1, yd.day);
    Civil(yd.year, md.month, md.day, s / 3600 % 24, s / 60 % 60, s % 60)
  }

  /** The hour of `a` is an earlier one, or the same, and so on for the rest. */
  predicate HourEarlier(a: Civil, b: Civil) {
    || a.year < b.year
    || (a.year == b.year && (a.month < b.month
    || (a.month == b.month && (a.day < b.day
    || (a.day == b.day && a.hour < b.hour)))))
  }

  predicate SameHour(a: Civil, b: Civil) {
    a.year == b.year && a.month == b.month && a.day == b.day && a.hour == b.hour
  }

  predicate EarlierInHour(a: Civil, b: Civil) {
    a.minute < b.minute || (a.minute == b.minute && a.second < b.second)
  }

  lemma {:induction false} YearsInOrder(y: nat, d: nat, e: nat)
    requires d < e
    ensures var a, b := YearFrom(y, d), YearFrom(y, e); a.year < b.year || (a.year == b.year && a.day < b.day)
    decreases d
  {
    if d >= YearLength(y) {
      YearsInOrder(y + 1, d - YearLength(y), e - YearLength(y));
    }
  }

  lemma {:induction false} MonthsInOrder(y: nat, m: nat, d: nat, e: nat)
    requires 1 <= m <= 12 && d < e
    ensures var a, b := MonthFrom(y, m, d), MonthFrom(y, m, e); a.month < b.month || (a.month == b.month && a.day < b.day)
    decreases 12 - m
  {
    if m < 12 && d >= MonthLength(y, m) {
      MonthsInOrder(y, m + 1, d - MonthLength(y, m), e - MonthLength(y, m));
    }
  }

  /** The rest of a year after the months before `m`. */
  function DaysLeft(y: nat, m: nat): nat
    requires 1 <= m <= 13
    decreases 13 - m
  {
    if m == 13 then 0 else MonthLength(y, m) + DaysLeft(y, m + 1)
  }

  lemma {:induction false} MonthDayFits(y: nat, m: nat, days: nat)
    requires 1 <= m <= 12 && days < DaysLeft(y, m)
    ensures MonthFrom(y, m, days).day <= 31
    decreases 12 - m
  {
    if m == 12 {
      assert DaysLeft(y, 13) == 0;
    } else if days >= MonthLength(y, m) {
      MonthDayFits(y, m + 1, days - MonthLength(y, m));
    }
  }

  lemma YearIsItsMonths(y: nat)
    ensures DaysLeft(y, 1) == YearLength(y)
  {
    assert DaysLeft(y, 10) == 92;
    assert DaysLeft(y, 7) == 184;
    assert DaysLeft(y, 4) == 275;
  }

  /** Every printed field has its usual range. */
  lemma CivilRanges(instant: Instant)
    ensures var c := CivilOf(instant);
      c.year <= 9999 && 1 <= c.month <= 12 && 1 <= c.day <= 31 && c.hour < 24 && c.minute < 60 && c.second < 60
  {
    var s := Seconds(instant);
    assert 0 <= s / 86400 < LAST_DAY;
    FourDigitYear(s / 86400);
    var yd := YearFrom(0, s / 86400);
    YearIsItsMonths(yd.year);
    MonthDayFits(yd.year, 1, yd.day);
  }

  function Hour(instant: Instant): nat { Seconds(instant) / 3600 }

  /** An earlier hour is printed as an earlier one. */
  lemma EarlierHour(s: Instant, t: Instant)
    requires Hour(s) < Hour(t)
    ensures HourEarlier(CivilOf(s), CivilOf(t))
  {
    var a, b := Seconds(s), Seconds(t);
    assert a / 86400 == a / 3600 / 24 && b / 86400 == b / 3600 / 24;
    if a / 86400 < b / 86400 {
      YearsInOrder(0, a / 86400, b / 86400);
      var ya, yb := YearFrom(0, a / 86400), YearFrom(0, b / 86400);
      if ya.year == yb.year { MonthsInOrder(ya.year, 1, ya.day, yb.day); }
    }
  }

  /** Date and hour are in the order of the hours of the instants, minute and second in that of the rest. */
  lemma CivilOrder(s: Instant, t: Instant)
    ensures HourEarlier(CivilOf(s), CivilOf(t)) <==> Hour(s) < Hour(t)
    ensures SameHour(CivilOf(s), CivilOf(t)) <==> Hour(s) == Hour(t)
    ensures Hour(s) == Hour(t) ==> (EarlierInHour(CivilOf(s), CivilOf(t)) <==> Seconds(s) < Seconds(t))
  {
    if Hour(s) < Hour(t) {
      EarlierHour(s, t);
    } else if Hour(t) < Hour(s) {
      EarlierHour(t, s);
    } else {
      RestOfHour(Seconds(s), Seconds(t));
    }
  }

  lemma RestOfHour(a: nat, b: nat)
    requires a / 3600 == b / 3600
    ensures a / 86400 == b / 86400
    ensures a < b <==> a / 60 % 60 < b / 60 % 60 || (a / 60 % 60 == b / 60 % 60 && a % 60 < b % 60)
  {
    assert a / 86400 == a / 3600 / 24 && b / 86400 == b / 3600 / 24;
    assert a / 3600 == a / 60 / 60 && b / 3600 == b / 60 / 60;
  }

  /** The days of a year before each month, but for a leap day. */
  const DAYS_BEFORE := [0, 31, 59, 90, 120, 151, 181, 212, 243, 273, 304, 334]

  const MONTH_LENGTHS := [31, 28, 31, 30, 31, 30, 31, 31, 30, 31, 30, 31]

  function DaysBefore(y: nat, m: nat): nat
    requires 1 <= m <= 12
  {
    DAYS_BEFORE[m - 1] + if m > 2 && IsLeap(y) then 1 else 0
  }

  lemma NextMonth(y: nat, m: nat)
    requires 1 <= m <= 12
    ensures MonthLength(y, m) == MONTH_LENGTHS[m - 1] + (if m == 2 && IsLeap(y) then 1 else 0)
    ensures m < 12 ==> DaysBefore(y, m + 1) == DaysBefore(y, m) + MonthLength(y, m)
  {
  }

  /** Counting months off agrees with the days before them. */
  lemma {:induction false} MonthFromStart(y: nat, m: nat, days: nat)
    requires 1 <= m <= 12
    ensures var r := MonthFrom(y, m, days); DaysBefore(y, r.month) + r.day - 1 == DaysBefore(y, m) + days
    decreases 12 - m
  {
    if m < 12 && days >= MonthLength(y, m) {
      NextMonth(y, m);
      MonthFromStart(y, m + 1, days - MonthLength(y, m));
    }
  }

  lemma TimeParts(s: nat)
    ensures s == (s / 86400 * 24 + s / 3600 % 24) * 3600 + s / 60 % 60 * 60 + s % 60
  {
    var minutes, hours := s / 60, s / 3600;
    assert s == minutes * 60 + s % 60;
    assert hours == minutes / 60 && minutes == hours * 60 + minutes % 60;
    assert s / 86400 == hours / 24 && hours == hours / 24 * 24 + hours % 24;
  }

  /** The month and the day counted off from a day of a year exist, and name that day. */
  lemma DateNamesDayOfYear(y: nat, day: nat)
    requires day < YearLength(y)
    ensures var md := MonthFrom(y, 1, day);
      var leap := if y % 4 == 0 && (y % 100 != 0 || y % 400 == 0) then 1 else 0;
      && md.day <= [31, 28, 31, 30, 31, 30, 31, 31, 30, 31, 30, 31][md.month - 1] + (if md.month == 2 then leap else 0)
      && day == [0, 31, 59, 90, 120, 151, 181, 212, 243, 273, 304, 334][md.month - 1] + (if md.month > 2 then leap else 0)
           + md.day - 1
  {
    MonthFromStart(y, 1, day);
    NextMonth(y, MonthFrom(y, 1, day).month);
    YearIsItsMonths(y);
    MonthDayFits(y, 1, day);
  }

  lemma YearNamesDay(d: nat)
    ensures var y := YearFrom(0, d).year;
      d == 365 * y + (y + 3) / 4 - (y + 99) / 100 + (y + 399) / 400 + YearFrom(0, d).day
  {
    YearFromStart(0, d);
    YearStartClosed(YearFrom(0, d).year);
  }

  /** The date and time of an instant name it back to the second, by a calendar with leap years in every fourth
      year, but not every hundredth, but every four hundredth; and the day exists in its month. */
  lemma FieldsNameInstant(instant: Instant)
    ensures var c := CivilOf(instant);
      var y, m := c.year, c.month;
      var leap := if y % 4 == 0 && (y % 100 != 0 || y % 400 == 0) then 1 else 0;
      && 1 <= m <= 12
      && 1 <= c.day <= [31, 28, 31, 30, 31, 30, 31, 31, 30, 31, 30, 31][m - 1] + (if m == 2 then leap else 0)
      && var days := 365 * y + (y + 3) / 4 - (y + 99) / 100 + (y + 399) / 400
           + [0, 31, 59, 90, 120, 151, 181, 212, 243, 273, 304, 334][m - 1] + (if m > 2 then leap else 0) + c.day - 1;
         (instant + 719528 * 86400000) / 1000 == (days * 24 + c.hour) * 3600 + c.minute * 60 + c.second
  {
    var s := Seconds(instant);
    var yd := YearFrom(0, s / 86400);
    YearNamesDay(s / 86400);
    DateNamesDayOfYear(yd.year, yd.day);
    TimeParts(s);
  }

  // ---- Printed timestamps ----

  /** Date and time with the given separator between the parts of the time, milliseconds stripped. */
  function Print(c: Civil, sep: char): string {
    PrintHour(c, PrintRest(c, sep))
  }

  function PrintHour(c: Civil, rest: string): string {
    Pad(c.year, 4) + (['-'] + (Pad(c.month, 2) + (['-'] + (Pad(c.day, 2) + (['T'] + (Pad(c.hour, 2) + rest))))))
  }

  function PrintRest(c: Civil, sep: char): string {
    [sep] + (Pad(c.minute, 2) + ([sep] + (Pad(c.second, 2) + ['Z'])))
  }

  function IsoDate(instant: Instant): string {
    Print(CivilOf(instant), ':')
  }

  function Timestamp(instant: Instant): string {
    Print(CivilOf(instant), '-')
  }

  predicate InRange(c: Civil) {
    c.year <= 9999 && c.month < 100 && c.day < 100 && c.hour < 100 && c.minute < 100 && c.second < 100
  }

  lemma RestOrder(a: Civil, b: Civil, x: char, y: char)
    requires InRange(a) && InRange(b)
    ensures Before(PrintRest(a, x), PrintRest(b, y)) <==> x < y || (x == y && EarlierInHour(a, b))
  {
    var seconds, seconds' := Pad(a.second, 2) + ['Z'], Pad(b.second, 2) + ['Z'];
    var minutes, minutes' := Pad(a.minute, 2) + ([x] + seconds), Pad(b.minute, 2) + ([y] + seconds');
    assert PrintRest(a, x)[1..] == minutes && PrintRest(b, y)[1..] == minutes';
    assert Pow10(2) == 100;
    if x == y {
      FieldOrder(a.second, b.second, 2, ['Z'], ['Z']);
      BeforeAfterPrefix([x], seconds, seconds');
      FieldOrder(a.minute, b.minute, 2, [x] + seconds, [x] + seconds');
    }
  }

  lemma HourOrder(a: Civil, b: Civil, x: string, y: string)
    requires InRange(a) && InRange(b)
    ensures Before(PrintHour(a, x), PrintHour(b, y)) <==> HourEarlier(a, b) || (SameHour(a, b) && Before(x, y))
  {
    assert Pow10(2) == 100 && Pow10(4) == 10000;
    var a4, b4 := Pad(a.hour, 2) + x, Pad(b.hour, 2) + y;
    FieldOrder(a.hour, b.hour, 2, x, y);
    var a3, b3 := Pad(a.day, 2) + (['T'] + a4), Pad(b.day, 2) + (['T'] + b4);
    BeforeAfterPrefix(['T'], a4, b4);
    FieldOrder(a.day, b.day, 2, ['T'] + a4, ['T'] + b4);
    var a2, b2 := Pad(a.month, 2) + (['-'] + a3), Pad(b.month, 2) + (['-'] + b3);
    BeforeAfterPrefix(['-'], a3, b3);
    FieldOrder(a.month, b.month, 2, ['-'] + a3, ['-'] + b3);
    BeforeAfterPrefix(['-'], a2, b2);
    FieldOrder(a.year, b.year, 4, ['-'] + a2, ['-'] + b2);
  }

  /** Printed with either separator, instants compare as strings by the hour, then by the separator, and then by
      the second. */
  lemma MixedOrder(s: Instant, t: Instant, x: char, y: char)
    ensures Before(Print(CivilOf(s), x), Print(CivilOf(t), y))
       <==> Hour(s) < Hour(t) || (Hour(s) == Hour(t) && (x < y || (x == y && Seconds(s) < Seconds(t))))
  {
    CivilRanges(s);
    CivilRanges(t);
    var a, b := CivilOf(s), CivilOf(t);
    HourOrder(a, b, PrintRest(a, x), PrintRest(b, y));
    RestOrder(a, b, x, y);
    CivilOrder(s, t);
  }

  /** Printed start times compare as strings exactly as the instants compare to the second. */
  lemma PrintedOrder(s: Instant, t: Instant, sep: char)
    ensures Before(Print(CivilOf(s), sep), Print(CivilOf(t), sep)) <==> s / 1000 < t / 1000
  {
    MixedOrder(s, t, sep, sep);
    SecondsOrder(s, t);
    assert Seconds(s) < Seconds(t) ==> Hour(s) <= Hour(t);
  }

  // ---- File names ----

  const EXCLUDED_ROOT := "OOB_DEPLOYMENTS"

  /** What a backup or restore file is about; the fields its key table does not list are empty. */
  datatype Metadata = Metadata(
    tenant_id: string, operation: string, service_id: string, instance_guid: string,
    backup_guid: Option<string>, started_at: Option<Instant>)

  /** What parsing a name yields; fields that the name does not give are undefined. */
  datatype Parsed = Parsed(
    name: string, tenant_id: string, operation: Option<string>, service_id: Option<string>, instance_guid: Option<string>,
    backup_guid: Option<string>, started_at: Option<string>)

  function Join(parts: seq<string>, sep: char): string
    requires |parts| > 0
  {
    if |parts| == 1 then parts[0] else parts[0] + [sep] + Join(parts[1..], sep)
  }

  function IndexOf(s: string, c: char): (i: nat)
    ensures i <= |s| && c !in s[..i] && (i < |s| ==> s[i] == c)
  {
    if s == [] || s[0] == c then 0 else
      var i := IndexOf(s[1..], c);
      assert s[..i + 1] == [s[0]] + s[1..][..i];
      i + 1
  }

  function Split(s: string, sep: char): (parts: seq<string>)
    ensures |parts| > 0
    decreases |s|
  {
    var i := IndexOf(s, sep);
    if i == |s| then [s] else [s[..i]] + Split(s[i + 1..], sep)
  }

  lemma IndexIsUnique(s: string, c: char, i: nat)
    requires i <= |s| && c !in s[..i] && (i < |s| ==> s[i] == c)
    ensures IndexOf(s, c) == i
  {
  }

  lemma {:induction false} SplitJoined(parts: seq<string>, sep: char)
    requires |parts| > 0 && forall p | p in parts :: sep !in p
    ensures Split(Join(parts, sep), sep) == parts
  {
    var s, first := Join(parts, sep), parts[0];
    if |parts| == 1 {
      assert s[..|s|] == s;
      IndexIsUnique(s, sep, |s|);
    } else {
      assert s[..|first|] == first && s[|first|] == sep && s[|first| + 1..] == Join(parts[1..], sep);
      IndexIsUnique(s, sep, |first|);
      SplitJoined(parts[1..], sep);
      assert parts == [first] + parts[1..];
    }
  }

  /** The path of a file: `path.posix.join` of segments that are neither empty nor dots nor contain slashes,
      which it leaves as they are. */
  predicate PlainSegment(s: string) { s != "" && s != "." && s != ".." && '/' !in s }

  /** Values are printed in the order of the key table of the operation. */
  function Values(m: Metadata): seq<string> {
    [m.service_id, m.instance_guid]
    + if m.operation == "backup" && m.backup_guid.Some? && m.started_at.Some?
      then [m.backup_guid.value, Timestamp(m.started_at.value)] else []
  }

  function FileName(tenant: string, operation: string, values: seq<string>): string {
    Join([tenant, operation, Join(values + ["json"], '.')], '/')
  }

  function Stringify(m: Metadata): string {
    FileName(m.tenant_id, m.operation, Values(m))
  }

  /** yyyy-mm-ddTHH-mm-ssZ, with the ranges that the pattern admits. */
  predicate IsValidTimestamp(s: string) {
    && |s| == 20
    && (forall i | 0 <= i < 20 && i !in {4, 7, 10, 13, 16, 19} :: IsDigit(s[i]))
    && s[4] == '-' && s[7] == '-' && s[10] == 'T' && s[13] == '-' && s[16] == '-' && s[19] == 'Z'
    && ((s[5] == '0' && s[6] != '0') || (s[5] == '1' && s[6] <= '2'))
    && ((s[8] == '0' && s[9] != '0') || s[8] == '1' || s[8] == '2' || (s[8] == '3' && s[9] <= '1'))
    && (s[11] == '0' || s[11] == '1' || (s[11] == '2' && s[12] <= '4'))
    && s[14] <= '5' && s[17] <= '5'
  }

  /** The times admitted are those of months 1 to 12, days 1 to 31, hours 0 to 24 and minutes and seconds below 60. */
  lemma ValidExactly(s: string)
    requires |s| == 20 && forall i | 0 <= i < 20 && i !in {4, 7, 10, 13, 16, 19} :: IsDigit(s[i])
    ensures IsValidTimestamp(s) <==>
      && s[4] == '-' && s[7] == '-' && s[10] == 'T' && s[13] == '-' && s[16] == '-' && s[19] == 'Z'
      && 1 <= ParseInt(s[5..7]) <= 12 && 1 <= ParseInt(s[8..10]) <= 31 && ParseInt(s[11..13]) <= 24
      && ParseInt(s[14..16]) < 60 && ParseInt(s[17..19]) < 60
  {
    ParseTwo(s[5..7]);
    ParseTwo(s[8..10]);
    ParseTwo(s[11..13]);
    ParseTwo(s[14..16]);
    ParseTwo(s[17..19]);
  }

  lemma ParseTwo(s: string)
    requires |s| == 2 && IsDigit(s[0]) && IsDigit(s[1])
    ensures ParseInt(s) == 10 * DigitOf(s[0]) + DigitOf(s[1])
  {
    var first := s[..1];
    assert first[..0] == [] && first[0] == s[0];
    assert ParseInt(first) == DigitOf(s[0]);
  }

  function ReplaceDashes(s: string): (r: string)
    ensures |r| == |s|
  {
    seq(|s|, i requires 0 <= i < |s| => if s[i] == '-' then ':' else s[i])
  }

  /** Turns the dashes of the time back into colons. */
  function ParseTimestamp(s: string): string
    requires IsValidTimestamp(s)
  {
    s[..11] + ReplaceDashes(s[11..])
  }

  function Nth(s: seq<string>, i: nat): Option<string> {
    if i < |s| then Some(s[i]) else None
  }

  function ParsedTime(tenant: string, s: Option<string>): Option<string> {
    if tenant != EXCLUDED_ROOT && s.Some? && IsValidTimestamp(s.value) then Some(ParseTimestamp(s.value)) else s
  }

  /** Reads the two folders, and then the dotted values by the key table of the operation; parts beyond the
      table, such as the extension, are dropped. */
  function Parse(name: string): Parsed {
    var segments := Split(name, '/');
    var n := |segments|;
    var tenant := if n == 1 then "." else segments[0];
    var operation := if n >= 3 then Some(segments[1]) else None;
    var values := Split(segments[n - 1], '.');
    if operation == Some("backup") then
      Parsed(name, tenant, operation, Nth(values, 0), Nth(values, 1), Nth(values, 2), ParsedTime(tenant, Nth(values, 3)))
    else if operation == Some("restore") then
      Parsed(name, tenant, operation, Nth(values, 0), Nth(values, 1), None, None)
    else
      Parsed(name, tenant, operation, None, None, None, None)
  }

  predicate Plain(s: string) { '.' !in s && '/' !in s }

  predicate PlainField(s: string) { s != "" && Plain(s) }

  /** Metadata as the two key tables ask for it. */
  predicate Complete(m: Metadata) {
    && PlainSegment(m.tenant_id) && PlainField(m.service_id) && PlainField(m.instance_guid)
    && (m.operation == "backup" ==>
          && m.backup_guid.Some? && PlainField(m.backup_guid.value)
          && m.started_at.Some?)
    && (m.operation == "restore" ==> m.backup_guid.None? && m.started_at.None?)
    && m.operation in {"backup", "restore"}
  }

  /** Metadata is complete if its root is one folder and its fields are not empty and free of dots and slashes. */
  lemma FieldsSuffice(tenant: string, service: string, instance: string, backup: string, started: Instant)
    requires tenant != "" && tenant != "." && tenant != ".." && '/' !in tenant
    requires service != "" && '.' !in service && '/' !in service
    requires instance != "" && '.' !in instance && '/' !in instance
    requires backup != "" && '.' !in backup && '/' !in backup
    ensures Complete(Metadata(tenant, "backup", service, instance, Some(backup), Some(started)))
    ensures Complete(Metadata(tenant, "restore", service, instance, None, None))
  {
  }

  ghost predicate HasShape(s: string, c: Civil, sep: char) {
    && |s| == 20
    && s[0..4] == Pad(c.year, 4) && s[4] == '-' && s[5..7] == Pad(c.month, 2) && s[7] == '-'
    && s[8..10] == Pad(c.day, 2) && s[10] == 'T' && s[11..13] == Pad(c.hour, 2) && s[13] == sep
    && s[14..16] == Pad(c.minute, 2) && s[16] == sep && s[17..19] == Pad(c.second, 2) && s[19] == 'Z'
  }

  lemma PrintedShape(c: Civil, sep: char)
    ensures HasShape(Print(c, sep), c, sep)
  {
    JoinedFields(Pad(c.year, 4), Pad(c.month, 2), Pad(c.day, 2), Pad(c.hour, 2), Pad(c.minute, 2), Pad(c.second, 2), sep);
  }

  /** Where the fields of a printed time stand. */
  lemma JoinedFields(y: string, m: string, d: string, h: string, min: string, sec: string, sep: char)
    requires |y| == 4 && |m| == |d| == |h| == |min| == |sec| == 2
    ensures var s := y + (['-'] + (m + (['-'] + (d + (['T'] + (h + ([sep] + (min + ([sep] + (sec + ['Z']))))))))));
      && |s| == 20
      && s[0..4] == y && s[4] == '-' && s[5..7] == m && s[7] == '-' && s[8..10] == d && s[10] == 'T'
      && s[11..13] == h && s[13] == sep && s[14..16] == min && s[16] == sep && s[17..19] == sec && s[19] == 'Z'
  {
    var seconds := sec + ['Z'];
    var minutes := min + ([sep] + seconds);
    var hours := h + ([sep] + minutes);
    var days := d + (['T'] + hours);
    var months := m + (['-'] + days);
    var s := y + (['-'] + months);
    assert s[5..] == months && s[8..] == days && s[11..] == hours && s[14..] == minutes && s[17..] == seconds;
  }

  /** The printed form is plain digits around its separators. */
  lemma ShapeIsDigits(s: string, c: Civil, sep: char)
    requires HasShape(s, c, sep)
    ensures forall i | 0 <= i < 20 && i !in {4, 7, 10, 13, 16, 19} :: IsDigit(s[i])
  {
  }

  lemma TwoDigits(n: nat, s: string)
    requires n < 100 && s == Pad(n, 2)
    ensures s[0] == Digit(n / 10) && s[1] == Digit(n % 10)
  {
    var high := n / 10;
    assert high % 10 == high;
    assert Pad(high, 1) == Pad(high / 10, 0) + [Digit(high)] == [Digit(high)];
    assert s == Pad(high, 1) + [Digit(n % 10)];
  }

  lemma FieldsMakeValid(c: Civil, s: string)
    requires 1 <= c.month <= 12 && 1 <= c.day <= 31 && c.hour < 24 && c.minute < 60 && c.second < 60
    requires HasShape(s, c, '-')
    ensures IsValidTimestamp(s)
  {
    ShapeIsDigits(s, c, '-');
    TwoDigits(c.month, s[5..7]);
    TwoDigits(c.day, s[8..10]);
    TwoDigits(c.hour, s[11..13]);
    TwoDigits(c.minute, s[14..16]);
    TwoDigits(c.second, s[17..19]);
    assert s[5] == s[5..7][0] && s[6] == s[5..7][1] && s[8] == s[8..10][0] && s[9] == s[8..10][1];
    assert s[11] == s[11..13][0] && s[12] == s[11..13][1] && s[14] == s[14..16][0] && s[17] == s[17..19][0];
  }

  /** Reading the time of a file name back gives the printed start time. */
  lemma TimestampRoundTrip(instant: Instant)
    ensures IsValidTimestamp(Timestamp(instant)) && ParseTimestamp(Timestamp(instant)) == IsoDate(instant)
    ensures Plain(Timestamp(instant))
  {
    var c := CivilOf(instant);
    CivilRanges(instant);
    PrintedShape(c, '-');
    PrintedShape(c, ':');
    ShapesConvert(c, Print(c, '-'), Print(c, ':'));
  }

  lemma ShapesConvert(c: Civil, s: string, t: string)
    requires 1 <= c.month <= 12 && 1 <= c.day <= 31 && c.hour < 24 && c.minute < 60 && c.second < 60
    requires HasShape(s, c, '-') && HasShape(t, c, ':')
    ensures IsValidTimestamp(s) && ParseTimestamp(s) == t && Plain(s)
  {
    FieldsMakeValid(c, s);
    forall i | 0 <= i < 20 ensures ParseTimestamp(s)[i] == t[i] {
      SameField(s, t, i);
    }
    ShapeIsDigits(s, c, '-');
    forall i | 0 <= i < 20 ensures s[i] != '.' && s[i] != '/' {
    }
  }

  lemma SameField(s: string, t: string, i: nat)
    requires |s| == |t| == 20 && i < 20 && IsValidTimestamp(s)
    requires t[4] == '-' && t[7] == '-' && t[10] == 'T' && t[13] == ':' && t[16] == ':' && t[19] == 'Z'
    requires s[0..4] == t[0..4] && s[5..7] == t[5..7] && s[8..10] == t[8..10]
    requires s[11..13] == t[11..13] && s[14..16] == t[14..16] && s[17..19] == t[17..19]
    ensures ParseTimestamp(s)[i] == t[i]
  {
    if i < 4 { assert s[0..4][i] == t[0..4][i]; }
    else if 5 <= i < 7 { assert s[5..7][i - 5] == t[5..7][i - 5]; }
    else if 8 <= i < 10 { assert s[8..10][i - 8] == t[8..10][i - 8]; }
    else if 11 <= i < 13 { assert s[11..13][i - 11] == t[11..13][i - 11]; }
    else if 14 <= i < 16 { assert s[14..16][i - 14] == t[14..16][i - 14]; }
    else if 17 <= i < 19 { assert s[17..19][i - 17] == t[17..19][i - 17]; }
  }

  /** The printed time reads as its fields, between dashes in a file name, and colons in an ISO date. */
  lemma TimestampFields(instant: Instant)
    ensures ReadsAs(Timestamp(instant), CivilOf(instant), '-') && ReadsAs(IsoDate(instant), CivilOf(instant), ':')
  {
    CivilRanges(instant);
    PrintedReads(CivilOf(instant), '-');
    PrintedReads(CivilOf(instant), ':');
  }

  predicate ReadsAs(s: string, c: Civil, sep: char) {
    && |s| == 20 && s[4] == '-' && s[7] == '-' && s[10] == 'T' && s[13] == sep && s[16] == sep && s[19] == 'Z'
    && (forall i | 0 <= i < 20 && i !in {4, 7, 10, 13, 16, 19} :: IsDigit(s[i]))
    && ParseInt(s[0..4]) == c.year && ParseInt(s[5..7]) == c.month && ParseInt(s[8..10]) == c.day
    && ParseInt(s[11..13]) == c.hour && ParseInt(s[14..16]) == c.minute && ParseInt(s[17..19]) == c.second
  }

  lemma PrintedReads(c: Civil, sep: char)
    requires InRange(c)
    ensures ReadsAs(Print(c, sep), c, sep)
  {
    var s := Print(c, sep);
    assert Pow10(2) == 100 && Pow10(4) == 10000;
    PrintedShape(c, sep);
    ShapeIsDigits(s, c, sep);
    ParsePad(c.year, 4);
    ParsePad(c.month, 2);
    ParsePad(c.day, 2);
    ParsePad(c.hour, 2);
    ParsePad(c.minute, 2);
    ParsePad(c.second, 2);
  }

  /** The names of the files. */
  lemma NamesAre(m: Metadata)
    requires Complete(m)
    ensures m.operation == "backup" ==>
      Stringify(m) == m.tenant_id + ("/backup/" + (m.service_id + ("." + (m.instance_guid + ("." + (m.backup_guid.value
                    + ("." + (Timestamp(m.started_at.value) + ".json"))))))))
    ensures m.operation == "restore" ==>
      Stringify(m) == m.tenant_id + ("/restore/" + (m.service_id + ("." + (m.instance_guid + ".json"))))
  {
    if m.operation == "backup" {
      BackupNameIs(m.tenant_id, m.service_id, m.instance_guid, m.backup_guid.value, Timestamp(m.started_at.value));
    } else {
      RestoreNameIs(m.tenant_id, m.service_id, m.instance_guid);
    }
  }

  lemma JoinedFirst(a: string, rest: seq<string>, sep: char)
    requires rest != []
    ensures Join([a] + rest, sep) == a + ([sep] + Join(rest, sep))
  {
    assert ([a] + rest)[1..] == rest;
  }

  lemma RestoreNameIs(t: string, a: string, b: string)
    ensures FileName(t, "restore", [a, b] + []) == t + ("/restore/" + (a + ("." + (b + ".json"))))
  {
    JoinedFirst(b, ["json"], '.');
    JoinedFirst(a, [b] + ["json"], '.');
    assert [a] + ([b] + ["json"]) == [a, b] + [] + ["json"];
    var base := Join([a, b] + [] + ["json"], '.');
    JoinedFirst("restore", [base], '/');
    JoinedFirst(t, ["restore"] + [base], '/');
    assert [t] + (["restore"] + [base]) == [t, "restore", base];
    assert ['/'] + ("restore" + (['/'] + base)) == "/restore/" + base;
    assert b + (['.'] + "json") == b + ".json";
  }

  lemma BackupNameIs(t: string, a: string, b: string, c: string, d: string)
    ensures FileName(t, "backup", [a, b] + [c, d])
         == t + ("/backup/" + (a + ("." + (b + ("." + (c + ("." + (d + ".json"))))))))
  {
    JoinedFirst(d, ["json"], '.');
    JoinedFirst(c, [d] + ["json"], '.');
    JoinedFirst(b, [c] + ([d] + ["json"]), '.');
    JoinedFirst(a, [b] + ([c] + ([d] + ["json"])), '.');
    assert [a] + ([b] + ([c] + ([d] + ["json"]))) == [a, b] + [c, d] + ["json"];
    var base := Join([a, b] + [c, d] + ["json"], '.');
    JoinedFirst("backup", [base], '/');
    JoinedFirst(t, ["backup"] + [base], '/');
    assert [t] + (["backup"] + [base]) == [t, "backup", base];
    assert ['/'] + ("backup" + (['/'] + base)) == "/backup/" + base;
    assert d + (['.'] + "json") == d + ".json";
  }

  /** What parsing should give back: every field that the key table lists, with the start time to the second,
      and under the excluded root in the form of the file name. */
  function Recovered(m: Metadata): Parsed {
    Parsed(Stringify(m), m.tenant_id, Some(m.operation), Some(m.service_id), Some(m.instance_guid), m.backup_guid,
           if m.started_at.None? then None
           else if m.tenant_id == EXCLUDED_ROOT then Some(Timestamp(m.started_at.value))
           else Some(IsoDate(m.started_at.value)))
  }

  lemma FilenameRoundTrip(m: Metadata)
    requires Complete(m)
    ensures Parse(Stringify(m)) == Recovered(m)
  {
    ValuesArePlain(m);
    if m.operation == "backup" {
      TimestampRoundTrip(m.started_at.value);
      BackupNameParses(m.tenant_id, m.service_id, m.instance_guid, m.backup_guid.value, Timestamp(m.started_at.value));
    } else {
      RestoreNameParses(m.tenant_id, m.service_id, m.instance_guid);
    }
  }

  /** Names of other forms: without two folders there is no operation, and without a key table for it no field. */
  lemma OtherNames(tenant: string, operation: string, base: string)
    requires tenant != "" && '/' !in tenant && '/' !in operation && base != "" && '/' !in base
    ensures Parse(base) == Parsed(base, ".", None, None, None, None, None)
    ensures var name := tenant + ("/" + base); Parse(name) == Parsed(name, tenant, None, None, None, None, None)
    ensures operation != "backup" && operation != "restore" ==>
      var name := tenant + ("/" + (operation + ("/" + base)));
      Parse(name) == Parsed(name, tenant, Some(operation), None, None, None, None)
  {
    SplitJoined([base], '/');
    FewSegments(base);
    TwoSegments(tenant, base);
    FewSegments(tenant + ("/" + base));
    ThreeSegments(tenant, operation, base);
    if operation != "backup" && operation != "restore" { NoKeyTable(tenant + ("/" + (operation + ("/" + base)))); }
  }

  lemma FewSegments(name: string)
    requires |Split(name, '/')| < 3
    ensures var s := Split(name, '/');
      Parse(name) == Parsed(name, if |s| == 1 then "." else s[0], None, None, None, None, None)
  {
  }

  lemma NoKeyTable(name: string)
    requires |Split(name, '/')| >= 3 && Split(name, '/')[1] != "backup" && Split(name, '/')[1] != "restore"
    ensures var s := Split(name, '/');
      Parse(name) == Parsed(name, s[0], Some(s[1]), None, None, None, None)
  {
  }

  lemma TwoSegments(a: string, b: string)
    requires '/' !in a && '/' !in b
    ensures Split(a + ("/" + b), '/') == [a, b]
  {
    JoinedFirst(a, [b], '/');
    SplitJoined([a] + [b], '/');
  }

  lemma ThreeSegments(a: string, b: string, c: string)
    requires '/' !in a && '/' !in b && '/' !in c
    ensures Split(a + ("/" + (b + ("/" + c))), '/') == [a, b, c]
  {
    JoinedFirst(b, [c], '/');
    JoinedFirst(a, [b] + [c], '/');
    SplitJoined([a] + ([b] + [c]), '/');
  }

  lemma BackupNameParses(tenant: string, service: string, instance: string, backup: string, stamp: string)
    requires '/' !in tenant && Plain(service) && Plain(instance) && Plain(backup) && Plain(stamp)
    ensures var name := FileName(tenant, "backup", [service, instance] + [backup, stamp]);
      Parse(name) == Parsed(name, tenant, Some("backup"), Some(service), Some(instance), Some(backup), ParsedTime(tenant, Some(stamp)))
  {
    var values := [service, instance] + [backup, stamp];
    NameSplits(tenant, "backup", values);
  }

  lemma RestoreNameParses(tenant: string, service: string, instance: string)
    requires '/' !in tenant && Plain(service) && Plain(instance)
    ensures var name := FileName(tenant, "restore", [service, instance] + []);
      Parse(name) == Parsed(name, tenant, Some("restore"), Some(service), Some(instance), None, None)
  {
    NameSplits(tenant, "restore", [service, instance] + []);
  }

  lemma NameSplits(tenant: string, operation: string, values: seq<string>)
    requires '/' !in tenant && '/' !in operation
    requires forall v | v in values :: Plain(v)
    ensures var base := Join(values + ["json"], '.');
      && Split(FileName(tenant, operation, values), '/') == [tenant, operation, base]
      && Split(base, '.') == values + ["json"]
  {
    var all := values + ["json"];
    SplitJoined(all, '.');
    JoinIsFree(all, '.', '/');
    SplitJoined([tenant, operation, Join(all, '.')], '/');
  }

  lemma ValuesArePlain(m: Metadata)
    requires Complete(m)
    ensures forall v | v in Values(m) :: Plain(v)
  {
    if m.started_at.Some? {
      TimestampRoundTrip(m.started_at.value);
    }
  }

  lemma {:induction false} JoinIsFree(parts: seq<string>, sep: char, c: char)
    requires |parts| > 0 && sep != c && forall p | p in parts :: c !in p
    ensures c !in Join(parts, sep)
  {
    if |parts| > 1 { JoinIsFree(parts[1..], sep, c); }
  }

  // ---- The newest backup ----

  /** A parsed file, and the instant at which the backup that it describes started; the start times of files under
      the excluded root are left as they are printed in the file name. */
  datatype Listed = Listed(file: Parsed, started: Instant, excluded: bool)

  /** Undefined start times come last. */
  predicate Sooner(a: Listed, b: Listed) {
    a.file.started_at.Some? && (b.file.started_at.None? || Before(a.file.started_at.value, b.file.started_at.value))
  }

  function Insert(f: Listed, sorted: seq<Listed>): seq<Listed> {
    if sorted == [] || !Sooner(sorted[0], f) then [f] + sorted else [sorted[0]] + Insert(f, sorted[1..])
  }

  /** The stable sort by start time. */
  function SortByStart(files: seq<Listed>): seq<Listed> {
    if files == [] then [] else Insert(files[0], SortByStart(files[1..]))
  }

  /** By the hour, then the excluded root first, then by the second. */
  function Rank(f: Listed): int {
    Hour(f.started) * 7200 + (if f.excluded then 0 else 3600) + Seconds(f.started) % 3600
  }

  /** Among these files, printed start times compare as the ranks do. */
  ghost predicate Comparable(files: seq<Listed>) {
    forall f, g | f in files && g in files :: Sooner(f, g) <==> Rank(f) < Rank(g)
  }

  ghost predicate InOrder(sorted: seq<Listed>) {
    forall i, j | 0 <= i < j < |sorted| :: Rank(sorted[i]) <= Rank(sorted[j])
  }

  lemma {:induction false} InsertKeeps(f: Listed, sorted: seq<Listed>)
    ensures multiset(Insert(f, sorted)) == multiset(sorted) + multiset{f}
  {
    if sorted != [] && Sooner(sorted[0], f) {
      InsertKeeps(f, sorted[1..]);
      assert sorted == [sorted[0]] + sorted[1..];
    }
  }

  lemma {:induction false} SortKeeps(files: seq<Listed>)
    ensures multiset(SortByStart(files)) == multiset(files)
  {
    if files != [] {
      SortKeeps(files[1..]);
      InsertKeeps(files[0], SortByStart(files[1..]));
      assert files == [files[0]] + files[1..];
    }
  }

  /** The files of one start time, in order. */
  function StartingAt(files: seq<Listed>, start: Option<string>): seq<Listed> {
    if files == [] then []
    else (if files[0].file.started_at == start then [files[0]] else []) + StartingAt(files[1..], start)
  }

  lemma {:induction false} InsertIsStable(f: Listed, sorted: seq<Listed>, start: Option<string>)
    ensures StartingAt(Insert(f, sorted), start) == StartingAt([f] + sorted, start)
  {
    if sorted != [] && Sooner(sorted[0], f) {
      var first, rest := sorted[0], sorted[1..];
      InsertIsStable(f, rest, start);
      NotBeforeItself(first.file.started_at);
      assert ([first] + Insert(f, rest))[1..] == Insert(f, rest) && ([f] + rest)[1..] == rest && ([f] + sorted)[1..] == sorted;
    }
  }

  lemma NotBeforeItself(start: Option<string>)
    ensures start.Some? ==> !Before(start.value, start.value)
  {
    if start.Some? {
      assert start.value + "" == start.value;
      BeforeAfterPrefix(start.value, "", "");
    }
  }

  /** Sorting leaves files of one start time in the order in which they were listed. */
  lemma {:induction false} SortIsStable(files: seq<Listed>, start: Option<string>)
    ensures StartingAt(SortByStart(files), start) == StartingAt(files, start)
  {
    if files != [] {
      var sorted := SortByStart(files[1..]);
      SortIsStable(files[1..], start);
      InsertIsStable(files[0], sorted, start);
      assert ([files[0]] + sorted)[1..] == sorted;
    }
  }

  lemma {:induction false} InsertInOrder(f: Listed, sorted: seq<Listed>)
    requires (forall g | g in sorted :: Sooner(g, f) <==> Rank(g) < Rank(f)) && InOrder(sorted)
    ensures InOrder(Insert(f, sorted))
  {
    if sorted != [] && Sooner(sorted[0], f) {
      var first, rest := sorted[0], sorted[1..];
      assert first in sorted;
      InsertInOrder(f, rest);
      InsertKeeps(f, rest);
      forall g | g in Insert(f, rest) ensures Rank(first) <= Rank(g) {
        assert g in multiset(Insert(f, rest));
      }
      FirstInOrder(first, Insert(f, rest));
    }
  }

  lemma FirstInOrder(first: Listed, rest: seq<Listed>)
    requires InOrder(rest) && forall g | g in rest :: Rank(first) <= Rank(g)
    ensures InOrder([first] + rest)
  {
  }

  lemma {:induction false} SortInOrder(files: seq<Listed>)
    requires Comparable(files)
    ensures InOrder(SortByStart(files))
  {
    if files != [] {
      SortInOrder(files[1..]);
      SortKeeps(files[1..]);
      forall g | g in SortByStart(files[1..]) ensures g in files {
        assert g in multiset(SortByStart(files[1..]));
      }
      InsertInOrder(files[0], SortByStart(files[1..]));
    }
  }

  lemma SameFiles(files: seq<Listed>)
    ensures |SortByStart(files)| == |files| && forall f :: f in SortByStart(files) <==> f in files
  {
    SortKeeps(files);
    var sorted := SortByStart(files);
    assert |multiset(sorted)| == |multiset(files)|;
    forall f ensures f in sorted <==> f in files {
      assert f in sorted <==> f in multiset(sorted);
      assert f in files <==> f in multiset(files);
    }
  }

  /** The last file is one of the files, */
  lemma LastIsListed(files: seq<Listed>) returns (k: nat)
    requires files != []
    ensures |SortByStart(files)| == |files| && k < |files| && SortByStart(files)[|files| - 1] == files[k]
  {
    SameFiles(files);
    var last := SortByStart(files)[|files| - 1];
    assert last in files;
    k :| 0 <= k < |files| && files[k] == last;
  }

  /** and none comes after it. */
  lemma NoneAfterLast(files: seq<Listed>, f: Listed)
    requires f in files && Comparable(files) && |SortByStart(files)| == |files|
    ensures Rank(f) <= Rank(SortByStart(files)[|files| - 1])
  {
    SameFiles(files);
    SortInOrder(files);
    var sorted := SortByStart(files);
    assert f in sorted;
    var j :| 0 <= j < |sorted| && sorted[j] == f;
  }

  ghost predicate AreBackups(backups: seq<Metadata>) {
    forall i | 0 <= i < |backups| :: Complete(backups[i]) && backups[i].operation == "backup"
  }

  function ListedOf(m: Metadata): Listed
    requires m.started_at.Some?
  {
    Listed(Parse(Stringify(m)), m.started_at.value, m.tenant_id == EXCLUDED_ROOT)
  }

  /** The files of backups, as they are named and parsed. */
  ghost function Listing(backups: seq<Metadata>): (files: seq<Listed>)
    requires AreBackups(backups)
    ensures |files| == |backups| && forall i | 0 <= i < |files| :: files[i] == ListedOf(backups[i])
  {
    seq(|backups|, i requires 0 <= i < |backups| => ListedOf(backups[i]))
  }

  ghost predicate StartIsPrinted(f: Listed) {
    f.file.started_at == Some(Print(CivilOf(f.started), if f.excluded then '-' else ':'))
  }

  lemma ParsedStartIsPrinted(m: Metadata)
    requires Complete(m) && m.operation == "backup"
    ensures StartIsPrinted(ListedOf(m))
  {
    FilenameRoundTrip(m);
  }

  lemma PrintedCompare(f: Listed, g: Listed)
    requires StartIsPrinted(f) && StartIsPrinted(g)
    ensures Sooner(f, g) <==> Rank(f) < Rank(g)
  {
    MixedOrder(f.started, g.started, if f.excluded then '-' else ':', if g.excluded then '-' else ':');
  }

  lemma ListingIsComparable(backups: seq<Metadata>)
    requires AreBackups(backups)
    ensures Comparable(Listing(backups))
  {
    var files := Listing(backups);
    forall f | f in files ensures StartIsPrinted(f) {
      var i :| 0 <= i < |files| && files[i] == f;
      ParsedStartIsPrinted(backups[i]);
    }
    forall f, g | f in files && g in files ensures Sooner(f, g) <==> Rank(f) < Rank(g) {
      PrintedCompare(f, g);
    }
  }

  /** The last file after sorting by the printed start time is one that no other file outranks. */
  lemma LastIsGreatest(files: seq<Listed>) returns (k: nat)
    requires files != [] && Comparable(files)
    ensures |SortByStart(files)| == |files| && k < |files| && SortByStart(files)[|files| - 1] == files[k]
    ensures Greatest(files, k)
  {
    k := LastIsListed(files);
    forall i | 0 <= i < |files| ensures Rank(files[i]) <= Rank(files[k]) {
      NoneAfterLast(files, files[i]);
    }
  }

  ghost predicate Greatest(files: seq<Listed>, k: nat)
    requires k < |files|
  {
    forall i | 0 <= i < |files| :: Rank(files[i]) <= Rank(files[k])
  }

  ghost predicate IsNewest(files: seq<Listed>, k: nat)
    requires k < |files|
  {
    forall i | 0 <= i < |files| :: Seconds(files[i].started) <= Seconds(files[k].started)
  }

  predicate OutsideInHour(f: Listed, g: Listed) {
    !f.excluded && Hour(f.started) == Hour(g.started)
  }

  /** A backup under the excluded root started in the last hour of all, and in that hour others started outside
      that root, all of them earlier. */
  ghost predicate Eclipsed(files: seq<Listed>, i: nat)
    requires i < |files|
  {
    && files[i].excluded
    && (forall j | 0 <= j < |files| :: Hour(files[j].started) <= Hour(files[i].started))
    && (exists j | 0 <= j < |files| :: OutsideInHour(files[j], files[i]))
    && (forall j | 0 <= j < |files| && OutsideInHour(files[j], files[i]) ::
          Seconds(files[j].started) < Seconds(files[i].started))
  }

  /** A higher rank is a later second, but for an excluded file and one outside its root in one hour. */
  lemma RankAndSecond(f: Listed, g: Listed)
    requires Rank(f) <= Rank(g) && Seconds(f.started) > Seconds(g.started)
    ensures f.excluded && !g.excluded && Hour(f.started) == Hour(g.started)
  {
  }

  lemma EclipsedIsNotLast(files: seq<Listed>, i: nat, k: nat)
    requires k < |files| && Greatest(files, k) && i < |files| && Eclipsed(files, i)
    ensures !IsNewest(files, k)
  {
    var j :| 0 <= j < |files| && OutsideInHour(files[j], files[i]);
    assert Rank(files[j]) <= Rank(files[k]);
    assert OutsideInHour(files[k], files[i]);
  }

  lemma LaterIsEclipsed(files: seq<Listed>, i: nat, k: nat)
    requires k < |files| && Greatest(files, k) && i < |files|
    requires Seconds(files[i].started) > Seconds(files[k].started)
    ensures Eclipsed(files, i)
  {
    RankAndSecond(files[i], files[k]);
    assert OutsideInHour(files[k], files[i]);
    forall j | 0 <= j < |files|
      ensures Hour(files[j].started) <= Hour(files[i].started)
      ensures OutsideInHour(files[j], files[i]) ==> Seconds(files[j].started) < Seconds(files[i].started)
    {
      if Seconds(files[j].started) > Seconds(files[k].started) {
        RankAndSecond(files[j], files[k]);
      }
    }
  }

  lemma LastIsNewest(files: seq<Listed>, k: nat)
    requires k < |files| && Greatest(files, k)
    ensures IsNewest(files, k) <==> NoneEclipsed(files)
  {
    if !NoneEclipsed(files) {
      var i: nat :| i < |files| && Eclipsed(files, i);
      EclipsedIsNotLast(files, i, k);
    }
    if !IsNewest(files, k) {
      var i: nat :| i < |files| && Seconds(files[i].started) > Seconds(files[k].started);
      LaterIsEclipsed(files, i, k);
    }
  }

  ghost predicate NoneEclipsed(files: seq<Listed>) {
    forall i: nat | i < |files| :: !Eclipsed(files, i)
  }

  /** File `k` comes last, and it is the newest exactly if none is eclipsed. */
  ghost predicate LastAndNewest(files: seq<Listed>, k: nat) {
    && k < |files| && |SortByStart(files)| == |files| && SortByStart(files)[|files| - 1] == files[k]
    && (IsNewest(files, k) <==> NoneEclipsed(files))
  }

  lemma LastOfComparable(files: seq<Listed>) returns (k: nat)
    requires files != [] && Comparable(files)
    ensures LastAndNewest(files, k)
  {
    k := LastIsGreatest(files);
    LastIsNewest(files, k);
  }

  /** In any listing of backups, the last file after sorting by the printed start time is the file of one with
      the greatest start second exactly if none is eclipsed; */
  lemma NewestIsLast(backups: seq<Metadata>) returns (k: nat)
    requires backups != [] && AreBackups(backups)
    ensures LastAndNewest(Listing(backups), k)
  {
    ListingIsComparable(backups);
    k := LastOfComparable(Listing(backups));
  }

  /** and none is where all are of one tenant, as in every listing that the newest backup is taken from. */
  lemma OneTenantEclipsesNone(backups: seq<Metadata>, i: nat)
    requires AreBackups(backups) && i < |backups|
    requires forall j | 0 <= j < |backups| :: backups[j].tenant_id == backups[0].tenant_id
    ensures !Eclipsed(Listing(backups), i)
  {
    var files := Listing(backups);
    assert forall j | 0 <= j < |backups| :: files[j].excluded == files[0].excluded;
  }
}
