/**
  The exchange calendar: proleptic Gregorian dates, the weekday and observance
  rules, the computed Easter, and the searches for the neighbouring trading day.
  `Ordinal` counts days as Python's `date.toordinal` does.
 */
module Calendar {

  datatype Date = Date(year: int, month: int, day: int)

  const MON := 0
  const THU := 3
  const FRI := 4
  const SAT := 5
  const SUN := 6

  // ---------------------------------------------------------------- dates

  predicate IsLeap(y: int) {
    y % 4 == 0 && (y % 100 != 0 || y % 400 == 0)
  }

  function DaysInMonth(y: int, m: int): int
    requires 1 <= m <= 12
  {
    if m == 2 then (if IsLeap(y) then 29 else 28)
    else if m == 4 || m == 6 || m == 9 || m == 11 then 30
    else 31
  }

  predicate Valid(d: Date) {
    1 <= d.month <= 12 && 1 <= d.day <= DaysInMonth(d.year, d.month)
  }

  function DaysBeforeYear(y: int): int {
    365 * (y - 1) + (y - 1) / 4 - (y - 1) / 100 + (y - 1) / 400
  }

  function DaysBeforeMonth(y: int, m: int): int
    requires 1 <= m <= 12
  {
    if m == 1 then 0 else DaysBeforeMonth(y, m - 1) + DaysInMonth(y, m - 1)
  }

  function Ordinal(d: Date): int
    requires Valid(d)
  {
    DaysBeforeYear(d.year) + DaysBeforeMonth(d.year, d.month) + d.day
  }

  function Weekday(d: Date): int
    requires Valid(d)
  {
    (Ordinal(d) + 6) % 7
  }

  /** The cumulative day counts, month by month. */
  lemma MonthTable(y: int)
    ensures var leap := if IsLeap(y) then 1 else 0;
            && DaysBeforeMonth(y, 1) == 0 && DaysBeforeMonth(y, 2) == 31
            && DaysBeforeMonth(y, 3) == 59 + leap && DaysBeforeMonth(y, 4) == 90 + leap
            && DaysBeforeMonth(y, 5) == 120 + leap && DaysBeforeMonth(y, 6) == 151 + leap
            && DaysBeforeMonth(y, 7) == 181 + leap && DaysBeforeMonth(y, 8) == 212 + leap
            && DaysBeforeMonth(y, 9) == 243 + leap && DaysBeforeMonth(y, 10) == 273 + leap
            && DaysBeforeMonth(y, 11) == 304 + leap && DaysBeforeMonth(y, 12) == 334 + leap
  {
    assert DaysBeforeMonth(y, 2) == 31;
    assert DaysBeforeMonth(y, 4) == DaysBeforeMonth(y, 3) + 31;
    assert DaysBeforeMonth(y, 6) == DaysBeforeMonth(y, 5) + 31;
    assert DaysBeforeMonth(y, 8) == DaysBeforeMonth(y, 7) + 31;
    assert DaysBeforeMonth(y, 10) == DaysBeforeMonth(y, 9) + 30;
  }

  lemma FourthYears(y: int)
    ensures y / 4 - (y - 1) / 4 == if y % 4 == 0 then 1 else 0
  {
  }

  lemma Centuries(y: int)
    ensures y / 100 - (y - 1) / 100 == if y % 100 == 0 then 1 else 0
  {
  }

  lemma FourCenturies(y: int)
    ensures y / 400 - (y - 1) / 400 == if y % 400 == 0 then 1 else 0
  {
  }

  lemma MultiplesNest(y: int)
    ensures y % 400 == 0 ==> y % 100 == 0
    ensures y % 100 == 0 ==> y % 4 == 0
  {
    if y % 400 == 0 {
      var q := 4 * (y / 400);
      assert y == 100 * q;
    }
    if y % 100 == 0 {
      var q := 25 * (y / 100);
      assert y == 4 * q;
    }
  }

  lemma YearLength(y: int)
    ensures DaysBeforeYear(y + 1) == DaysBeforeYear(y) + 365 + (if IsLeap(y) then 1 else 0)
  {
    FourthYears(y);
    Centuries(y);
    FourCenturies(y);
    MultiplesNest(y);
  }

  lemma {:induction false} YearsIncrease(y1: int, y2: int)
    requires y1 <= y2
    ensures DaysBeforeYear(y1) + 365 * (y2 - y1) <= DaysBeforeYear(y2)
    decreases y2 - y1
  {
    if y1 < y2 {
      YearLength(y1);
      YearsIncrease(y1 + 1, y2);
    }
  }

  /** A valid date's ordinal stays inside its own year. */
  lemma OrdinalInYear(d: Date)
    requires Valid(d)
    ensures DaysBeforeYear(d.year) < Ordinal(d) <= DaysBeforeYear(d.year + 1)
  {
    MonthTable(d.year);
    YearLength(d.year);
    hide DaysBeforeYear;
  }

  predicate Before(d1: Date, d2: Date) {
    || d1.year < d2.year
    || (d1.year == d2.year && (d1.month < d2.month || (d1.month == d2.month && d1.day < d2.day)))
  }

  lemma BeforeIsLess(d1: Date, d2: Date)
    requires Valid(d1) && Valid(d2) && Before(d1, d2)
    ensures Ordinal(d1) < Ordinal(d2)
  {
    if d1.year < d2.year {
      OrdinalInYear(d1);
      OrdinalInYear(d2);
      YearsIncrease(d1.year + 1, d2.year);
      hide Ordinal, DaysBeforeYear;
    } else {
      MonthTable(d1.year);
      hide DaysBeforeYear;
    }
  }

  /** Calendar order is ordinal order: `Ordinal` is an order isomorphism onto its image. */
  lemma OrdinalOrder(d1: Date, d2: Date)
    requires Valid(d1) && Valid(d2)
    ensures Before(d1, d2) <==> Ordinal(d1) < Ordinal(d2)
    ensures Ordinal(d1) == Ordinal(d2) <==> d1 == d2
  {
    hide Ordinal;
    assert Before(d1, d2) || Before(d2, d1) || d1 == d2;
    if Before(d1, d2) { BeforeIsLess(d1, d2); }
    if Before(d2, d1) { BeforeIsLess(d2, d1); }
  }

  function NextDay(d: Date): (r: Date)
    requires Valid(d)
    ensures Valid(r) && Ordinal(r) == Ordinal(d) + 1
  {
    if d.day < DaysInMonth(d.year, d.month) then d.(day := d.day + 1)
    else if d.month < 12 then Date(d.year, d.month + 1, 1)
    else
      YearLength(d.year); MonthTable(d.year);
      Date(d.year + 1, 1, 1)
  }

  function PrevDay(d: Date): (r: Date)
    requires Valid(d)
    ensures Valid(r) && Ordinal(r) == Ordinal(d) - 1
  {
    if 1 < d.day then d.(day := d.day - 1)
    else if 1 < d.month then Date(d.year, d.month - 1, DaysInMonth(d.year, d.month - 1))
    else
      YearLength(d.year - 1); MonthTable(d.year - 1);
      Date(d.year - 1, 12, 31)
  }

  /** `d + timedelta(days=n)`. */
  function AddDays(d: Date, n: int): (r: Date)
    requires Valid(d)
    ensures Valid(r) && Ordinal(r) == Ordinal(d) + n
    decreases if n < 0 then -n else n
  {
    if n == 0 then d
    else if n > 0 then AddDays(NextDay(d), n - 1)
    else AddDays(PrevDay(d), n + 1)
  }

  /** Adding days that do not leave the month only moves the day field. */
  lemma AddDaysInMonth(d: Date, n: int)
    requires Valid(d) && 1 <= d.day + n <= DaysInMonth(d.year, d.month)
    ensures AddDays(d, n) == d.(day := d.day + n)
  {
    OrdinalOrder(AddDays(d, n), d.(day := d.day + n));
  }

  // --------------------------------------------------------- weekday rules

  function NthWeekday(year: int, month: int, weekday: int, n: int): (r: Date)
    requires 1 <= month <= 12
    ensures Valid(r)
  {
    var d := Date(year, month, 1);
    var offset := (weekday - Weekday(d)) % 7;
    AddDays(d, offset + 7 * (n - 1))
  }

  function LastWeekday(year: int, month: int, weekday: int): (r: Date)
    requires 1 <= month <= 12
    ensures Valid(r)
  {
    var nxt := if month == 12 then Date(year + 1, 1, 1) else Date(year, month + 1, 1);
    var d := AddDays(nxt, -1);
    AddDays(d, -((Weekday(d) - weekday) % 7))
  }

  function Observed(d: Date): (r: Date)
    requires Valid(d)
    ensures Valid(r)
  {
    if Weekday(d) == SAT then AddDays(d, -1)
    else if Weekday(d) == SUN then AddDays(d, 1)
    else d
  }

  /** Within one week of days there is exactly one with a given residue. */
  lemma WeekdayInWeek(w0: int, weekday: int, lo: int, day: int)
    requires 0 <= w0 < 7 && 0 <= weekday < 7 && lo <= day < lo + 7
    ensures (w0 + day - lo) % 7 == weekday <==> day == lo + (weekday - w0) % 7
  {
    var off := (weekday - w0) % 7;
    assert off == if weekday >= w0 then weekday - w0 else weekday - w0 + 7;
    var k := w0 + day - lo;
    assert k % 7 == if k < 7 then k else k - 7;
  }

  lemma WeekdayInLastWeek(w6: int, weekday: int, hi: int, day: int)
    requires 0 <= w6 < 7 && 0 <= weekday < 7 && hi - 7 < day <= hi
    ensures (w6 + day - hi) % 7 == weekday <==> day == hi - (w6 - weekday) % 7
  {
    var off := (w6 - weekday) % 7;
    assert off == if w6 >= weekday then w6 - weekday else w6 - weekday + 7;
    var k := w6 + day - hi;
    assert k % 7 == if k >= 0 then k else k + 7;
  }

  lemma WeekdayShift(d: Date, day: int)
    requires Valid(d) && 1 <= day <= DaysInMonth(d.year, d.month)
    ensures Weekday(d.(day := day)) == (Weekday(d) + day - d.day) % 7
  {
  }

  /** The n-th weekday is the only date of the month with that weekday in its week of the month. */
  lemma NthWeekdayIff(year: int, month: int, weekday: int, n: int, d: Date)
    requires 1 <= month <= 12 && 0 <= weekday < 7 && 1 <= n <= 4
    requires Valid(d) && d.year == year && d.month == month
    ensures d == NthWeekday(year, month, weekday, n)
            <==> Weekday(d) == weekday && 7 * (n - 1) < d.day <= 7 * n
    ensures var r := NthWeekday(year, month, weekday, n);
            r.year == year && r.month == month && Weekday(r) == weekday && 7 * (n - 1) < r.day <= 7 * n
  {
    hide Ordinal;
    var first := Date(year, month, 1);
    var lo := 7 * (n - 1) + 1;
    var start := first.(day := lo);
    WeekdayShift(first, lo);
    assert Weekday(start) == Weekday(first);
    var offset := (weekday - Weekday(first)) % 7;
    AddDaysInMonth(first, offset + 7 * (n - 1));
    WeekdayShift(start, lo + offset);
    WeekdayInWeek(Weekday(start), weekday, lo, lo + offset);
    if lo <= d.day < lo + 7 {
      WeekdayShift(start, d.day);
      WeekdayInWeek(Weekday(start), weekday, lo, d.day);
    }
  }

  lemma LastDayOfMonth(year: int, month: int)
    requires 1 <= month <= 12
    ensures var nxt := if month == 12 then Date(year + 1, 1, 1) else Date(year, month + 1, 1);
            AddDays(nxt, -1) == Date(year, month, DaysInMonth(year, month))
  {
    var nxt := if month == 12 then Date(year + 1, 1, 1) else Date(year, month + 1, 1);
    var last := Date(year, month, DaysInMonth(year, month));
    assert NextDay(last) == nxt;
    OrdinalOrder(AddDays(nxt, -1), last);
  }

  lemma LastWeekdayIs(year: int, month: int, weekday: int)
    requires 1 <= month <= 12 && 0 <= weekday < 7
    ensures var last := Date(year, month, DaysInMonth(year, month));
            LastWeekday(year, month, weekday) == last.(day := last.day - (Weekday(last) - weekday) % 7)
  {
    hide Ordinal;
    var last := Date(year, month, DaysInMonth(year, month));
    LastDayOfMonth(year, month);
    AddDaysInMonth(last, -((Weekday(last) - weekday) % 7));
  }

  /** The last weekday is the only date with that weekday in the last seven days of the month. */
  lemma LastWeekdayIff(year: int, month: int, weekday: int, d: Date)
    requires 1 <= month <= 12 && 0 <= weekday < 7
    requires Valid(d) && d.year == year && d.month == month
    ensures d == LastWeekday(year, month, weekday)
            <==> Weekday(d) == weekday && DaysInMonth(year, month) - 7 < d.day
  {
    hide Ordinal;
    var last := Date(year, month, DaysInMonth(year, month));
    var w6 := Weekday(last);
    LastWeekdayIs(year, month, weekday);
    if last.day - 7 < d.day {
      WeekdayShift(last, d.day);
      WeekdayInLastWeek(w6, weekday, last.day, d.day);
    }
  }

  // ---------------------------------------------------------------- Easter

  /** The named intermediate values of the anonymous Gregorian algorithm. */
  datatype Computus = Computus(a: int, b: int, c: int, d: int, e: int, f: int, g: int,
                               h: int, i: int, k: int, l: int, m: int)

  function Terms(year: int): Computus {
    var a := year % 19;
    var b := year / 100;
    var c := year % 100;
    var d := b / 4;
    var e := b % 4;
    var f := (b + 8) / 25;
    var g := (b - f + 1) / 3;
    var h := (19 * a + b - d - g + 15) % 30;
    var i := c / 4;
    var k := c % 4;
    var l := (32 + 2 * e + 2 * i - h - k) % 7;
    var m := (a + 11 * h + 22 * l) / 451;
    Computus(a, b, c, d, e, f, g, h, i, k, l, m)
  }

  function EasterSunday(year: int): Date {
    var t := Terms(year);
    Date(year, (t.h + t.l - 7 * t.m + 114) / 31, (t.h + t.l - 7 * t.m + 114) % 31 + 1)
  }

  /** Day `n` of March, where 32 is April 1. */
  function MarchDay(year: int, n: int): Date {
    if n <= 31 then Date(year, 3, n) else Date(year, 4, n - 31)
  }

  /** The ecclesiastical full moon, as a day of March, with the two epact corrections. */
  function PaschalMoon(year: int): int {
    var t := Terms(year);
    21 + t.h - (if t.h == 29 || (t.h == 28 && t.a > 10) then 1 else 0)
  }

  /** The ordinal of the last day of February. */
  function YearDays(year: int): int {
    365 * year + year / 4 - year / 100 + year / 400 - 306
  }

  lemma MarchOrdinal(year: int, n: int)
    requires 1 <= n <= 61
    ensures Valid(MarchDay(year, n))
    ensures Ordinal(MarchDay(year, n)) == YearDays(year) + n
  {
    MonthTable(year);
    YearLength(year);
  }

  /** `m` is 1 only when the corrected moon is a Sunday eve that would push Easter too far. */
  lemma CorrectionTerm(year: int)
    ensures var t := Terms(year);
            t.m == if t.l == 6 && (t.h == 29 || (t.h == 28 && t.a > 10)) then 1 else 0
  {
    var t := Terms(year);
    assert 0 <= t.a <= 18 && 0 <= t.h <= 29 && 0 <= t.l <= 6;
    if t.l <= 5 || t.h <= 27 {
      assert t.a + 11 * t.h + 22 * t.l < 451;
    }
  }

  lemma EasterAsMarchDay(year: int)
    ensures var t := Terms(year); var n := 22 + t.h + t.l - 7 * t.m;
            && 22 <= n <= 56 && EasterSunday(year) == MarchDay(year, n)
            && PaschalMoon(year) < n <= PaschalMoon(year) + 7
  {
    CorrectionTerm(year);
    var t := Terms(year);
    var s := t.h + t.l - 7 * t.m + 114;
    assert 114 <= s <= 148;
    if s <= 123 { assert s / 31 == 3; } else { assert s / 31 == 4; }
  }

  /** A year's centuries and olympiads, and what they contribute to the weekday. */
  lemma YearDigits(year: int)
    ensures var t := Terms(year);
            && year == 100 * t.b + t.c && t.b == 4 * t.d + t.e && t.c == 4 * t.i + t.k
            && year / 4 == 25 * t.b + t.i && year / 100 == t.b && year / 400 == t.d
            && YearDays(year)
               == 7 * (20871 * t.d + 5217 * t.e + 208 * t.i + 52 * t.k - 44) + (5 * t.e + 5 * t.i + t.k + 2)
  {
    var b, c := year / 100, year % 100;
    assert year == 100 * b + c;
    assert year / 4 == 25 * b + c / 4;
    assert year / 400 == b / 4;
  }

  lemma SundayTerm(e: int, i: int, k: int, h: int, l: int, m: int)
    requires l == (32 + 2 * e + 2 * i - h - k) % 7
    ensures (5 * e + 5 * i + k + 2 + (22 + h + l - 7 * m)) % 7 == 0
  {
    var q := (32 + 2 * e + 2 * i - h - k) / 7;
    assert l == 32 + 2 * e + 2 * i - h - k - 7 * q;
    assert 5 * e + 5 * i + k + 2 + (22 + h + l - 7 * m) == 7 * (e + i + 8 - q - m);
  }

  lemma SumOfMultiples(x: int, y: int, q: int)
    requires x == 7 * q + y
    ensures x % 7 == y % 7
  {
  }

  lemma SundayOrdinal(x: int, q: int, y: int, n: int)
    requires x == 7 * q + y && (y + n) % 7 == 0
    ensures (x + n) % 7 == 0 && (x + n + 6) % 7 == 6
  {
    SumOfMultiples(x + n, y + n, q);
  }

  lemma EasterIsSunday(year: int)
    ensures Valid(EasterSunday(year)) && Weekday(EasterSunday(year)) == SUN
    ensures Ordinal(EasterSunday(year)) % 7 == 0
  {
    var t := Terms(year);
    var n := 22 + t.h + t.l - 7 * t.m;
    EasterAsMarchDay(year);
    MarchOrdinal(year, n);
    SundayNumber(year);
    hide Ordinal, Terms, YearDays;
    assert Ordinal(EasterSunday(year)) == YearDays(year) + n;
  }

  lemma SundayNumber(year: int)
    ensures var t := Terms(year); var n := 22 + t.h + t.l - 7 * t.m;
            (YearDays(year) + n) % 7 == 0 && (YearDays(year) + n + 6) % 7 == 6
  {
    YearDigits(year);
    var Computus(_, _, _, d, e, _, _, h, i, k, l, m) := Terms(year);
    SundayTerm(e, i, k, h, l, m);
    hide Terms, YearDays;
    SundayOrdinal(YearDays(year), 20871 * d + 5217 * e + 208 * i + 52 * k - 44,
                  5 * e + 5 * i + k + 2, 22 + h + l - 7 * m);
  }

  /**
    Easter of every year is a valid date between March 22 and April 25, falls on
    a Sunday, and is the first Sunday strictly after the corrected full moon.
   */
  lemma EasterIsFirstSundayAfterMoon(year: int)
    ensures var easter := EasterSunday(year); var moon := MarchDay(year, PaschalMoon(year));
            && Valid(easter) && Valid(moon) && easter.year == year
            && ((easter.month == 3 && 22 <= easter.day) || (easter.month == 4 && easter.day <= 25))
            && Weekday(easter) == SUN && Ordinal(moon) < Ordinal(easter)
            && forall d :: Valid(d) && Ordinal(moon) < Ordinal(d) < Ordinal(easter) ==> Weekday(d) != SUN
  {
    EasterIsSunday(year);
    EasterAsMarchDay(year);
    var t := Terms(year);
    MarchOrdinal(year, 22 + t.h + t.l - 7 * t.m);
    assert 20 <= PaschalMoon(year) <= 50;
    MarchOrdinal(year, PaschalMoon(year));
    var easter, moon := EasterSunday(year), MarchDay(year, PaschalMoon(year));
    assert Ordinal(easter) <= Ordinal(moon) + 7;
    forall d | Valid(d) && Ordinal(moon) < Ordinal(d) < Ordinal(easter)
      ensures Weekday(d) != SUN
    {
      NoMultipleBetween(Ordinal(easter), Ordinal(d));
    }
  }

  lemma NoMultipleBetween(sunday: int, n: int)
    requires sunday % 7 == 0 && sunday - 7 < n < sunday
    ensures (n + 6) % 7 != 6
  {
  }

  /**
    An independent statement of the Gregorian rule: Clavius' tables as Knuth
    gives them (The Art of Computer Programming, section 1.3.2, exercise 14).
   */
  function ClaviusMoon(year: int): int {
    var golden := year % 19 + 1;
    var century := year / 100 + 1;
    var solar := 3 * century / 4 - 12;
    var lunar := (8 * century + 5) / 25 - 5;
    var epact := (11 * golden + 20 + lunar - solar) % 30;
    var corrected := if (epact == 25 && golden > 11) || epact == 24 then epact + 1 else epact;
    if 44 - corrected < 21 then 74 - corrected else 44 - corrected
  }

  function ClaviusEaster(year: int): Date {
    var solar := 3 * (year / 100 + 1) / 4 - 12;
    var sunday := 5 * year / 4 - solar - 10;
    var moon := ClaviusMoon(year);
    MarchDay(year, moon + 7 - (sunday + moon) % 7)
  }

  /** The century corrections of the two algorithms are the same numbers. */
  lemma CenturyCorrections(year: int)
    ensures var t := Terms(year); var century := year / 100 + 1;
            && 3 * century / 4 == t.b - t.d && (8 * century + 5) / 25 == t.g
  {
    var b := year / 100;
    assert b == 4 * (b / 4) + b % 4;
    assert 3 * (b + 1) / 4 == b - b / 4;
    var q, r := b / 25, b % 25;
    assert b == 25 * q + r;
    assert (b + 8) / 25 == q + (if r < 17 then 0 else 1);
    assert (b - (b + 8) / 25 + 1) / 3 == 8 * q + (if r < 17 then (r + 1) / 3 else r / 3);
    assert (8 * b + 13) / 25 == 8 * q + (8 * r + 13) / 25;
    CenturyResidue(r);
  }

  lemma CenturyResidue(r: int)
    requires 0 <= r < 25
    ensures (8 * r + 13) / 25 == if r < 17 then (r + 1) / 3 else r / 3
  {
  }

  lemma ComplementaryResidues(x: int, y: int, a: int)
    requires x + y == 30 * a + 53
    ensures y % 30 == if x % 30 <= 23 then 23 - x % 30 else 53 - x % 30
  {
    assert x == 30 * (x / 30) + x % 30 && y == 30 * (y / 30) + y % 30;
    var u := a - x / 30 - y / 30;
    assert y % 30 + x % 30 == 53 + 30 * u;
    assert u == 0 || u == -1;
  }

  lemma MoonsAgree(year: int)
    ensures PaschalMoon(year) == ClaviusMoon(year)
  {
    CenturyCorrections(year);
    var t := Terms(year);
    var x := 11 * (t.a + 1) + 20 + (t.g - 5) - (t.b - t.d - 12);
    ComplementaryResidues(x, 19 * t.a + t.b - t.d - t.g + 15, t.a);
  }

  /** Two Sundays no more than six days apart are the same day. */
  lemma SameSunday(x: int, s: int, k: int, n: int, moon: int)
    requires x == s + 7 * k && (x + n) % 7 == 0 && moon < n <= moon + 7
    ensures n == moon + 7 - (s + moon) % 7
  {
    var r := (s + moon) % 7;
    assert s + moon == 7 * ((s + moon) / 7) + r;
    assert x + n == 7 * (k + (s + moon) / 7) + (n - moon + r);
    SumOfMultiples(x + n, n - moon + r, k + (s + moon) / 7);
    assert (n - moon + r) % 7 == 0;
  }

  lemma FiveQuarters(year: int)
    ensures 5 * year / 4 == year + year / 4
  {
  }

  /** The anonymous algorithm and Clavius' tables give the same Easter in every year. */
  lemma EasterMatchesClavius(year: int)
    ensures EasterSunday(year) == ClaviusEaster(year)
  {
    MoonsAgree(year);
    CenturyCorrections(year);
    EasterAsMarchDay(year);
    SundayNumber(year);
    var t := Terms(year);
    var n := 22 + t.h + t.l - 7 * t.m;
    var sunday := 5 * year / 4 - (t.b - t.d - 12) - 10;
    assert YearDays(year) == sunday + 7 * (52 * year - 44) by {
      YearDigits(year);
      FiveQuarters(year);
    }
    hide Terms, YearDays, PaschalMoon;
    SameSunday(YearDays(year), sunday, 52 * year - 44, n, PaschalMoon(year));
  }
}
