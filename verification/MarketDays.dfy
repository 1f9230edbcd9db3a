/**
  Full-day closures of the exchange, the trading-day test, the half days, and
  the searches for the next and the previous trading day.
 */
module MarketDays {
  import opened Calendar

  function GoodFriday(year: int): (r: Date)
    ensures Valid(r)
  {
    EasterIsSunday(year);
    AddDays(EasterSunday(year), -2)
  }

  /** The nine closures that every year has. */
  function RuleTable(year: int): (r: set<Date>)
    ensures forall d :: d in r ==> Valid(d)
  {
    { NthWeekday(year, 1, MON, 3), NthWeekday(year, 2, MON, 3), GoodFriday(year),
      LastWeekday(year, 5, MON), Observed(Date(year, 6, 19)), Observed(Date(year, 7, 4)),
      NthWeekday(year, 9, MON, 1), NthWeekday(year, 11, THU, 4), Observed(Date(year, 12, 25)) }
  }

  /** All closures of one year; January 1 moves to Monday from a Sunday and is skipped on a Saturday. */
  function HolidaySet(year: int): (r: set<Date>)
    ensures forall d :: d in r ==> Valid(d)
  {
    var newYear := Date(year, 1, 1);
    RuleTable(year)
    + (if Weekday(newYear) == SUN then {Date(year, 1, 2)}
       else if Weekday(newYear) != SAT then {newYear}
       else {})
  }

  method MarketHolidays(year: int) returns (holidays: set<Date>)
    ensures holidays == HolidaySet(year)
  {
    holidays := {
      NthWeekday(year, 1, MON, 3), NthWeekday(year, 2, MON, 3), GoodFriday(year),
      LastWeekday(year, 5, MON), Observed(Date(year, 6, 19)), Observed(Date(year, 7, 4)),
      NthWeekday(year, 9, MON, 1), NthWeekday(year, 11, THU, 4), Observed(Date(year, 12, 25))
    };
    var newYear := Date(year, 1, 1);
    if Weekday(newYear) == SUN {
      holidays := holidays + {Date(year, 1, 2)};
    } else if Weekday(newYear) != SAT {
      holidays := holidays + {newYear};
    }
  }

  predicate IsMarketOpen(d: Date)
    requires Valid(d)
  {
    Weekday(d) < SAT && d !in HolidaySet(d.year)
  }

  predicate IsEarlyClose(d: Date)
    requires Valid(d)
  {
    IsMarketOpen(d)
    && (|| d == AddDays(NthWeekday(d.year, 11, THU, 4), 1)
        || (d == Date(d.year, 12, 24) && Weekday(d) < SAT)
        || (d == Date(d.year, 7, 3) && Weekday(d) < SAT))
  }

  // --------------------------------------- the same closures, date by date

  /** `d` is where a fixed-date holiday is observed, weekends moving to the nearest weekday. */
  predicate ObservedOn(d: Date, month: int, day: int)
    requires Valid(d)
  {
    d.month == month
    && (|| (d.day == day && Weekday(d) < SAT)
        || (d.day == day - 1 && Weekday(d) == FRI)
        || (d.day == day + 1 && Weekday(d) == MON))
  }

  predicate IsGoodFriday(d: Date)
    requires Valid(d)
  {
    EasterIsSunday(d.year);
    Ordinal(d) + 2 == Ordinal(EasterSunday(d.year))
  }

  /** The published closures, recognised from a date's own month, day and weekday. */
  predicate ScheduledClosure(d: Date)
    requires Valid(d)
  {
    var w := Weekday(d);
    || (d.month == 1 && ((d.day == 1 && w < SAT) || (d.day == 2 && w == MON)))
    || ((d.month == 1 || d.month == 2) && w == MON && 15 <= d.day <= 21)
    || IsGoodFriday(d)
    || (d.month == 5 && w == MON && 25 <= d.day)
    || ObservedOn(d, 6, 19)
    || ObservedOn(d, 7, 4)
    || (d.month == 9 && w == MON && d.day <= 7)
    || (d.month == 11 && w == THU && 22 <= d.day <= 28)
    || ObservedOn(d, 12, 25)
  }

  lemma WeekdayStep(n: int)
    ensures var w := (n + 6) % 7;
            && (n + 1 + 6) % 7 == (if w == SUN then MON else w + 1)
            && (n - 1 + 6) % 7 == (if w == MON then SUN else w - 1)
  {
  }

  lemma WeekdayNext(d: Date)
    requires Valid(d)
    ensures Weekday(NextDay(d)) == if Weekday(d) == SUN then MON else Weekday(d) + 1
    ensures Weekday(PrevDay(d)) == if Weekday(d) == MON then SUN else Weekday(d) - 1
  {
    hide Ordinal;
    WeekdayStep(Ordinal(d));
  }

  lemma FridayBeforeSunday(sunday: int)
    requires sunday % 7 == 0
    ensures (sunday - 2 + 6) % 7 == FRI
  {
  }

  lemma GoodFridayFacts(year: int)
    ensures var d := GoodFriday(year);
            && d.year == year && Weekday(d) == FRI && IsGoodFriday(d)
            && ((d.month == 3 && 20 <= d.day) || (d.month == 4 && d.day <= 23))
  {
    EasterAsMarchDay(year);
    EasterIsSunday(year);
    var t := Terms(year);
    var n := 22 + t.h + t.l - 7 * t.m;
    hide Ordinal, Terms, EasterSunday, YearDays;
    MarchOrdinal(year, n);
    MarchOrdinal(year, n - 2);
    OrdinalOrder(GoodFriday(year), MarchDay(year, n - 2));
    FridayBeforeSunday(Ordinal(EasterSunday(year)));
  }

  lemma GoodFridayIff(year: int, d: Date)
    requires Valid(d)
    ensures d == GoodFriday(year) <==> d.year == year && IsGoodFriday(d)
  {
    hide Ordinal, EasterSunday;
    EasterIsSunday(year);
    OrdinalOrder(d, GoodFriday(year));
    GoodFridayFacts(year);
  }

  lemma ObservedIff(year: int, month: int, day: int, d: Date)
    requires 1 <= month <= 12 && 2 <= day < DaysInMonth(year, month) && Valid(d)
    ensures d == Observed(Date(year, month, day)) <==> d.year == year && ObservedOn(d, month, day)
    ensures var r := Observed(Date(year, month, day));
            r.year == year && r.month == month && day - 1 <= r.day <= day + 1 && Weekday(r) < SAT
  {
    hide Ordinal;
    var f := Date(year, month, day);
    AddDaysInMonth(f, 1);
    AddDaysInMonth(f, -1);
    WeekdayNext(f);
  }

  /** The rule table and the date-by-date recognition describe the same closures. */
  lemma HolidayIff(year: int, d: Date)
    requires Valid(d)
    ensures d in HolidaySet(year) <==> d.year == year && ScheduledClosure(d)
  {
    hide Ordinal, Weekday, GoodFriday, IsGoodFriday, NthWeekday, LastWeekday, Observed;
    HolidaysInYear(year);
    if d.year == year {
      GoodFridayIff(year, d);
      ObservedIff(year, 6, 19, d);
      ObservedIff(year, 7, 4, d);
      ObservedIff(year, 12, 25, d);
      NewYearIff(d);
      NthIff(d);
    }
  }

  lemma NewYearIff(d: Date)
    requires Valid(d)
    ensures var newYear := Date(d.year, 1, 1);
            (d == newYear && Weekday(newYear) < SAT) || (d == Date(d.year, 1, 2) && Weekday(newYear) == SUN)
            <==> d.month == 1 && ((d.day == 1 && Weekday(d) < SAT) || (d.day == 2 && Weekday(d) == MON))
  {
    hide Ordinal;
    WeekdayNext(Date(d.year, 1, 1));
  }

  lemma NthIff(d: Date)
    requires Valid(d)
    ensures (d.month == 1 || d.month == 2)
            ==> (d == NthWeekday(d.year, d.month, MON, 3) <==> Weekday(d) == MON && 15 <= d.day <= 21)
    ensures d.month == 5 ==> (d == LastWeekday(d.year, 5, MON) <==> Weekday(d) == MON && 25 <= d.day)
    ensures d.month == 9 ==> (d == NthWeekday(d.year, 9, MON, 1) <==> Weekday(d) == MON && d.day <= 7)
    ensures d.month == 11 ==> (d == NthWeekday(d.year, 11, THU, 4) <==> Weekday(d) == THU && 22 <= d.day <= 28)
  {
    hide Ordinal, Weekday, NthWeekday, LastWeekday;
    if d.month == 1 || d.month == 2 { NthWeekdayIff(d.year, d.month, MON, 3, d); }
    if d.month == 5 { LastWeekdayIff(d.year, 5, MON, d); }
    if d.month == 9 { NthWeekdayIff(d.year, 9, MON, 1, d); }
    if d.month == 11 { NthWeekdayIff(d.year, 11, THU, 4, d); }
  }

  /** Where the ten rules put their closures. */
  lemma HolidaysInYear(year: int)
    ensures var d := NthWeekday(year, 1, MON, 3); d.year == year && d.month == 1 && 15 <= d.day && Weekday(d) == MON
    ensures var d := NthWeekday(year, 2, MON, 3); d.year == year && d.month == 2 && Weekday(d) == MON
    ensures var d := GoodFriday(year); d.year == year && (d.month == 3 || d.month == 4) && Weekday(d) == FRI
    ensures var d := LastWeekday(year, 5, MON); d.year == year && d.month == 5 && Weekday(d) == MON
    ensures var d := Observed(Date(year, 6, 19)); d.year == year && d.month == 6 && Weekday(d) < SAT
    ensures var d := Observed(Date(year, 7, 4)); d.year == year && d.month == 7 && Weekday(d) < SAT
    ensures var d := NthWeekday(year, 9, MON, 1); d.year == year && d.month == 9 && Weekday(d) == MON
    ensures var d := NthWeekday(year, 11, THU, 4);
            d.year == year && d.month == 11 && 22 <= d.day <= 28 && Weekday(d) == THU
    ensures var d := Observed(Date(year, 12, 25)); d.year == year && d.month == 12 && Weekday(d) < SAT
    ensures 0 <= Weekday(Date(year, 1, 1)) <= SUN
    ensures Weekday(Date(year, 1, 1)) == SUN ==> Weekday(Date(year, 1, 2)) == MON
  {
    hide Ordinal, NthWeekday, LastWeekday, Observed;
    NthWeekdayIff(year, 1, MON, 3, Date(year, 1, 1));
    NthWeekdayIff(year, 2, MON, 3, Date(year, 2, 1));
    NthWeekdayIff(year, 9, MON, 1, Date(year, 9, 1));
    NthWeekdayIff(year, 11, THU, 4, Date(year, 11, 1));
    LastWeekdayIs(year, 5, MON);
    LastWeekdayIff(year, 5, MON, LastWeekday(year, 5, MON));
    GoodFridayFacts(year);
    ObservedIff(year, 6, 19, Date(year, 6, 19));
    ObservedIff(year, 7, 4, Date(year, 7, 4));
    ObservedIff(year, 12, 25, Date(year, 12, 25));
    WeekdayNext(Date(year, 1, 1));
  }

  /**
    Every year has exactly ten distinct closures (nine when January 1 is a
    Saturday), all of them Monday to Friday and all inside that year.
   */
  lemma TenClosures(year: int)
    ensures |HolidaySet(year)| == if Weekday(Date(year, 1, 1)) == SAT then 9 else 10
    ensures forall d :: d in HolidaySet(year) ==> d.year == year && Weekday(d) < SAT
  {
    RuleTableFacts(year);
    HolidaysInYear(year);
    hide Ordinal, Weekday, RuleTable;
    var newYear := Date(year, 1, 1);
    assert newYear !in RuleTable(year) && Date(year, 1, 2) !in RuleTable(year);
  }

  lemma RuleTableFacts(year: int)
    ensures |RuleTable(year)| == 9
    ensures forall d :: d in RuleTable(year) ==> d.year == year && Weekday(d) < SAT && (d.month == 1 ==> 15 <= d.day)
  {
    hide Ordinal, Weekday, GoodFriday, NthWeekday, LastWeekday, Observed;
    HolidaysInYear(year);
    NineDistinct(NthWeekday(year, 1, MON, 3), NthWeekday(year, 2, MON, 3), GoodFriday(year),
                 LastWeekday(year, 5, MON), Observed(Date(year, 6, 19)), Observed(Date(year, 7, 4)),
                 NthWeekday(year, 9, MON, 1), NthWeekday(year, 11, THU, 4), Observed(Date(year, 12, 25)));
  }

  lemma NineDistinct(a: Date, b: Date, c: Date, d: Date, e: Date, f: Date, g: Date, h: Date, i: Date)
    requires a.month < b.month < c.month < d.month < e.month < f.month < g.month < h.month < i.month
    ensures |{a, b, c, d, e, f, g, h, i}| == 9
  {
    var s := {a, b, c, d};
    assert |s| == 4;
    var t := {e, f, g, h, i};
    assert |t| == 5;
    assert s !! t;
    assert {a, b, c, d, e, f, g, h, i} == s + t;
  }

  /** Consecutive closures, even across New Year, are more than three days apart. */
  lemma ClosuresApart(d: Date, k: int)
    requires Valid(d) && 1 <= k <= 3
    ensures !(ScheduledClosure(d) && ScheduledClosure(AddDays(d, k)))
  {
    hide Ordinal, Weekday, GoodFriday, IsGoodFriday;
    GoodFridayFacts(d.year);
    GoodFridayIff(d.year, d);
    var d1 := NextDay(d);
    var d2 := NextDay(d1);
    var d3 := NextDay(d2);
    WeekdayNext(d);
    WeekdayNext(d1);
    WeekdayNext(d2);
    var e := AddDays(d, k);
    assert e == if k == 1 then d1 else if k == 2 then d2 else d3;
    GoodFridayFacts(e.year);
    GoodFridayIff(e.year, e);
  }

  /** No run of closed days is longer than three. */
  lemma OpenWithinFour(d: Date)
    requires Valid(d)
    ensures exists k :: 1 <= k <= 4 && IsMarketOpen(AddDays(d, k))
    ensures exists k :: -4 <= k <= -1 && IsMarketOpen(AddDays(d, k))
  {
    hide Ordinal, IsMarketOpen;
    var next, back := AddDays(d, 1), AddDays(d, -4);
    OpenInWindow(next);
    var k :| 0 <= k <= 3 && IsMarketOpen(AddDays(next, k));
    OrdinalOrder(AddDays(next, k), AddDays(d, k + 1));
    OpenInWindow(back);
    var j :| 0 <= j <= 3 && IsMarketOpen(AddDays(back, j));
    OrdinalOrder(AddDays(back, j), AddDays(d, j - 4));
  }

  /** Among four consecutive days at least two are weekdays, and not both are closures. */
  lemma OpenInWindow(d: Date)
    requires Valid(d)
    ensures exists k :: 0 <= k <= 3 && IsMarketOpen(AddDays(d, k))
  {
    hide Ordinal, ScheduledClosure, HolidaySet, Weekday, AddDays;
    var i, j := WeekdaysInWindow(d);
    var a, b := AddDays(d, i), AddDays(d, j);
    HolidayIff(a.year, a);
    HolidayIff(b.year, b);
    if !IsMarketOpen(a) && !IsMarketOpen(b) {
      OrdinalOrder(AddDays(a, j - i), b);
      ClosuresApart(a, j - i);
    }
  }

  lemma WeekdayAfter(d: Date, k: nat)
    requires Valid(d)
    ensures var w := Weekday(AddDays(d, k));
            0 <= w <= SUN && Weekday(AddDays(d, k + 1)) == if w == SUN then MON else w + 1
  {
    hide Ordinal, AddDays;
    WeekdayStep(Ordinal(d) + k);
    assert Ordinal(AddDays(d, k + 1)) == Ordinal(d) + k + 1;
  }

  lemma WindowWeekdays(d: Date)
    requires Valid(d)
    ensures 0 <= Weekday(d) <= SUN && AddDays(d, 0) == d
    ensures Weekday(AddDays(d, 1)) == if Weekday(d) == SUN then MON else Weekday(d) + 1
    ensures Weekday(AddDays(d, 2)) == if Weekday(d) >= SAT then Weekday(d) - 5 else Weekday(d) + 2
    ensures Weekday(AddDays(d, 3)) == if Weekday(d) >= FRI then Weekday(d) - 4 else Weekday(d) + 3
  {
    hide Ordinal;
    WeekdayAfter(d, 0);
    WeekdayAfter(d, 1);
    WeekdayAfter(d, 2);
  }

  lemma WeekdaysInWindow(d: Date) returns (i: int, j: int)
    requires Valid(d)
    ensures 0 <= i < j <= 3
    ensures Weekday(AddDays(d, i)) < SAT && Weekday(AddDays(d, j)) < SAT
  {
    hide Ordinal;
    WindowWeekdays(d);
    if {
      case Weekday(d) <= 3 => i, j := 0, 1;
      case Weekday(d) == FRI => i, j := 0, 3;
      case Weekday(d) == SAT => i, j := 2, 3;
      case Weekday(d) == SUN => i, j := 1, 2;
    }
  }

  // ----------------------------------------------------------- the searches

  /** `r` is the least trading day after `d`. */
  ghost predicate IsNextOpen(d: Date, r: Date) {
    && Valid(d) && Valid(r) && Ordinal(d) < Ordinal(r) && IsMarketOpen(r)
    && forall x :: Valid(x) && Ordinal(d) < Ordinal(x) < Ordinal(r) ==> !IsMarketOpen(x)
  }

  /** `r` is the greatest trading day before `d`. */
  ghost predicate IsPreviousOpen(d: Date, r: Date) {
    && Valid(d) && Valid(r) && Ordinal(r) < Ordinal(d) && IsMarketOpen(r)
    && forall x :: Valid(x) && Ordinal(r) < Ordinal(x) < Ordinal(d) ==> !IsMarketOpen(x)
  }

  method NextMarketOpenDate(from: Date) returns (current: Date)
    requires Valid(from)
    ensures IsNextOpen(from, current) && Ordinal(current) <= Ordinal(from) + 4
  {
    hide Ordinal, IsMarketOpen;
    OpenWithinFour(from);
    ghost var k :| 1 <= k <= 4 && IsMarketOpen(AddDays(from, k));
    current := AddDays(from, 1);
    while !IsMarketOpen(current)
      invariant Valid(current) && Ordinal(from) < Ordinal(current) <= Ordinal(from) + k
      invariant forall x :: Valid(x) && Ordinal(from) < Ordinal(x) < Ordinal(current) ==> !IsMarketOpen(x)
      decreases Ordinal(from) + k - Ordinal(current)
    {
      OrdinalOrder(current, AddDays(from, k));
      forall x | Valid(x) && Ordinal(x) == Ordinal(current) ensures x == current {
        OrdinalOrder(x, current);
      }
      current := AddDays(current, 1);
    }
  }

  method PreviousMarketOpenDate(from: Date) returns (current: Date)
    requires Valid(from)
    ensures IsPreviousOpen(from, current) && Ordinal(from) - 4 <= Ordinal(current)
  {
    hide Ordinal, IsMarketOpen;
    OpenWithinFour(from);
    ghost var k :| -4 <= k <= -1 && IsMarketOpen(AddDays(from, k));
    current := AddDays(from, -1);
    while !IsMarketOpen(current)
      invariant Valid(current) && Ordinal(from) + k <= Ordinal(current) < Ordinal(from)
      invariant forall x :: Valid(x) && Ordinal(current) < Ordinal(x) < Ordinal(from) ==> !IsMarketOpen(x)
      decreases Ordinal(current) - Ordinal(from) - k
    {
      OrdinalOrder(current, AddDays(from, k));
      forall x | Valid(x) && Ordinal(x) == Ordinal(current) ensures x == current {
        OrdinalOrder(x, current);
      }
      current := AddDays(current, -1);
    }
  }

  /** Each search has only one answer. */
  lemma SearchesAreUnique(d: Date, r1: Date, r2: Date)
    ensures IsNextOpen(d, r1) && IsNextOpen(d, r2) ==> r1 == r2
    ensures IsPreviousOpen(d, r1) && IsPreviousOpen(d, r2) ==> r1 == r2
  {
    hide Ordinal, IsMarketOpen;
    if Valid(r1) && Valid(r2) {
      OrdinalOrder(r1, r2);
    }
  }

  /**
    On trading days the two searches undo each other: the trading day before the next
    one is the day itself, and the other way round.
   */
  lemma SearchesAreInverse(d: Date, r: Date, back: Date)
    requires Valid(d) && IsMarketOpen(d)
    ensures Valid(r) && IsMarketOpen(r) ==> (IsNextOpen(d, r) <==> IsPreviousOpen(r, d))
    ensures IsNextOpen(d, r) ==> (IsPreviousOpen(r, back) <==> back == d)
    ensures IsPreviousOpen(d, r) ==> (IsNextOpen(r, back) <==> back == d)
  {
    hide Ordinal, IsMarketOpen;
    SearchesAreUnique(r, d, back);
  }

  /**
    The half days are exactly the Friday after Thanksgiving, and December 24 and
    July 3 when these fall on Monday to Thursday.
   */
  lemma EarlyCloseIff(d: Date)
    requires Valid(d)
    ensures IsEarlyClose(d) <==>
            || (d.month == 11 && 23 <= d.day <= 29 && Weekday(d) == FRI)
            || (d.month == 12 && d.day == 24 && Weekday(d) <= THU)
            || (d.month == 7 && d.day == 3 && Weekday(d) <= THU)
  {
    hide Ordinal, Weekday, NthWeekday, GoodFriday, IsGoodFriday, HolidaySet;
    HolidayIff(d.year, d);
    GoodFridayFacts(d.year);
    GoodFridayIff(d.year, d);
    HolidaysInYear(d.year);
    var thanksgiving := NthWeekday(d.year, 11, THU, 4);
    AddDaysInMonth(thanksgiving, 1);
    WeekdayNext(thanksgiving);
    WeekdayNext(d);
    if d.month == 11 && 23 <= d.day <= 29 && Weekday(d) == FRI {
      NthWeekdayIff(d.year, 11, THU, 4, PrevDay(d));
    }
  }
}
