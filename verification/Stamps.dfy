/** UTC timestamps as text: sorting the text sorts the instants. */
module Stamps {
  import opened Common
  import opened Calendar
  import opened Ordering
  import opened Schedule

  /** A moment of UTC: a date, and microseconds into it. */
  datatype Moment = Moment(day: Date, us: int)

  predicate Recordable(m: Moment) {
    Calendar.Valid(m.day) && 1 <= m.day.year < 10_000 && 0 <= m.us < DAY
  }

  function InstantOf(m: Moment): int
    requires Recordable(m)
  {
    Ordinal(m.day) * DAY + m.us
  }

  /** The ISO 8601 text of a moment; microseconds are left out when there are none. */
  function Text(m: Moment): string
    requires Recordable(m)
  {
    Digits(m.day.year, 4) + ("-" + (Digits(m.day.month, 2) + ("-" + (Digits(m.day.day, 2) + ("T" + TimeText(m.us))))))
  }

  function TimeText(us: int): string
    requires 0 <= us < DAY
  {
    Digits(us / (60 * MINUTE), 2) + (":" + (Digits(us / MINUTE % 60, 2) + (":" + (Digits(us / SECOND % 60, 2) + Tail(us % SECOND)))))
  }

  function Tail(micro: int): string
    requires 0 <= micro < SECOND
  {
    if micro == 0 then "+00:00" else "." + (Digits(micro, 6) + "+00:00")
  }

  lemma SplitOrder(m: int, n: int)
    requires 0 <= m && 0 <= n
    ensures m < n <==> m / 10 < n / 10 || (m / 10 == n / 10 && m % 10 < n % 10)
    ensures m == n <==> m / 10 == n / 10 && m % 10 == n % 10
  {
  }

  /** Numbers of one width sort as text as they do as numbers. */
  lemma {:induction false} DigitsOrder(m: int, n: int, width: nat)
    requires 0 <= m < Power10(width) && 0 <= n < Power10(width)
    ensures Precedes(Digits(m, width), Digits(n, width)) <==> m < n
    ensures Digits(m, width) == Digits(n, width) <==> m == n
  {
    if width > 0 {
      DigitsOrder(m / 10, n / 10, width - 1);
      SplitOrder(m, n);
      var a, b := Digits(m / 10, width - 1), Digits(n / 10, width - 1);
      ConcatOrder(a, [Digit(m % 10)], b, [Digit(n % 10)]);
      assert (a + [Digit(m % 10)])[..width - 1] == a && (b + [Digit(n % 10)])[..width - 1] == b;
    }
  }

  lemma FieldOrder(m: int, n: int, width: nat, x: string, y: string)
    requires 0 <= m < Power10(width) && 0 <= n < Power10(width)
    ensures Precedes(Digits(m, width) + x, Digits(n, width) + y) <==> m < n || (m == n && Precedes(x, y))
  {
    DigitsOrder(m, n, width);
    hide Digits, Precedes;
    ConcatOrder(Digits(m, width), x, Digits(n, width), y);
  }

  /** A whole second comes before its fractions: the plus sign sorts before the point. */
  lemma TailOrder(i: int, j: int)
    requires 0 <= i < SECOND && 0 <= j < SECOND
    ensures Precedes(Tail(i), Tail(j)) <==> i < j
  {
    if i > 0 && j > 0 {
      FieldOrder(i, j, 6, "+00:00", "+00:00");
      PrecedesTotal("+00:00", "+00:00");
      CommonPrefix(".", Digits(i, 6) + "+00:00", Digits(j, 6) + "+00:00");
    } else {
      PrecedesTotal("+00:00", "+00:00");
    }
    hide Digits;
  }

  lemma TimeParts(us: int)
    requires 0 <= us < DAY
    ensures var h, m, s, u := us / (60 * MINUTE), us / MINUTE % 60, us / SECOND % 60, us % SECOND;
            && us == h * 60 * MINUTE + m * MINUTE + s * SECOND + u
            && 0 <= h < 24 && 0 <= m < 60 && 0 <= s < 60 && 0 <= u < SECOND
  {
  }

  lemma Widths()
    ensures Power10(2) == 100 && Power10(4) == 10_000 && Power10(6) == SECOND
  {
    assert Power10(0) == 1 && Power10(1) == 10 && Power10(3) == 1000 && Power10(5) == 100_000;
  }

  lemma TimeOrder(i: int, j: int)
    requires 0 <= i < DAY && 0 <= j < DAY
    ensures Precedes(TimeText(i), TimeText(j)) <==> i < j
  {
    TimeParts(i);
    TimeParts(j);
    Widths();
    hide Digits, Precedes, Tail;
    var seconds, otherSeconds := Digits(i / SECOND % 60, 2) + Tail(i % SECOND), Digits(j / SECOND % 60, 2) + Tail(j % SECOND);
    var minutes, otherMinutes := Digits(i / MINUTE % 60, 2) + (":" + seconds), Digits(j / MINUTE % 60, 2) + (":" + otherSeconds);
    TailOrder(i % SECOND, j % SECOND);
    FieldOrder(i / SECOND % 60, j / SECOND % 60, 2, Tail(i % SECOND), Tail(j % SECOND));
    CommonPrefix(":", seconds, otherSeconds);
    FieldOrder(i / MINUTE % 60, j / MINUTE % 60, 2, ":" + seconds, ":" + otherSeconds);
    CommonPrefix(":", minutes, otherMinutes);
    FieldOrder(i / (60 * MINUTE), j / (60 * MINUTE), 2, ":" + minutes, ":" + otherMinutes);
  }

  /** Whoever sorts these stamps as text, as the reports do, sorts them by instant. */
  lemma TextOrderIsTimeOrder(a: Moment, b: Moment)
    requires Recordable(a) && Recordable(b)
    ensures Precedes(Text(a), Text(b)) <==> InstantOf(a) < InstantOf(b)
  {
    OrdinalOrder(a.day, b.day);
    DateFits(a);
    DateFits(b);
    TimeOrder(a.us, b.us);
    hide Digits, Precedes, TimeText, Ordinal, Calendar.Valid;
    var days, otherDays := Digits(a.day.day, 2) + ("T" + TimeText(a.us)), Digits(b.day.day, 2) + ("T" + TimeText(b.us));
    var months, otherMonths := Digits(a.day.month, 2) + ("-" + days), Digits(b.day.month, 2) + ("-" + otherDays);
    CommonPrefix("T", TimeText(a.us), TimeText(b.us));
    FieldOrder(a.day.day, b.day.day, 2, "T" + TimeText(a.us), "T" + TimeText(b.us));
    CommonPrefix("-", days, otherDays);
    FieldOrder(a.day.month, b.day.month, 2, "-" + days, "-" + otherDays);
    CommonPrefix("-", months, otherMonths);
    FieldOrder(a.day.year, b.day.year, 4, "-" + months, "-" + otherMonths);
    DayFirst(Ordinal(a.day), a.us, Ordinal(b.day), b.us);
  }

  lemma DateFits(m: Moment)
    requires Recordable(m)
    ensures 1 <= m.day.month < Power10(2) && 1 <= m.day.day < Power10(2) && m.day.year < Power10(4)
  {
    Widths();
  }

  lemma DayFirst(d: int, i: int, e: int, j: int)
    requires 0 <= i < DAY && 0 <= j < DAY
    ensures d * DAY + i < e * DAY + j <==> d < e || (d == e && i < j)
  {
  }
}
