/** The observation day: its slots, and which slot a fire belongs to. */
module Schedule {
  import opened Common
  import opened Calendar
  import opened MarketDays

  datatype SlotKind = CANARY | MARKET_GATE | PILOT_SAMPLE | CLOSE_SUMMARY

  /** A slot of the day, at minute `hour * 60 + minute` of the session clock. */
  datatype Slot = Slot(hour: int, minute: int, kind: SlotKind, symbol: string)

  /** A reading of the session clock. */
  datatype Clock = Clock(day: Date, us: int)

  const DAILY_SLOTS := [
    Slot(6, 10, CANARY, "SPY"), Slot(6, 35, MARKET_GATE, "SPY"),
    Slot(7, 3, PILOT_SAMPLE, "SPY"), Slot(7, 23, PILOT_SAMPLE, "QQQ"), Slot(7, 43, PILOT_SAMPLE, "AAPL"),
    Slot(8, 3, PILOT_SAMPLE, "MSFT"), Slot(8, 23, PILOT_SAMPLE, "NVDA"), Slot(8, 43, PILOT_SAMPLE, "AMZN"),
    Slot(9, 3, PILOT_SAMPLE, "META"), Slot(9, 23, PILOT_SAMPLE, "GOOGL"), Slot(9, 43, PILOT_SAMPLE, "TSLA"),
    Slot(10, 3, PILOT_SAMPLE, "AMD"), Slot(10, 23, PILOT_SAMPLE, "SOFI"), Slot(10, 43, PILOT_SAMPLE, "XOM"),
    Slot(11, 3, PILOT_SAMPLE, "SPY"), Slot(11, 23, PILOT_SAMPLE, "QQQ"), Slot(11, 43, PILOT_SAMPLE, "AAPL"),
    Slot(12, 3, PILOT_SAMPLE, "MSFT"), Slot(12, 23, PILOT_SAMPLE, "NVDA"), Slot(12, 43, PILOT_SAMPLE, "AMZN"),
    Slot(13, 5, CLOSE_SUMMARY, "SPY")
  ]

  const FRESHNESS := 180 * SECOND
  const MATCH_WINDOW := 300 * SECOND
  const EARLY_CLOSE := 10 * 60 * MINUTE

  function At(slot: Slot): int {
    (slot.hour * 60 + slot.minute) * MINUTE
  }

  function Distance(us: int, slot: Slot): int {
    if us < At(slot) then At(slot) - us else us - At(slot)
  }

  predicate Within(us: int, slot: Slot, window: int) {
    Distance(us, slot) <= window
  }

  /** Any two slots are more than ten minutes apart, in table order. */
  predicate WellSpaced(slots: seq<Slot>) {
    && (forall s :: s in slots ==> 0 <= s.hour < 24 && 0 <= s.minute < 60)
    && (forall i, j :: 0 <= i < j < |slots| ==> At(slots[i]) + 600 * SECOND < At(slots[j]))
  }

  lemma {:induction false} SpacedByNeighbours(slots: seq<Slot>, i: nat, j: nat)
    requires i < j < |slots| && forall k :: 0 <= k < |slots| - 1 ==> At(slots[k]) + 600 * SECOND < At(slots[k + 1])
    ensures At(slots[i]) + 600 * SECOND < At(slots[j])
    decreases j
  {
    if i < j - 1 {
      SpacedByNeighbours(slots, i, j - 1);
      assert At(slots[j - 1]) + 600 * SECOND < At(slots[j - 1 + 1]);
    } else {
      assert At(slots[i]) + 600 * SECOND < At(slots[i + 1]);
    }
  }

  lemma NextSlotIsApart(k: nat)
    requires k < |DAILY_SLOTS| - 1
    ensures At(DAILY_SLOTS[k]) + 600 * SECOND < At(DAILY_SLOTS[k + 1])
  {
  }

  lemma SlotInDay(k: nat)
    requires k < |DAILY_SLOTS|
    ensures 0 <= DAILY_SLOTS[k].hour < 24 && 0 <= DAILY_SLOTS[k].minute < 60
  {
  }

  lemma DailySlotsAreWellSpaced()
    ensures WellSpaced(DAILY_SLOTS)
  {
    hide At;
    forall k | 0 <= k < |DAILY_SLOTS| - 1 ensures At(DAILY_SLOTS[k]) + 600 * SECOND < At(DAILY_SLOTS[k + 1]) {
      NextSlotIsApart(k);
    }
    Spaced(DAILY_SLOTS);
    SlotsInDay(DAILY_SLOTS);
  }

  lemma SlotsInDay(slots: seq<Slot>)
    requires slots == DAILY_SLOTS
    ensures forall s :: s in slots ==> 0 <= s.hour < 24 && 0 <= s.minute < 60
  {
    forall k | 0 <= k < |slots| ensures 0 <= slots[k].hour < 24 && 0 <= slots[k].minute < 60 {
      SlotInDay(k);
    }
  }

  lemma Spaced(slots: seq<Slot>)
    requires forall k :: 0 <= k < |slots| - 1 ==> At(slots[k]) + 600 * SECOND < At(slots[k + 1])
    ensures forall i, j :: 0 <= i < j < |slots| ==> At(slots[i]) + 600 * SECOND < At(slots[j])
  {
    forall i, j | 0 <= i < j < |slots| ensures At(slots[i]) + 600 * SECOND < At(slots[j]) {
      SpacedByNeighbours(slots, i, j);
    }
  }

  /** A fire is near at most one slot, for any window up to half the gap. */
  lemma AtMostOneSlot(slots: seq<Slot>, i: nat, j: nat, us: int, window: int)
    requires WellSpaced(slots) && i < |slots| && j < |slots| && window <= 300 * SECOND
    requires Within(us, slots[i], window) && Within(us, slots[j], window)
    ensures i == j
  {
  }

  // -------------------------------------------------------- in plain numbers

  /** Freshness is 180 seconds and a fire's window 300 seconds, on either side of the slot's own minute. */
  lemma WindowsAre(us: int, slot: Slot)
    ensures var late := us - (slot.hour * 3_600_000_000 + slot.minute * 60_000_000);
            && (Within(us, slot, FRESHNESS) <==> -180_000_000 <= late <= 180_000_000)
            && (Within(us, slot, MATCH_WINDOW) <==> -300_000_000 <= late <= 300_000_000)
  {
  }

  /**
    The day's table: the market opens at 6:30 and closes at 13:00. A canary twenty
    minutes before the opening, the gate five minutes after it, a sample every twenty
    minutes from 7:03 to 12:43, and the summary five minutes after the close.
   */
  lemma TableIs(k: nat)
    requires k < |DAILY_SLOTS|
    ensures |DAILY_SLOTS| == 21
    ensures var s := DAILY_SLOTS[k];
            var minute := s.hour * 60 + s.minute;
            if k == 0 then s.kind == CANARY && minute == 6 * 60 + 30 - 20
            else if k == 1 then s.kind == MARKET_GATE && minute == 6 * 60 + 30 + 5
            else if k == 20 then s.kind == CLOSE_SUMMARY && minute == 13 * 60 + 5
            else s.kind == PILOT_SAMPLE && minute == 7 * 60 + 3 + 20 * (k - 2)
  {
    assert k == 0 || k == 1 || k == 2 || k == 3 || k == 4 || k == 5 || k == 6 || k == 7 || k == 8 || k == 9 || k == 10 || k == 11
           || k == 12 || k == 13 || k == 14 || k == 15 || k == 16 || k == 17 || k == 18 || k == 19 || k == 20;
  }

  /** Numbers are decimal: one more digit is ten times the number before plus that digit. */
  lemma NumbersAreDecimal(s: string, c: char)
    requires (forall i :: 0 <= i < |s| ==> '0' <= s[i] <= '9') && '0' <= c <= '9'
    ensures Number("") == 0 && Number(s + [c]) == Number(s) * 10 + (c as int - '0' as int)
  {
    assert (s + [c])[..|s|] == s;
  }

  /** Signs and surrounding blanks are read, and a sign alone is no number. */
  lemma SignsAreRead(s: string)
    requires AllDigits(s) && |s| <= 4300
    ensures ParseInt("-" + s) == Some(-Number(s)) && ParseInt("+" + s) == Some(Number(s)) && ParseInt(" " + s) == Some(Number(s))
    ensures ParseInt("-") == None && ParseInt("+") == None && ParseInt("") == None
  {
    hide Number, Unscored, Spelled, Skipped, IsDigit;
    DigitIsPlain(s[0]);
    DigitIsPlain(s[|s| - 1]);
    PlainIsSpelled(s);
    SignedInt('-', s);
    SignedInt('+', s);
    BlankInFront(s);
    SignsAlone();
    hide ParseInt;
  }

  lemma SignIsPlain(sign: char)
    requires sign == '-' || sign == '+'
    ensures !Skipped(sign)
  {
  }

  lemma SignedInt(sign: char, s: string)
    requires AllDigits(s) && !Skipped(s[|s| - 1]) && Spelled(s) && Unscored(s) == s && (sign == '-' || sign == '+')
    ensures ParseInt([sign] + s) == Some(if sign == '-' then -Number(s) else Number(s))
  {
    hide Number, Unscored, Spelled, Skipped, IsDigit, SkipFront, SkipBack, ParseInt;
    var text := [sign] + s;
    SignIsPlain(sign);
    NothingSkipped(text);
    SignedText(text, s);
  }

  /** A text with nothing to skip, of a sign and a number. */
  lemma SignedText(text: string, s: string)
    requires |text| == |s| + 1 && text[1..] == s && (text[0] == '-' || text[0] == '+')
    requires SkipBack(SkipFront(text)) == text && Spelled(s) && Unscored(s) == s
    ensures ParseInt(text) == Some(if text[0] == '-' then -Number(s) else Number(s))
  {
    hide Number, Unscored, Spelled, SkipFront, SkipBack;
  }

  lemma BlankInFront(s: string)
    requires AllDigits(s) && |s| <= CONVERTED_DIGITS
    ensures ParseInt(" " + s) == Some(Number(s))
  {
    assert (" " + s)[1..] == s && Skipped(' ');
    hide Number, Unscored, Spelled, Skipped, IsDigit;
    DigitIsPlain(s[0]);
    assert SkipFront(" " + s) == s;
    PlainInt(s);
    assert SkipFront(s) == s;
  }

  lemma SignsAlone()
    ensures ParseInt("-") == None && ParseInt("+") == None && ParseInt("") == None
  {
    assert SkipFront("-") == "-" && SkipBack("-") == "-" && SkipFront("+") == "+" && SkipBack("+") == "+";
    assert SkipFront("") == "" && SkipBack("") == "";
  }

  // -------------------------------------------------------------- slot hints

  function Digit(n: int): (c: char)
    requires 0 <= n < 10
    ensures IsDigit(c) && DigitValue(c) == n
  {
    '0' + n as char
  }

  predicate IsDigit(c: char) {
    '0' <= c <= '9'
  }

  function DigitValue(c: char): int
    requires IsDigit(c)
  {
    c as int - '0' as int
  }

  /** The last `width` decimal digits of `n`. */
  function Digits(n: int, width: nat): (s: string)
    requires 0 <= n
    ensures |s| == width && forall i :: 0 <= i < width ==> IsDigit(s[i])
  {
    if width == 0 then "" else Digits(n / 10, width - 1) + [Digit(n % 10)]
  }

  /** The number a digit string spells. */
  function Number(s: string): (n: int)
    requires forall i :: 0 <= i < |s| ==> IsDigit(s[i])
    ensures 0 <= n
  {
    if s == "" then 0 else Number(s[..|s| - 1]) * 10 + DigitValue(s[|s| - 1])
  }

  function Power10(width: nat): (p: int)
    ensures 0 < p
  {
    if width == 0 then 1 else 10 * Power10(width - 1)
  }

  /** Reading back a number that fits its width. */
  lemma {:induction false} NumberOfDigits(n: int, width: nat)
    requires 0 <= n < Power10(width)
    ensures Number(Digits(n, width)) == n
  {
    if width > 0 {
      NumberOfDigits(n / 10, width - 1);
      var s := Digits(n, width);
      assert s[..|s| - 1] == Digits(n / 10, width - 1);
    }
  }

  predicate AllDigits(s: string) {
    s != "" && forall i :: 0 <= i < |s| ==> IsDigit(s[i])
  }

  /** Blanks that the host language skips around a number. */
  predicate Skipped(c: char) {
    '\t' <= c <= '\r' || c == ' '
  }

  function SkipFront(s: string): (r: string)
    ensures r == "" || !Skipped(r[0])
  {
    if s != "" && Skipped(s[0]) then SkipFront(s[1..]) else s
  }

  function SkipBack(s: string): (r: string)
    ensures r == "" || !Skipped(r[|r| - 1])
  {
    if s != "" && Skipped(s[|s| - 1]) then SkipBack(s[..|s| - 1]) else s
  }

  /** Digits with single underscores between them, at most as many as the host converts. */
  predicate Spelled(s: string) {
    && s != "" && IsDigit(s[0]) && IsDigit(s[|s| - 1])
    && (forall i :: 0 <= i < |s| ==> IsDigit(s[i]) || s[i] == '_')
    && (forall i :: 0 < i < |s| && s[i] == '_' ==> s[i - 1] != '_')
    && |Unscored(s)| <= CONVERTED_DIGITS
  }

  const CONVERTED_DIGITS := 4300

  function Unscored(s: string): (r: string)
    ensures (forall i :: 0 <= i < |s| ==> IsDigit(s[i]) || s[i] == '_') ==> forall i :: 0 <= i < |r| ==> IsDigit(r[i])
  {
    if s == "" then ""
    else Unscored(s[..|s| - 1]) + if s[|s| - 1] == '_' then "" else [s[|s| - 1]]
  }

  /** The host language's reading of a number: blanks around it, a sign, digits and underscores. */
  function ParseInt(text: string): Option<int> {
    var s := SkipBack(SkipFront(text));
    var signed := s != "" && (s[0] == '+' || s[0] == '-');
    var body := if signed then s[1..] else s;
    if !Spelled(body) then None
    else Some(if signed && s[0] == '-' then -Number(Unscored(body)) else Number(Unscored(body)))
  }

  /** The hour and minute an "HHMM" hint names. */
  function ParseHint(hint: string): Option<(int, int)> {
    if |hint| < 2 then None
    else
      var hour, minute := ParseInt(hint[..2]), ParseInt(hint[2..]);
      if hour.Some? && minute.Some? then Some((hour.value, minute.value)) else None
  }

  function FormatHint(hour: int, minute: int): string
    requires 0 <= hour && 0 <= minute
  {
    Digits(hour, 2) + Digits(minute, 2)
  }

  lemma {:induction false} NothingUnscored(s: string)
    requires forall i :: 0 <= i < |s| ==> IsDigit(s[i])
    ensures Unscored(s) == s
  {
    if s != "" {
      NothingUnscored(s[..|s| - 1]);
      assert s == s[..|s| - 1] + [s[|s| - 1]];
    }
  }

  lemma NothingSkipped(s: string)
    requires s != "" && !Skipped(s[0]) && !Skipped(s[|s| - 1])
    ensures SkipBack(SkipFront(s)) == s
  {
    hide Skipped;
  }

  lemma DigitIsPlain(c: char)
    requires IsDigit(c)
    ensures !Skipped(c) && c != '+' && c != '-' && c != '_'
  {
  }

  lemma PlainIsSpelled(s: string)
    requires AllDigits(s) && |s| <= CONVERTED_DIGITS
    ensures Spelled(s) && Unscored(s) == s
  {
    hide IsDigit, Unscored;
    NothingUnscored(s);
    forall i | 0 <= i < |s| ensures s[i] != '_' {
      DigitIsPlain(s[i]);
    }
  }

  /** Plain digits read as the number they spell. */
  lemma PlainInt(s: string)
    requires AllDigits(s) && |s| <= CONVERTED_DIGITS
    ensures ParseInt(s) == Some(Number(s))
  {
    hide Number, Unscored, Spelled, SkipFront, SkipBack, Skipped, IsDigit;
    DigitIsPlain(s[0]);
    DigitIsPlain(s[|s| - 1]);
    NothingSkipped(s);
    PlainIsSpelled(s);
  }

  lemma HintRoundTrip(hour: int, minute: int)
    requires 0 <= hour < 100 && 0 <= minute < 100
    ensures ParseHint(FormatHint(hour, minute)) == Some((hour, minute))
  {
    assert Power10(2) == 100 by { assert Power10(1) == 10 * Power10(0); }
    NumberOfDigits(hour, 2);
    NumberOfDigits(minute, 2);
    assert FormatHint(hour, minute)[..2] == Digits(hour, 2) && FormatHint(hour, minute)[2..] == Digits(minute, 2);
    PlainInt(Digits(hour, 2));
    PlainInt(Digits(minute, 2));
    hide Number, Digits, ParseInt;
  }

  // --------------------------------------------------------- resolving fires

  datatype Refusal = UNKNOWN_SLOT_HHMM | SLOT_FIRED_OUTSIDE_180_SECONDS | NO_REGISTERED_SLOT_WITHIN_180_SECONDS

  /** A slot registered at an hour and minute; a well-spaced table has no other. */
  ghost predicate Registered(slots: seq<Slot>, hour: int, minute: int, s: Slot) {
    s in slots && s.hour == hour && s.minute == minute
  }

  method LookUp(slots: seq<Slot>, hour: int, minute: int) returns (found: Option<Slot>)
    ensures found.Some? ==> Registered(slots, hour, minute, found.value)
    ensures found.None? ==> forall s :: !Registered(slots, hour, minute, s)
  {
    for i := 0 to |slots|
      invariant forall j :: 0 <= j < i ==> !(slots[j].hour == hour && slots[j].minute == minute)
    {
      if slots[i].hour == hour && slots[i].minute == minute {
        return Some(slots[i]);
      }
    }
    return None;
  }

  /** The nearest slot; the earlier in the table wins a tie. */
  method Nearest(slots: seq<Slot>, us: int) returns (i: nat)
    requires slots != []
    ensures i < |slots| && forall s :: s in slots ==> Distance(us, slots[i]) <= Distance(us, s)
    ensures forall j :: 0 <= j < i ==> Distance(us, slots[i]) < Distance(us, slots[j])
  {
    i := 0;
    for k := 1 to |slots|
      invariant i < k && forall j :: 0 <= j < k ==> Distance(us, slots[i]) <= Distance(us, slots[j])
      invariant forall j :: 0 <= j < i ==> Distance(us, slots[i]) < Distance(us, slots[j])
    {
      if Distance(us, slots[k]) < Distance(us, slots[i]) {
        i := k;
      }
    }
  }

  /**
    The slot a fire belongs to. Without a hint it is refused exactly when no slot is
    within 180 seconds; a hint names the slot, and the same freshness still applies.
   */
  method ResolveSlot(slots: seq<Slot>, us: int, hint: string) returns (r: Result<Slot, Refusal>)
    requires slots != []
    ensures r.Success? ==> r.value in slots && Within(us, r.value, FRESHNESS)
    ensures hint == "" ==> (r.Success? <==> exists s :: s in slots && Within(us, s, FRESHNESS))
    ensures hint == "" && r.Failure? ==> r.error == NO_REGISTERED_SLOT_WITHIN_180_SECONDS
    ensures hint != "" && r.Success? ==>
              ParseHint(hint).Some? && Registered(slots, ParseHint(hint).value.0, ParseHint(hint).value.1, r.value)
    ensures hint != "" && r.Failure? ==>
              if r.error == UNKNOWN_SLOT_HHMM
              then ParseHint(hint).None? || forall s :: !Registered(slots, ParseHint(hint).value.0, ParseHint(hint).value.1, s)
              else r.error == SLOT_FIRED_OUTSIDE_180_SECONDS && ParseHint(hint).Some?
                   && exists s :: Registered(slots, ParseHint(hint).value.0, ParseHint(hint).value.1, s) && !Within(us, s, FRESHNESS)
  {
    hide ParseHint, At;
    if hint != "" {
      var named := ParseHint(hint);
      if named.None? {
        return Failure(UNKNOWN_SLOT_HHMM);
      }
      var found := LookUp(slots, named.value.0, named.value.1);
      if found.None? {
        return Failure(UNKNOWN_SLOT_HHMM);
      }
      if Distance(us, found.value) > FRESHNESS {
        return Failure(SLOT_FIRED_OUTSIDE_180_SECONDS);
      }
      return Success(found.value);
    }
    var i := Nearest(slots, us);
    if Distance(us, slots[i]) > FRESHNESS {
      return Failure(NO_REGISTERED_SLOT_WITHIN_180_SECONDS);
    }
    return Success(slots[i]);
  }

  datatype FireReason = NON_MARKET_DAY | AFTER_EARLY_CLOSE | NO_SLOT_WINDOW | SLOT_MATCH

  datatype FireDecision = FireDecision(run: bool, reason: FireReason, hint: string, slot: Option<Slot>)

  /** Whether the day's session still admits fires at this time. */
  predicate SessionAdmits(now: Clock)
    requires Calendar.Valid(now.day)
  {
    IsMarketOpen(now.day) && !(IsEarlyClose(now.day) && EARLY_CLOSE <= now.us)
  }

  method PlanFire(slots: seq<Slot>, now: Clock) returns (d: FireDecision)
    requires slots != [] && Calendar.Valid(now.day)
    requires forall s :: s in slots ==> 0 <= s.hour && 0 <= s.minute
    ensures d.run <==> SessionAdmits(now) && exists s :: s in slots && Within(now.us, s, MATCH_WINDOW)
    ensures d.run ==> d.reason == SLOT_MATCH && d.slot.Some? && d.slot.value in slots && Within(now.us, d.slot.value, MATCH_WINDOW)
                      && d.hint == FormatHint(d.slot.value.hour, d.slot.value.minute)
    ensures !d.run ==> d.slot.None? && d.hint == ""
                       && d.reason == if !IsMarketOpen(now.day) then NON_MARKET_DAY
                                      else if !SessionAdmits(now) then AFTER_EARLY_CLOSE else NO_SLOT_WINDOW
  {
    hide IsMarketOpen, IsEarlyClose, At, FormatHint;
    if !IsMarketOpen(now.day) {
      return FireDecision(false, NON_MARKET_DAY, "", None);
    }
    if IsEarlyClose(now.day) && now.us >= EARLY_CLOSE {
      return FireDecision(false, AFTER_EARLY_CLOSE, "", None);
    }
    var i := Nearest(slots, now.us);
    if Distance(now.us, slots[i]) > MATCH_WINDOW {
      return FireDecision(false, NO_SLOT_WINDOW, "", None);
    }
    assert slots[i] in slots && Within(now.us, slots[i], MATCH_WINDOW);
    return FireDecision(true, SLOT_MATCH, FormatHint(slots[i].hour, slots[i].minute), Some(slots[i]));
  }

  /**
    Whenever two of the three accept a fire, they mean the same slot: any slot near
    the fire is the only one, so neither the hint nor the wider window can change it.
   */
  lemma AcceptancesAgree(slots: seq<Slot>, us: int, a: Slot, b: Slot)
    requires WellSpaced(slots) && a in slots && b in slots
    requires Within(us, a, MATCH_WINDOW) && Within(us, b, MATCH_WINDOW)
    ensures a == b
  {
    var i :| 0 <= i < |slots| && slots[i] == a;
    var j :| 0 <= j < |slots| && slots[j] == b;
    AtMostOneSlot(slots, i, j, us, MATCH_WINDOW);
  }

  /** The hint of a planned fire names exactly the planned slot. */
  lemma PlannedHintNamesSlot(slots: seq<Slot>, planned: Slot, s: Slot)
    requires WellSpaced(slots) && planned in slots
    ensures ParseHint(FormatHint(planned.hour, planned.minute)) == Some((planned.hour, planned.minute))
    ensures Registered(slots, planned.hour, planned.minute, s) <==> s == planned
  {
    var i :| 0 <= i < |slots| && slots[i] == planned;
    HintRoundTrip(planned.hour, planned.minute);
    if Registered(slots, planned.hour, planned.minute, s) {
      var j :| 0 <= j < |slots| && slots[j] == s;
      assert At(slots[i]) == At(slots[j]);
      AtMostOneSlot(slots, i, j, At(planned), 0);
    }
    hide ParseHint, FormatHint;
  }

  // ---------------------------------------------------------------- run ids

  /** Dates and times that the host language can write. */
  predicate Writable(day: Date, slot: Slot) {
    Calendar.Valid(day) && 1 <= day.year < 10_000 && 0 <= slot.hour < 24 && 0 <= slot.minute < 60
  }

  function Stamp(day: Date, slot: Slot): (s: string)
    requires Writable(day, slot)
    ensures |s| == 13
  {
    Digits(day.year, 4) + Digits(day.month, 2) + Digits(day.day, 2) + "-" + Digits(slot.hour, 2) + Digits(slot.minute, 2)
  }

  function Prefix(kind: SlotKind): string {
    match kind
    case MARKET_GATE => "market-gate-"
    case CANARY => "launchd-canary-"
    case CLOSE_SUMMARY => "pilot-close-canary-"
    case PILOT_SAMPLE => "pilot-"
  }

  function RunIdFor(day: Date, slot: Slot): string
    requires Writable(day, slot)
  {
    Prefix(slot.kind) + Stamp(day, slot)
  }

  lemma TailAfterPrefix(p1: string, t1: string, p2: string, t2: string)
    requires p1 + t1 == p2 + t2 && |t1| == |t2|
    ensures t1 == t2
  {
    assert |p1| == |p2|;
    assert (p1 + t1)[|p1|..] == t1 && (p2 + t2)[|p2|..] == t2;
  }

  lemma Pieces(day: Date, slot: Slot)
    requires Writable(day, slot)
    ensures var s := Stamp(day, slot);
            s[..4] == Digits(day.year, 4) && s[4..6] == Digits(day.month, 2) && s[6..8] == Digits(day.day, 2)
            && s[8] == '-' && s[9..11] == Digits(slot.hour, 2) && s[11..] == Digits(slot.minute, 2)
  {
    hide Digits;
  }

  lemma Widths()
    ensures Power10(2) == 100 && Power10(4) == 10_000
  {
    assert Power10(1) == 10 * Power10(0);
    assert Power10(3) == 10 * Power10(2);
  }

  lemma DateDigits(day: Date, slot: Slot)
    requires Writable(day, slot)
    ensures AllDigits(Stamp(day, slot)[..8])
  {
    Pieces(day, slot);
    hide Stamp;
    var s := Stamp(day, slot);
    assert s[..8] == s[..4] + s[4..6] + s[6..8];
  }

  lemma TimeDigits(day: Date, slot: Slot)
    requires Writable(day, slot)
    ensures AllDigits(Stamp(day, slot)[9..])
  {
    Pieces(day, slot);
    hide Stamp;
    var s := Stamp(day, slot);
    assert s[9..] == s[9..11] + s[11..];
  }

  /** What the stamp of a run says can be read back: the day, and the slot's time. */
  lemma StampReadsBack(day: Date, slot: Slot)
    requires Writable(day, slot)
    ensures StampDigits(Stamp(day, slot))
    ensures var s := Stamp(day, slot);
            && Number(s[..4]) == day.year && Number(s[4..6]) == day.month && Number(s[6..8]) == day.day
            && Number(s[9..11]) == slot.hour && Number(s[11..]) == slot.minute
  {
    Pieces(day, slot);
    DateDigits(day, slot);
    TimeDigits(day, slot);
    Widths();
    NumberOfDigits(day.year, 4);
    NumberOfDigits(day.month, 2);
    NumberOfDigits(day.day, 2);
    NumberOfDigits(slot.hour, 2);
    NumberOfDigits(slot.minute, 2);
    hide Number, Digits, Stamp, Power10;
  }

  predicate StampDigits(s: string)
    requires |s| == 13
  {
    && AllDigits(s[..8]) && AllDigits(s[9..])
    && (forall i :: 0 <= i < 13 && i != 8 ==> IsDigit(s[i]))
  }

  /** Different slots, on any days, never share a run id. */
  lemma RunIdsAreDistinct(slots: seq<Slot>, d1: Date, s1: Slot, d2: Date, s2: Slot)
    requires WellSpaced(slots) && s1 in slots && s2 in slots && Writable(d1, s1) && Writable(d2, s2)
    requires RunIdFor(d1, s1) == RunIdFor(d2, s2)
    ensures d1 == d2 && s1 == s2
  {
    TailAfterPrefix(Prefix(s1.kind), Stamp(d1, s1), Prefix(s2.kind), Stamp(d2, s2));
    StampReadsBack(d1, s1);
    StampReadsBack(d2, s2);
    hide Stamp, Number;
    assert At(s1) == At(s2);
    AcceptancesAgree(slots, At(s1), s1, s2);
  }

  /** The run id as it is written: what kind of run, the day, and the slot's hour and minute. */
  lemma RunIdIs(day: Date, slot: Slot)
    requires Writable(day, slot)
    ensures var stamp := Digits(day.year, 4) + Digits(day.month, 2) + Digits(day.day, 2) + "-" + Digits(slot.hour, 2) + Digits(slot.minute, 2);
            && (slot.kind == PILOT_SAMPLE ==> RunIdFor(day, slot) == "pilot-" + stamp)
            && (slot.kind == MARKET_GATE ==> RunIdFor(day, slot) == "market-gate-" + stamp)
            && (slot.kind == CANARY ==> RunIdFor(day, slot) == "launchd-canary-" + stamp)
            && (slot.kind == CLOSE_SUMMARY ==> RunIdFor(day, slot) == "pilot-close-canary-" + stamp)
  {
    hide Digits;
  }
}
