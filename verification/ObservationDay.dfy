/**
  Observation days: fires are planned and start workers, days are registered, fresh
  workers acknowledge their slots, and watchdog ticks judge what happened.
 */
module ObservationDay {
  import opened Common
  import opened Calendar
  import opened Schedule
  import opened Watchdog
  import opened Ordering
  import MarketDays

  /** Instants of the session clock; one UTC offset holds throughout a session. */
  function Instant(day: Date, us: int): int
    requires Calendar.Valid(day)
  {
    Ordinal(day) * DAY + us
  }

  predicate Sensible(slots: seq<Slot>) {
    WellSpaced(slots) && slots != []
  }

  /** Days stamped with four digits of the year, whose deadlines are on the host's calendar. */
  predicate WritableDay(day: Date) {
    Calendar.Valid(day) && 1000 <= day.year < 9999
  }

  /** A reading of the session clock. */
  predicate Reading(now: Clock) {
    WritableDay(now.day) && 0 <= now.us < DAY
  }

  function When(now: Clock): int
    requires Reading(now)
  {
    Instant(now.day, now.us)
  }

  lemma SlotIsWritable(slots: seq<Slot>, day: Date, s: Slot)
    requires Sensible(slots) && WritableDay(day) && s in slots
    ensures Writable(day, s) && 0 <= At(s) < DAY
  {
  }

  lemma OnCalendar(day: Date, us: int)
    requires WritableDay(day) && 0 <= us < DAY
    ensures InRange(Instant(day, us)) && Instant(day, us) + START_ACK_GRACE <= LATEST
  {
    OrdinalInYear(day);
    YearsIncrease(1, day.year);
    YearsIncrease(day.year + 1, 9999);
    EdgeYears();
    hide Ordinal, DaysBeforeYear, Calendar.Valid;
  }

  lemma EdgeYears()
    ensures DaysBeforeYear(1) == 0 && DaysBeforeYear(9999) == 3_651_694
  {
  }

  /** The disk takes the three file names of a run. */
  predicate Takes(disk: Disk, id: string) {
    && disk.writes(id + EXPECTATION_FILE)
    && disk.opens(id + ACK_FILE) && disk.writes(id + ACK_FILE)
    && disk.opens(id + INCIDENT_FILE) && disk.writes(id + INCIDENT_FILE)
  }

  ghost predicate TakesRuns(disk: Disk, slots: seq<Slot>) {
    forall day, s :: Writable(day, s) && s in slots ==> Takes(disk, RunIdFor(day, s))
  }

  // --------------------------------------------------------------- registering

  function Expectation(day: Date, s: Slot): ManifestFile
    requires Writable(day, s)
  {
    NewExpectation(RunIdFor(day, s), Instant(day, At(s)))
  }

  /** The expectations after registering the first slots of a day. */
  function WithDay(expectations: map<string, ManifestFile>, slots: seq<Slot>, day: Date): map<string, ManifestFile>
    requires WritableDay(day) && forall s :: s in slots ==> Writable(day, s)
  {
    if slots == [] then expectations
    else
      var last := slots[|slots| - 1];
      WithDay(expectations, slots[..|slots| - 1], day)[RunIdFor(day, last) := Expectation(day, last)]
  }

  lemma IdIsValid(day: Date, s: Slot)
    requires Writable(day, s)
    ensures ValidRunId(RunIdFor(day, s))
  {
    PrefixIsValid(s.kind);
    StampIsValid(day, s);
    hide Stamp, Prefix, IdCharacter;
  }

  lemma PrefixIsValid(kind: SlotKind)
    ensures Prefix(kind) != "" && forall i :: 0 <= i < |Prefix(kind)| ==> IdCharacter(Prefix(kind)[i])
  {
  }

  lemma StampIsValid(day: Date, s: Slot)
    requires Writable(day, s)
    ensures forall i :: 0 <= i < 13 ==> IdCharacter(Stamp(day, s)[i])
  {
    var stamp := Stamp(day, s);
    StampReadsBack(day, s);
    Pieces(day, s);
    hide Stamp, Number;
    forall i | 0 <= i < 13 ensures IdCharacter(stamp[i]) {
      if i < 8 { assert stamp[..8][i] == stamp[i]; }
      if 9 <= i { assert stamp[9..][i - 9] == stamp[i]; }
    }
  }

  /** Registers every run of the day, whoever asks for it. */
  method RegisterDay(store: WatchdogStore, slots: seq<Slot>, day: Date) returns (count: nat)
    requires Sensible(slots) && WritableDay(day) && TakesRuns(store.disk, slots)
    modifies store
    ensures count == |slots| && (forall s :: s in slots ==> Writable(day, s))
    ensures store.Value() == old(store.Value()).(expectations := WithDay(old(store.expectations), slots, day))
  {
    hide RunIdFor, Instant, Calendar.Valid, Registrable, WithDay, TakesRuns, Sensible, Writable, At;
    count := 0;
    NoneRegistered(old(store.expectations), slots, day);
    while count < |slots|
      invariant count <= |slots| && (forall s :: s in slots[..count] ==> Writable(day, s))
      invariant store.Value() == old(store.Value()).(expectations := WithDay(old(store.expectations), slots[..count], day))
    {
      var slot := slots[count];
      SlotIsRegistrable(store.Value(), slots, day, slot);
      NextRegistered(old(store.expectations), slots, count, day);
      var ok := store.RegisterExpectedRun(RunIdFor(day, slot), Instant(day, At(slot)));
      count := count + 1;
    }
    assert slots[..|slots|] == slots;
  }

  lemma SlotIsRegistrable(w: World, slots: seq<Slot>, day: Date, s: Slot)
    requires Sensible(slots) && WritableDay(day) && TakesRuns(w.disk, slots) && s in slots
    ensures Writable(day, s) && Registrable(w, RunIdFor(day, s), Instant(day, At(s)))
  {
    hide RunIdFor, Instant, ValidRunId, InRange;
    SlotIsWritable(slots, day, s);
    IdIsValid(day, s);
    OnCalendar(day, At(s));
    assert Takes(w.disk, RunIdFor(day, s));
  }

  lemma NoneRegistered(expectations: map<string, ManifestFile>, slots: seq<Slot>, day: Date)
    requires WritableDay(day)
    ensures WithDay(expectations, slots[..0], day) == expectations
  {
  }

  lemma NextRegistered(expectations: map<string, ManifestFile>, slots: seq<Slot>, n: nat, day: Date)
    requires WritableDay(day) && n < |slots| && (forall s :: s in slots[..n] ==> Writable(day, s)) && Writable(day, slots[n])
    ensures forall s :: s in slots[..n + 1] ==> Writable(day, s)
    ensures var id, at := RunIdFor(day, slots[n]), Instant(day, At(slots[n]));
            WithDay(expectations, slots[..n + 1], day) == WithDay(expectations, slots[..n], day)[id := NewExpectation(id, at)]
  {
    hide RunIdFor, Instant, At, Writable;
    assert slots[..n + 1][..n] == slots[..n];
    assert slots[..n + 1] == slots[..n] + [slots[n]];
  }

  // ------------------------------------------------------------------- moments

  /** The slot a clock reading is within reach of, if any; spacing makes it unique. */
  ghost function NearSlot(slots: seq<Slot>, us: int, window: int): (r: Option<Slot>)
    ensures r.Some? ==> r.value in slots && Within(us, r.value, window)
    ensures r.None? ==> forall s :: s in slots ==> !Within(us, s, window)
  {
    if s :| s in slots && Within(us, s, window) then Some(s) else None
  }

  /** A planned fire goes ahead, and so registers the whole day. */
  ghost predicate Registers(slots: seq<Slot>, now: Clock)
    requires Calendar.Valid(now.day)
  {
    SessionAdmits(now) && NearSlot(slots, now.us, MATCH_WINDOW).Some?
  }

  /** The worker takes this slot: fresh, and the one its hint names if it has one. */
  predicate Accepts(slots: seq<Slot>, us: int, hint: string, s: Slot) {
    s in slots && Within(us, s, FRESHNESS) && (hint != "" ==> ParseHint(hint) == Some((s.hour, s.minute)))
  }

  ghost function Accepted(slots: seq<Slot>, us: int, hint: string): (r: Option<Slot>)
    ensures r.Some? ==> Accepts(slots, us, hint, r.value)
    ensures r.None? ==> forall s :: !Accepts(slots, us, hint, s)
  {
    if s :| Accepts(slots, us, hint, s) then Some(s) else None
  }

  /**
    What happens on observation days, each at its own clock reading: a day is prepared
    by hand, a fire is planned, a worker starts with a hint, the watchdog ticks.
   */
  datatype Moment =
    | Prepare(day: Date)
    | Plan(now: Clock)
    | Work(now: Clock, hint: string)
    | Tick(now: Clock)

  predicate Timely(m: Moment) {
    if m.Prepare? then WritableDay(m.day) else Reading(m.now)
  }

  /** The day a moment registers, if any. */
  ghost function RegisteredBy(slots: seq<Slot>, m: Moment): Option<Date>
    requires Timely(m)
  {
    match m
    case Prepare(day) => Some(day)
    case Plan(now) => if Registers(slots, now) then Some(now.day) else None
    case Work(_, _) => None
    case Tick(now) => if MarketDays.IsMarketOpen(now.day) then Some(now.day) else None
  }

  ghost function Enrolled(w: World, slots: seq<Slot>, m: Moment): World
    requires Sensible(slots) && Timely(m)
  {
    var day := RegisteredBy(slots, m);
    if day.None? then w else w.(expectations := WithDay(w.expectations, slots, day.value))
  }

  /** The stored records after one moment. */
  ghost function AfterMoment(w: World, slots: seq<Slot>, m: Moment): World
    requires Sensible(slots) && Timely(m)
  {
    match m
    case Prepare(_) => Enrolled(w, slots, m)
    case Plan(_) => Enrolled(w, slots, m)
    case Work(now, hint) =>
      var s := Accepted(slots, now.us, hint);
      if s.None? then w
      else
        var id := RunIdFor(now.day, s.value);
        w.(acks := w.acks[id := AckFor(id, Instant(now.day, At(s.value)), When(now))])
    case Tick(now) =>
      OnCalendar(now.day, now.us);
      After(Enrolled(w, slots, m), TickOf(now))
  }

  function TickOf(now: Clock): Step
    requires Reading(now)
  {
    TickStep(When(now), START_ACK_GRACE)
  }

  /** The wrapper: plans the fire and, if it goes ahead, registers the day. */
  method PlanAndRegister(store: WatchdogStore, slots: seq<Slot>, now: Clock) returns (plan: FireDecision)
    requires Sensible(slots) && Reading(now) && TakesRuns(store.disk, slots)
    modifies store
    ensures store.Value() == AfterMoment(old(store.Value()), slots, Plan(now))
    ensures plan.run <==> Registers(slots, now)
    ensures plan.run ==> plan.slot.Some? && NearSlot(slots, now.us, MATCH_WINDOW) == plan.slot
                         && plan.hint == FormatHint(plan.slot.value.hour, plan.slot.value.minute)
  {
    hide SessionAdmits, FormatHint, TakesRuns, WithDay;
    plan := PlanFire(slots, now);
    if plan.run {
      AcceptancesAgree(slots, now.us, plan.slot.value, NearSlot(slots, now.us, MATCH_WINDOW).value);
      var count := RegisterDay(store, slots, now.day);
    }
  }

  /** The worker: resolves its slot and acknowledges the start. */
  method StartWork(store: WatchdogStore, slots: seq<Slot>, now: Clock, hint: string) returns (started: bool)
    requires Sensible(slots) && Reading(now) && TakesRuns(store.disk, slots)
    modifies store
    ensures store.Value() == AfterMoment(old(store.Value()), slots, Work(now, hint))
    ensures started <==> exists s :: Accepts(slots, now.us, hint, s)
  {
    hide RunIdFor, Ordinal, ParseHint, ValidRunId, InRange, Calendar.Valid;
    var resolved := ResolveSlot(slots, now.us, hint);
    if resolved.Failure? {
      RefusedIsUnaccepted(slots, now.us, hint, resolved);
      return false;
    }
    var slot := resolved.value;
    assert Accepts(slots, now.us, hint, slot);
    AcceptsOne(slots, now.us, hint, slot, Accepted(slots, now.us, hint).value);
    SlotIsWritable(slots, now.day, slot);
    IdIsValid(now.day, slot);
    OnCalendar(now.day, At(slot));
    OnCalendar(now.day, now.us);
    assert Takes(store.disk, RunIdFor(now.day, slot));
    var ok := store.WriteStartAck(RunIdFor(now.day, slot), Instant(now.day, At(slot)), When(now));
    return true;
  }

  lemma AcceptsOne(slots: seq<Slot>, us: int, hint: string, a: Slot, b: Slot)
    requires Sensible(slots) && Accepts(slots, us, hint, a) && Accepts(slots, us, hint, b)
    ensures a == b
  {
    AcceptancesAgree(slots, us, a, b);
  }

  /** A refused worker had no slot to accept. */
  lemma RefusedIsUnaccepted(slots: seq<Slot>, us: int, hint: string, r: Result<Slot, Refusal>)
    requires Sensible(slots) && r.Failure?
    requires hint == "" ==> forall s :: s in slots ==> !Within(us, s, FRESHNESS)
    requires hint != "" ==>
               if r.error == UNKNOWN_SLOT_HHMM
               then ParseHint(hint).None? || forall s :: !Registered(slots, ParseHint(hint).value.0, ParseHint(hint).value.1, s)
               else r.error == SLOT_FIRED_OUTSIDE_180_SECONDS && ParseHint(hint).Some?
                    && exists s :: Registered(slots, ParseHint(hint).value.0, ParseHint(hint).value.1, s) && !Within(us, s, FRESHNESS)
    ensures forall s :: !Accepts(slots, us, hint, s)
  {
    hide ParseHint, Within;
    forall s | Accepts(slots, us, hint, s) ensures false {
      assert Registered(slots, ParseHint(hint).value.0, ParseHint(hint).value.1, s);
      var t :| Registered(slots, s.hour, s.minute, t) && !Within(us, t, FRESHNESS);
      PlannedHintNamesSlot(slots, s, t);
    }
  }

  /** One fire of the recurring schedule: the wrapper plans it and launches the worker, which reads the clock again. */
  method Fire(store: WatchdogStore, slots: seq<Slot>, planned: Clock, began: Clock) returns (started: bool)
    requires Sensible(slots) && Reading(planned) && Reading(began) && TakesRuns(store.disk, slots)
    modifies store
    ensures !Registers(slots, planned) ==> store.Value() == old(store.Value()) && !started
    ensures Registers(slots, planned) ==>
              && store.Value() == AfterMoment(AfterMoment(old(store.Value()), slots, Plan(planned)), slots,
                                              Work(began, PlannedHint(slots, planned)))
              && (started <==> Within(began.us, NearSlot(slots, planned.us, MATCH_WINDOW).value, FRESHNESS))
  {
    hide AfterMoment, TakesRuns, Registers, ParseHint, FormatHint, Within, Registered;
    ghost var before := store.Value();
    var plan := PlanAndRegister(store, slots, planned);
    if !plan.run {
      RefusedPlanKeeps(before, slots, planned);
      return false;
    }
    var slot := plan.slot.value;
    HintAccepts(slots, began.us, slot);
    started := StartWork(store, slots, began, plan.hint);
  }

  /** The hint the wrapper passes on. */
  ghost function PlannedHint(slots: seq<Slot>, now: Clock): string
    requires Sensible(slots) && Calendar.Valid(now.day) && Registers(slots, now)
  {
    var s := NearSlot(slots, now.us, MATCH_WINDOW).value;
    FormatHint(s.hour, s.minute)
  }

  lemma RefusedPlanKeeps(w: World, slots: seq<Slot>, now: Clock)
    requires Sensible(slots) && Reading(now) && !Registers(slots, now)
    ensures AfterMoment(w, slots, Plan(now)) == w
  {
  }

  /** With the hint of a slot exactly that slot is accepted, if it is fresh. */
  lemma HintAccepts(slots: seq<Slot>, us: int, planned: Slot)
    requires Sensible(slots) && planned in slots
    ensures Accepts(slots, us, FormatHint(planned.hour, planned.minute), planned) <==> Within(us, planned, FRESHNESS)
    ensures forall s :: Accepts(slots, us, FormatHint(planned.hour, planned.minute), s) ==> s == planned
  {
    hide ParseHint, FormatHint, Within;
    HintIsNotEmpty(planned.hour, planned.minute);
    PlannedHintNamesSlot(slots, planned, planned);
    forall s | Accepts(slots, us, FormatHint(planned.hour, planned.minute), s) ensures s == planned {
      PlannedHintNamesSlot(slots, planned, s);
    }
  }

  lemma HintIsNotEmpty(hour: int, minute: int)
    requires 0 <= hour && 0 <= minute
    ensures FormatHint(hour, minute) != ""
  {
    hide Digits;
  }

  /** The watchdog: registers the day it runs on and scans. */
  method RunTick(store: WatchdogStore, slots: seq<Slot>, now: Clock) returns (stopped: Option<HostError>)
    requires Sensible(slots) && Reading(now) && TakesRuns(store.disk, slots)
    modifies store
    ensures store.Value() == AfterMoment(old(store.Value()), slots, Tick(now))
    ensures stopped.None? <==> Halting(Enrolled(old(store.Value()), slots, Tick(now)), When(now), START_ACK_GRACE) == {}
  {
    hide MarketDays.IsMarketOpen, WithDay, After, Halting, HaltedBy, InRange, Instant, TakesRuns;
    OnCalendar(now.day, now.us);
    if MarketDays.IsMarketOpen(now.day) {
      var count := RegisterDay(store, slots, now.day);
    }
    stopped := store.ScanExpectedRuns(When(now), START_ACK_GRACE);
  }

  // ----------------------------------------------------------------- histories

  ghost predicate AllTimely(h: seq<Moment>) {
    forall i :: 0 <= i < |h| ==> Timely(h[i])
  }

  ghost function AfterHistory(slots: seq<Slot>, disk: Disk, h: seq<Moment>): World
    requires Sensible(slots) && AllTimely(h)
  {
    if h == [] then World(map[], map[], map[], map[], disk)
    else AfterMoment(AfterHistory(slots, disk, h[..|h| - 1]), slots, h[|h| - 1])
  }

  /** Some worker started the run of slot `s` on `day`. */
  ghost predicate Started(slots: seq<Slot>, h: seq<Moment>, day: Date, s: Slot) {
    exists i :: 0 <= i < |h| && Starts(slots, h[i], day, s)
  }

  predicate Starts(slots: seq<Slot>, m: Moment, day: Date, s: Slot) {
    m.Work? && m.now.day == day && Accepts(slots, m.now.us, m.hint, s)
  }

  lemma StartedStep(slots: seq<Slot>, h: seq<Moment>, day: Date, s: Slot)
    requires h != []
    ensures Started(slots, h, day, s) <==> Started(slots, h[..|h| - 1], day, s) || Starts(slots, h[|h| - 1], day, s)
  {
    hide Starts;
    var front := h[..|h| - 1];
    if Started(slots, front, day, s) {
      var i :| 0 <= i < |front| && Starts(slots, front[i], day, s);
      assert h[i] == front[i];
    }
    if i :| 0 <= i < |h| && Starts(slots, h[i], day, s) {
      if i < |front| { assert front[i] == h[i]; }
    }
  }

  /** Some moment registered the day. */
  ghost predicate DayRegistered(slots: seq<Slot>, h: seq<Moment>, day: Date)
    requires AllTimely(h)
  {
    exists i :: 0 <= i < |h| && RegisteredBy(slots, h[i]) == Some(day)
  }

  lemma RegisteredStep(slots: seq<Slot>, h: seq<Moment>, day: Date)
    requires AllTimely(h) && h != []
    ensures DayRegistered(slots, h, day) <==> DayRegistered(slots, h[..|h| - 1], day) || RegisteredBy(slots, h[|h| - 1]) == Some(day)
  {
    hide RegisteredBy, Timely;
    var front := h[..|h| - 1];
    if DayRegistered(slots, front, day) {
      var i :| 0 <= i < |front| && RegisteredBy(slots, front[i]) == Some(day);
      assert h[i] == front[i];
    }
    if i :| 0 <= i < |h| && RegisteredBy(slots, h[i]) == Some(day) {
      if i < |front| { assert front[i] == h[i]; }
    }
  }

  // ----------------------------------------------------------- acknowledgements

  /** The acknowledgement on file for a run is one of its own fresh workers'. */
  ghost predicate Acknowledged(ack: AckFile, day: Date, s: Slot)
    requires Writable(day, s)
  {
    exists us :: 0 <= us < DAY && Distance(us, s) <= FRESHNESS && ack == AckFor(RunIdFor(day, s), Instant(day, At(s)), Instant(day, us))
  }

  lemma AckOfMoment(w: World, slots: seq<Slot>, m: Moment, day: Date, s: Slot)
    requires Sensible(slots) && Timely(m) && WritableDay(day) && s in slots && Writable(day, s)
    ensures var before, after := AckOf(w.acks, RunIdFor(day, s)), AckOf(AfterMoment(w, slots, m).acks, RunIdFor(day, s));
            if Starts(slots, m, day, s) then Acknowledged(after, day, s) else after == before
  {
    hide RunIdFor, Ordinal, At, ParseHint, Scannable, Scanned, WithDay;
    if m.Work? {
      var accepted := Accepted(slots, m.now.us, m.hint);
      if Starts(slots, m, day, s) {
        AcceptsOne(slots, m.now.us, m.hint, s, accepted.value);
      } else if accepted.Some? {
        SlotIsWritable(slots, m.now.day, accepted.value);
        if RunIdFor(m.now.day, accepted.value) == RunIdFor(day, s) {
          RunIdsAreDistinct(slots, m.now.day, accepted.value, day, s);
        }
      }
    }
  }

  /** After any history a run is acknowledged exactly when one of its own workers was fresh. */
  lemma {:induction false} AcksOfHistory(slots: seq<Slot>, disk: Disk, h: seq<Moment>, day: Date, s: Slot)
    requires Sensible(slots) && AllTimely(h) && WritableDay(day) && s in slots && Writable(day, s)
    ensures var ack := AckOf(AfterHistory(slots, disk, h).acks, RunIdFor(day, s));
            if Started(slots, h, day, s) then Acknowledged(ack, day, s) else ack == NoFile
  {
    hide AfterMoment, Starts, Acknowledged, RunIdFor, Started, Timely;
    if h != [] {
      var front := h[..|h| - 1];
      AcksOfHistory(slots, disk, front, day, s);
      StartedStep(slots, h, day, s);
      AckOfMoment(AfterHistory(slots, disk, front), slots, h[|h| - 1], day, s);
    } else {
      assert !Started(slots, h, day, s) by { NothingStarted(slots, h, day, s); }
    }
  }

  lemma NothingStarted(slots: seq<Slot>, h: seq<Moment>, day: Date, s: Slot)
    requires h == []
    ensures !Started(slots, h, day, s)
  {
  }

  /** How a scan judges a run by the acknowledgement that a history leaves. */
  lemma RunIsJudged(ack: AckFile, day: Date, s: Slot, checkedAt: int)
    requires WritableDay(day) && Writable(day, s) && 0 <= At(s) < DAY && (ack == NoFile || Acknowledged(ack, day, s))
    ensures EvaluateStartAck(ack, Instant(day, At(s)), 0, checkedAt, START_ACK_GRACE, RunIdFor(day, s))
            == Success(if ack != NoFile then START_ACK_VALID
                       else if Instant(day, At(s)) + START_ACK_GRACE < checkedAt then SCHEDULED_RUN_MISSED else START_ACK_PENDING)
  {
    hide RunIdFor, Ordinal, At, Calendar.Valid, InRange;
    OnCalendar(day, At(s));
  }

  /**
    The alarm window is the freshness window: whatever happened, on whatever days, a run
    is judged healthy exactly when a worker started it, and missed exactly when none
    did and its 180 seconds have passed.
   */
  lemma VerdictOfHistory(slots: seq<Slot>, disk: Disk, h: seq<Moment>, day: Date, s: Slot, checkedAt: int)
    requires Sensible(slots) && AllTimely(h) && WritableDay(day) && s in slots && Writable(day, s)
    ensures var id, scheduled := RunIdFor(day, s), Instant(day, At(s));
            EvaluateStartAck(AckOf(AfterHistory(slots, disk, h).acks, id), scheduled, 0, checkedAt, START_ACK_GRACE, id)
            == Success(if Started(slots, h, day, s) then START_ACK_VALID
                       else if scheduled + 180_000_000 < checkedAt then SCHEDULED_RUN_MISSED else START_ACK_PENDING)
  {
    hide AfterHistory, Started, RunIdFor, Instant, At, EvaluateStartAck, Timely;
    AcksOfHistory(slots, disk, h, day, s);
    SlotIsWritable(slots, day, s);
    RunIsJudged(AckOf(AfterHistory(slots, disk, h).acks, RunIdFor(day, s)), day, s, checkedAt);
  }

  // -------------------------------------------------------- what histories keep

  /** A stored expectation is that of some slot on some day. */
  ghost predicate Scheduled(slots: seq<Slot>, key: string, f: ManifestFile) {
    exists day, s :: WritableDay(day) && s in slots && Writable(day, s) && key == RunIdFor(day, s) && f == Expectation(day, s)
  }

  ghost predicate AllScheduled(slots: seq<Slot>, expectations: map<string, ManifestFile>) {
    forall key :: key in expectations ==> Scheduled(slots, key, expectations[key])
  }

  lemma {:induction false} DayIsScheduled(expectations: map<string, ManifestFile>, all: seq<Slot>, slots: seq<Slot>, day: Date)
    requires Sensible(all) && AllScheduled(all, expectations) && WritableDay(day)
    requires forall s :: s in slots ==> s in all && Writable(day, s)
    ensures AllScheduled(all, WithDay(expectations, slots, day))
  {
    hide RunIdFor, Expectation;
    if slots != [] {
      var front, last := slots[..|slots| - 1], slots[|slots| - 1];
      DayIsScheduled(expectations, all, front, day);
      assert last in slots && Scheduled(all, RunIdFor(day, last), Expectation(day, last));
    }
  }

  /** Registering one day's slots adds their runs and no other. */
  lemma {:induction false} WithDayIff(expectations: map<string, ManifestFile>, all: seq<Slot>, slots: seq<Slot>,
                                      registered: Date, day: Date, s: Slot)
    requires Sensible(all) && WritableDay(registered) && (forall t :: t in slots ==> t in all && Writable(registered, t))
    requires WritableDay(day) && s in all && Writable(day, s)
    ensures RunIdFor(day, s) in WithDay(expectations, slots, registered) <==>
              RunIdFor(day, s) in expectations || (registered == day && s in slots)
  {
    hide RunIdFor, Expectation, Calendar.Valid;
    if slots != [] {
      var front, last := slots[..|slots| - 1], slots[|slots| - 1];
      WithDayIff(expectations, all, front, registered, day, s);
      assert slots == front + [last];
      if RunIdFor(registered, last) == RunIdFor(day, s) {
        RunIdsAreDistinct(all, registered, last, day, s);
      }
    }
  }

  /** An incident as a tick files it: open, naming its own run, detected at a clock reading. */
  ghost predicate IsFiled(f: IncidentFile, id: string) {
    f.Record? && f.value.runId == Some(id) && f.value.resolution == None
    && exists now :: Reading(now) && f.value.detectedAt == Some(Aware(When(now)))
  }

  ghost predicate AllFiled(incidents: map<string, IncidentFile>) {
    forall id :: id in incidents ==> IsFiled(incidents[id], id)
  }

  lemma FlaggedIsOpen(w: World, key: string, now: Clock)
    requires key in w.expectations && Reading(now) && Flagged(w, key, When(now), START_ACK_GRACE).Some?
    ensures var flagged := Flagged(w, key, When(now), START_ACK_GRACE).value; IsFiled(flagged.1, flagged.0)
  {
    hide EvaluateStartAck, Usable, IsRetired, FiledAs, Halt, Instant, WritableDay;
  }

  lemma {:induction false} ScanFiles(w: World, listing: seq<string>, now: Clock)
    requires AllFiled(w.incidents) && Reading(now) && forall key :: key in listing ==> key in w.expectations
    ensures AllFiled(Scanned(w, listing, When(now), START_ACK_GRACE))
  {
    hide Flagged, IsFiled, Reading, When;
    if listing != [] {
      ScanFiles(w, listing[..|listing| - 1], now);
      if Flagged(w, listing[|listing| - 1], When(now), START_ACK_GRACE).Some? {
        FlaggedIsOpen(w, listing[|listing| - 1], now);
      }
    }
  }

  ghost predicate Sound(w: World, slots: seq<Slot>, disk: Disk) {
    w.disk == disk && AllScheduled(slots, w.expectations) && AllFiled(w.incidents)
  }

  lemma EnrolledIsSound(w: World, slots: seq<Slot>, disk: Disk, m: Moment)
    requires Sensible(slots) && Timely(m) && Sound(w, slots, disk)
    ensures Sound(Enrolled(w, slots, m), slots, disk)
    ensures Enrolled(w, slots, m).acks == w.acks && Enrolled(w, slots, m).incidents == w.incidents
  {
    hide AllScheduled, AllFiled, Registers, WithDay, MarketDays.IsMarketOpen;
    var day := RegisteredBy(slots, m);
    if day.Some? {
      DayIsScheduled(w.expectations, slots, slots, day.value);
    }
  }

  lemma MomentIsSound(w: World, slots: seq<Slot>, disk: Disk, m: Moment)
    requires Sensible(slots) && Timely(m) && Sound(w, slots, disk)
    ensures Sound(AfterMoment(w, slots, m), slots, disk)
  {
    hide AllScheduled, AllFiled, Registers, WithDay, RunIdFor, Instant, Accepts, Enrolled, RegisteredBy, Scannable, Scanned;
    EnrolledIsSound(w, slots, disk, m);
    if m.Tick? {
      OnCalendar(m.now.day, m.now.us);
      var r := Enrolled(w, slots, m);
      ScanFiles(r, Scannable(r, When(m.now), START_ACK_GRACE), m.now);
    }
  }

  lemma {:induction false} HistoryIsSound(slots: seq<Slot>, disk: Disk, h: seq<Moment>)
    requires Sensible(slots) && AllTimely(h)
    ensures Sound(AfterHistory(slots, disk, h), slots, disk)
  {
    hide AfterMoment, Timely;
    if h != [] {
      HistoryIsSound(slots, disk, h[..|h| - 1]);
      hide Sound;
      MomentIsSound(AfterHistory(slots, disk, h[..|h| - 1]), slots, disk, h[|h| - 1]);
    }
  }

  /** A run has an expectation exactly when its day was registered. */
  lemma {:induction false} ExpectedIff(slots: seq<Slot>, disk: Disk, h: seq<Moment>, day: Date, s: Slot)
    requires Sensible(slots) && AllTimely(h) && WritableDay(day) && s in slots && Writable(day, s)
    ensures RunIdFor(day, s) in AfterHistory(slots, disk, h).expectations <==> DayRegistered(slots, h, day)
  {
    hide RunIdFor, AfterMoment, RegisteredBy, Timely, WritableDay;
    if h != [] {
      var front := h[..|h| - 1];
      ExpectedIff(slots, disk, front, day, s);
      hide DayRegistered;
      RegisteredStep(slots, h, day);
      MomentExpects(AfterHistory(slots, disk, front), slots, h[|h| - 1], day, s);
    }
  }

  lemma MomentExpects(w: World, slots: seq<Slot>, m: Moment, day: Date, s: Slot)
    requires Sensible(slots) && Timely(m) && WritableDay(day) && s in slots && Writable(day, s)
    ensures AfterMoment(w, slots, m).expectations == Enrolled(w, slots, m).expectations
    ensures RunIdFor(day, s) in Enrolled(w, slots, m).expectations <==>
              RunIdFor(day, s) in w.expectations || RegisteredBy(slots, m) == Some(day)
  {
    hide RunIdFor, WithDay, Registers, Accepts, MarketDays.IsMarketOpen, Scannable, Scanned, Instant;
    var registered := RegisteredBy(slots, m);
    if registered.Some? {
      WithDayIff(w.expectations, slots, slots, registered.value, day, s);
    }
  }

  lemma OwnExpectation(slots: seq<Slot>, expectations: map<string, ManifestFile>, day: Date, s: Slot)
    requires Sensible(slots) && AllScheduled(slots, expectations) && WritableDay(day) && s in slots && Writable(day, s)
    requires RunIdFor(day, s) in expectations
    ensures expectations[RunIdFor(day, s)] == Expectation(day, s)
  {
    hide RunIdFor, Expectation, WritableDay;
    var key := RunIdFor(day, s);
    assert Scheduled(slots, key, expectations[key]);
    var d, t :| WritableDay(d) && t in slots && Writable(d, t) && key == RunIdFor(d, t) && expectations[key] == Expectation(d, t);
    RunIdsAreDistinct(slots, d, t, day, s);
  }

  // ------------------------------------------------------------------- one tick

  /** Every run of the table has the acknowledgement file that its workers leave. */
  ghost predicate AcksFit(slots: seq<Slot>, acks: map<string, AckFile>) {
    forall day, s :: WritableDay(day) && s in slots && Writable(day, s) ==>
      var ack := AckOf(acks, RunIdFor(day, s)); ack == NoFile || Acknowledged(ack, day, s)
  }

  lemma HistoryFits(slots: seq<Slot>, disk: Disk, h: seq<Moment>)
    requires Sensible(slots) && AllTimely(h)
    ensures AcksFit(slots, AfterHistory(slots, disk, h).acks)
  {
    hide RunIdFor, Acknowledged, AfterHistory, Timely, Started;
    forall day, s | WritableDay(day) && s in slots && Writable(day, s)
      ensures var ack := AckOf(AfterHistory(slots, disk, h).acks, RunIdFor(day, s)); ack == NoFile || Acknowledged(ack, day, s) {
      AcksOfHistory(slots, disk, h, day, s);
    }
  }

  /** The check of one scheduled run: nothing stops it, and it is flagged exactly when it is missed. */
  lemma RunIsChecked(w: World, slots: seq<Slot>, day: Date, s: Slot, checkedAt: int)
    requires Sensible(slots) && WritableDay(day) && s in slots && Writable(day, s) && Takes(w.disk, RunIdFor(day, s))
    requires RunIdFor(day, s) in w.expectations && w.expectations[RunIdFor(day, s)] == Expectation(day, s)
    requires var ack := AckOf(w.acks, RunIdFor(day, s)); ack == NoFile || Acknowledged(ack, day, s)
    ensures var id := RunIdFor(day, s);
            && Halt(w, id, checkedAt, START_ACK_GRACE) == None
            && (Flagged(w, id, checkedAt, START_ACK_GRACE).Some? <==>
                  AckOf(w.acks, id) == NoFile && Instant(day, At(s)) + START_ACK_GRACE < checkedAt)
            && (Flagged(w, id, checkedAt, START_ACK_GRACE).Some? ==> Flagged(w, id, checkedAt, START_ACK_GRACE).value.0 == id)
  {
    hide RunIdFor, EvaluateStartAck, Acknowledged, Instant, At, WritableDay;
    SlotIsWritable(slots, day, s);
    RunIsJudged(AckOf(w.acks, RunIdFor(day, s)), day, s, checkedAt);
  }

  /** In the records of observation days nothing stops a tick, and each expectation is flagged under its own name. */
  lemma NothingHalts(w: World, slots: seq<Slot>, disk: Disk, checkedAt: int)
    requires Sensible(slots) && TakesRuns(disk, slots) && Sound(w, slots, disk) && AcksFit(slots, w.acks)
    ensures Halting(w, checkedAt, START_ACK_GRACE) == {}
    ensures forall key :: key in w.expectations && Flagged(w, key, checkedAt, START_ACK_GRACE).Some? ==>
              Flagged(w, key, checkedAt, START_ACK_GRACE).value.0 == key
  {
    hide RunIdFor, Expectation, WritableDay, Halt, Flagged, Takes, Acknowledged, AllFiled;
    forall key | key in w.expectations
      ensures Halt(w, key, checkedAt, START_ACK_GRACE) == None
      ensures Flagged(w, key, checkedAt, START_ACK_GRACE).Some? ==> Flagged(w, key, checkedAt, START_ACK_GRACE).value.0 == key {
      assert Scheduled(slots, key, w.expectations[key]);
      var day, s :| WritableDay(day) && s in slots && Writable(day, s) && key == RunIdFor(day, s) && w.expectations[key] == Expectation(day, s);
      assert Takes(disk, RunIdFor(day, s));
      RunIsChecked(w, slots, day, s, checkedAt);
    }
  }

  /** One tick over such records files exactly what it finds registered, unacknowledged and past its grace. */
  lemma TickOverDays(w: World, slots: seq<Slot>, disk: Disk, now: Clock, day: Date, s: Slot)
    requires Sensible(slots) && TakesRuns(disk, slots) && Sound(w, slots, disk) && AcksFit(slots, w.acks)
    requires Reading(now) && WritableDay(day) && s in slots && Writable(day, s)
    ensures Possible(w, TickOf(now))
    ensures var id := RunIdFor(day, s);
            id in After(w, TickOf(now)).incidents <==>
              || id in w.incidents
              || (id in w.expectations && AckOf(w.acks, id) == NoFile && Instant(day, At(s)) + START_ACK_GRACE < When(now))
  {
    hide RunIdFor, WritableDay, Flagged, Acknowledged, After, Halting, Reached, AllFiled, Expectation, Takes, Instant, At, InRange;
    var id := RunIdFor(day, s);
    ReadingIsPossible(w, now);
    TickIff(w, TickOf(now), id);
    NothingHalts(w, slots, disk, When(now));
    if id in w.expectations {
      OwnExpectation(slots, w.expectations, day, s);
      AllReached(w.expectations.Keys, EXPECTATION_FILE, id);
      RunIsChecked(w, slots, day, s, When(now));
    }
  }

  lemma ReadingIsPossible(w: World, now: Clock)
    requires Reading(now)
    ensures Possible(w, TickOf(now))
  {
    OnCalendar(now.day, now.us);
  }

  // ------------------------------------------------- the incidents of a history

  /** This tick found the run registered, not started, and past its grace. */
  ghost predicate Reports(slots: seq<Slot>, h: seq<Moment>, i: int, day: Date, s: Slot)
    requires AllTimely(h) && Calendar.Valid(day)
  {
    LateTick(slots, h, i, day, s) && !Started(slots, h[..i], day, s)
  }

  /** A tick past the run's grace, on a registered day. */
  ghost predicate LateTick(slots: seq<Slot>, h: seq<Moment>, i: int, day: Date, s: Slot)
    requires AllTimely(h) && Calendar.Valid(day)
  {
    && 0 <= i < |h| && h[i].Tick? && Timely(h[i]) && Instant(day, At(s)) + 180_000_000 < When(h[i].now)
    && DayRegistered(slots, h[..i + 1], day)
  }

  lemma ReportsInFront(slots: seq<Slot>, h: seq<Moment>, i: int, day: Date, s: Slot)
    requires AllTimely(h) && h != [] && Calendar.Valid(day) && i < |h| - 1
    ensures Reports(slots, h[..|h| - 1], i, day, s) <==> Reports(slots, h, i, day, s)
  {
    hide DayRegistered, Started, Timely, Instant, At;
    if 0 <= i {
      assert h[..|h| - 1][..i] == h[..i] && h[..|h| - 1][..i + 1] == h[..i + 1];
    }
  }

  /** The last moment adds an incident exactly if it is a tick that reports the run. */
  lemma LastReports(slots: seq<Slot>, disk: Disk, h: seq<Moment>, day: Date, s: Slot)
    requires Sensible(slots) && TakesRuns(disk, slots) && AllTimely(h) && h != []
    requires WritableDay(day) && s in slots && Writable(day, s)
    ensures RunIdFor(day, s) in AfterHistory(slots, disk, h).incidents <==>
              || RunIdFor(day, s) in AfterHistory(slots, disk, h[..|h| - 1]).incidents
              || Reports(slots, h, |h| - 1, day, s)
  {
    hide RunIdFor, Acknowledged, DayRegistered, Started, After, AcksFit, Sound, RegisteredBy, WithDay, TakesRuns, Accepts, Instant, At;
    var front, m := h[..|h| - 1], h[|h| - 1];
    var w := AfterHistory(slots, disk, front);
    assert h[..|h| - 1 + 1] == h;
    if m.Tick? {
      var r := Enrolled(w, slots, m);
      HistoryIsSound(slots, disk, front);
      HistoryFits(slots, disk, front);
      EnrolledIsSound(w, slots, disk, m);
      TickOverDays(r, slots, disk, m.now, day, s);
      ExpectedIff(slots, disk, front, day, s);
      MomentExpects(w, slots, m, day, s);
      RegisteredStep(slots, h, day);
      AcksOfHistory(slots, disk, front, day, s);
      SomeAck(AckOf(w.acks, RunIdFor(day, s)), day, s);
    }
  }

  lemma SomeAck(ack: AckFile, day: Date, s: Slot)
    requires Writable(day, s)
    ensures Acknowledged(ack, day, s) ==> ack != NoFile
  {
    hide RunIdFor, Instant, At;
  }

  /**
    The whole chain, over any history of preparations, plans, workers and ticks: a run
    has an incident exactly when some tick found its day registered, no worker had
    started it, and its grace had passed.
   */
  lemma {:induction false} IncidentsOfHistory(slots: seq<Slot>, disk: Disk, h: seq<Moment>, day: Date, s: Slot)
    requires Sensible(slots) && TakesRuns(disk, slots) && AllTimely(h)
    requires WritableDay(day) && s in slots && Writable(day, s)
    ensures RunIdFor(day, s) in AfterHistory(slots, disk, h).incidents <==> exists i :: Reports(slots, h, i, day, s)
  {
    hide RunIdFor, Reports, TakesRuns, Timely, AfterMoment;
    if h == [] {
      NothingReported(slots, h, day, s);
    } else {
      var front := h[..|h| - 1];
      IncidentsOfHistory(slots, disk, front, day, s);
      LastReports(slots, disk, h, day, s);
      if i :| Reports(slots, front, i, day, s) {
        ReportsInside(slots, front, i, day, s);
        ReportsInFront(slots, h, i, day, s);
      }
      if i :| Reports(slots, h, i, day, s) {
        ReportsInside(slots, h, i, day, s);
        if i < |front| { ReportsInFront(slots, h, i, day, s); }
      }
      hide AfterHistory;
    }
  }

  lemma NothingReported(slots: seq<Slot>, h: seq<Moment>, day: Date, s: Slot)
    requires AllTimely(h) && Calendar.Valid(day) && h == []
    ensures forall i :: !Reports(slots, h, i, day, s)
  {
  }

  lemma ReportsInside(slots: seq<Slot>, h: seq<Moment>, i: int, day: Date, s: Slot)
    requires AllTimely(h) && Calendar.Valid(day) && Reports(slots, h, i, day, s)
    ensures 0 <= i < |h|
  {
  }

  /** The clocks of a history never go back. */
  ghost predicate Clocked(h: seq<Moment>)
    requires AllTimely(h)
  {
    forall i, j :: 0 <= i < j < |h| && !h[i].Prepare? && !h[j].Prepare? ==> When(h[i].now) <= When(h[j].now)
  }

  /**
    If the clocks never go back, a run has an incident exactly when no worker ever
    started it and some tick came past its grace with its day registered. Nothing is
    missed silently, and nothing healthy is flagged.
   */
  lemma MissedIff(slots: seq<Slot>, disk: Disk, h: seq<Moment>, day: Date, s: Slot)
    requires Sensible(slots) && TakesRuns(disk, slots) && AllTimely(h) && Clocked(h)
    requires WritableDay(day) && s in slots && Writable(day, s)
    ensures RunIdFor(day, s) in AfterHistory(slots, disk, h).incidents <==>
              !Started(slots, h, day, s) && exists i :: LateTick(slots, h, i, day, s)
  {
    hide RunIdFor, AfterHistory, TakesRuns, LateTick, Started, Timely, Clocked;
    IncidentsOfHistory(slots, disk, h, day, s);
    if i :| Reports(slots, h, i, day, s) {
      TooLateToStart(slots, h, i, day, s);
    }
    if !Started(slots, h, day, s) {
      if i :| LateTick(slots, h, i, day, s) {
        StartedInFront(slots, h, i, day, s);
        assert Reports(slots, h, i, day, s);
      }
    }
  }

  lemma StartedInFront(slots: seq<Slot>, h: seq<Moment>, i: int, day: Date, s: Slot)
    requires AllTimely(h) && Calendar.Valid(day) && LateTick(slots, h, i, day, s)
    ensures 0 <= i < |h| && (Started(slots, h[..i], day, s) ==> Started(slots, h, day, s))
  {
    hide Starts, DayRegistered, Timely, Instant, At;
    if Started(slots, h[..i], day, s) {
      var k :| 0 <= k < |h[..i]| && Starts(slots, h[..i][k], day, s);
      assert h[k] == h[..i][k];
    }
  }

  /** A run that a tick reported cannot be started by a later clock reading. */
  lemma TooLateToStart(slots: seq<Slot>, h: seq<Moment>, i: int, day: Date, s: Slot)
    requires AllTimely(h) && Clocked(h) && Calendar.Valid(day) && Reports(slots, h, i, day, s)
    ensures !Started(slots, h, day, s) && LateTick(slots, h, i, day, s)
  {
    hide DayRegistered, Starts, At, Ordinal, Timely;
    forall k | 0 <= k < |h| ensures !Starts(slots, h[k], day, s) {
      if k < i {
        assert h[..i][k] == h[k];
      } else {
        LaterIsStale(slots, h, i, k, day, s);
      }
    }
  }

  lemma LaterIsStale(slots: seq<Slot>, h: seq<Moment>, i: int, k: int, day: Date, s: Slot)
    requires AllTimely(h) && Clocked(h) && Calendar.Valid(day) && LateTick(slots, h, i, day, s) && i <= k < |h|
    ensures !Starts(slots, h[k], day, s)
  {
    hide DayRegistered, Accepts, At, Ordinal;
    if Starts(slots, h[k], day, s) {
      AcceptsFresh(slots, h[k].now.us, h[k].hint, s);
    }
  }

  lemma AcceptsFresh(slots: seq<Slot>, us: int, hint: string, s: Slot)
    requires Accepts(slots, us, hint, s)
    ensures us <= At(s) + FRESHNESS
  {
    hide At, ParseHint;
  }

  // ------------------------------------------------------------------ half days

  /** Every worker was launched by the wrapper: a planned fire of the same day passed its hint on. */
  ghost predicate Launched(slots: seq<Slot>, h: seq<Moment>)
    requires Sensible(slots) && AllTimely(h)
  {
    forall i :: 0 <= i < |h| && h[i].Work? ==> exists j :: 0 <= j < i && Launches(slots, h[j], h[i])
  }

  ghost predicate Launches(slots: seq<Slot>, plan: Moment, work: Moment)
    requires Sensible(slots)
  {
    plan.Plan? && work.Work? && Timely(plan) && plan.now.day == work.now.day
    && Registers(slots, plan.now) && work.hint == PlannedHint(slots, plan.now)
  }

  /** On a half day a launched worker can only start slots planned before the close. */
  lemma HalfDayStarts(slots: seq<Slot>, h: seq<Moment>, day: Date, s: Slot)
    requires Sensible(slots) && AllTimely(h) && Launched(slots, h) && s in slots
    requires Calendar.Valid(day) && MarketDays.IsEarlyClose(day) && Started(slots, h, day, s)
    ensures At(s) < EARLY_CLOSE + MATCH_WINDOW
  {
    hide Launches, Starts, Timely, MarketDays.IsEarlyClose;
    var i :| 0 <= i < |h| && Starts(slots, h[i], day, s);
    StartIsWork(slots, h[i], day, s);
    var j :| 0 <= j < i && Launches(slots, h[j], h[i]);
    LaunchedInTime(slots, h[j], h[i], day, s);
  }

  lemma StartIsWork(slots: seq<Slot>, m: Moment, day: Date, s: Slot)
    requires Starts(slots, m, day, s)
    ensures m.Work?
  {
  }

  lemma LaunchedInTime(slots: seq<Slot>, plan: Moment, work: Moment, day: Date, s: Slot)
    requires Sensible(slots) && Launches(slots, plan, work) && Starts(slots, work, day, s)
    requires Calendar.Valid(day) && MarketDays.IsEarlyClose(day)
    ensures At(s) < EARLY_CLOSE + MATCH_WINDOW
  {
    hide MarketDays.IsEarlyClose, MarketDays.IsMarketOpen, FormatHint, ParseHint, At, Calendar.Valid;
    HintAccepts(slots, work.now.us, NearSlot(slots, plan.now.us, MATCH_WINDOW).value);
    assert Accepts(slots, work.now.us, work.hint, s);
  }

  lemma BehindClose(s: Slot)
    ensures At(s) < EARLY_CLOSE + MATCH_WINDOW <==> s.hour * 60 + s.minute < 10 * 60 + 5
  {
  }

  /** And those it can: a fire planned just before the close whose worker starts on time. */
  lemma HalfDayStartsIff(slots: seq<Slot>, day: Date, s: Slot)
    requires Sensible(slots) && WritableDay(day) && MarketDays.IsEarlyClose(day) && s in slots
    ensures (exists h :: AllTimely(h) && Clocked(h) && Launched(slots, h) && Started(slots, h, day, s))
            <==> s.hour * 60 + s.minute < 10 * 60 + 5
  {
    hide Clocked, Launched, Started, AllTimely, At, MarketDays.IsEarlyClose, Calendar.Valid;
    BehindClose(s);
    if h :| AllTimely(h) && Clocked(h) && Launched(slots, h) && Started(slots, h, day, s) {
      HalfDayStarts(slots, h, day, s);
    }
    if At(s) < EARLY_CLOSE + MATCH_WINDOW {
      OnTime(slots, day, s);
      assert AllTimely(OnTimeFire(day, s)) && Launched(slots, OnTimeFire(day, s));
    }
  }

  lemma HalfDayIsOpen(day: Date)
    requires Calendar.Valid(day) && MarketDays.IsEarlyClose(day)
    ensures MarketDays.IsMarketOpen(day)
  {
    hide MarketDays.IsMarketOpen;
  }

  /** A fire planned up to five minutes early whose worker starts at the slot's minute. */
  function OnTimeFire(day: Date, s: Slot): seq<Moment>
    requires 0 <= s.hour && 0 <= s.minute
  {
    var early := if At(s) < MATCH_WINDOW then At(s) else MATCH_WINDOW;
    [Plan(Clock(day, At(s) - early)), Work(Clock(day, At(s)), FormatHint(s.hour, s.minute))]
  }

  lemma OnTime(slots: seq<Slot>, day: Date, s: Slot)
    requires Sensible(slots) && WritableDay(day) && MarketDays.IsEarlyClose(day) && s in slots && At(s) < EARLY_CLOSE + MATCH_WINDOW
    ensures var h := OnTimeFire(day, s); AllTimely(h) && Clocked(h) && Launched(slots, h) && Started(slots, h, day, s)
  {
    hide FormatHint, ParseHint, Ordinal;
    var h := OnTimeFire(day, s);
    SlotIsWritable(slots, day, s);
    HalfDayIsOpen(day);
    var plan := h[0].now;
    AcceptancesAgree(slots, plan.us, s, NearSlot(slots, plan.us, MATCH_WINDOW).value);
    hide MarketDays.IsEarlyClose, MarketDays.IsMarketOpen, At;
    assert Launches(slots, h[0], h[1]);
    HintAccepts(slots, At(s), s);
    assert Starts(slots, h[1], day, s);
  }

  /**
    On a half day the whole table is still registered, although no fire from the close
    on is admitted: a slot five minutes behind it is always reported missed.
   */
  lemma HalfDayAlwaysMisses(slots: seq<Slot>, disk: Disk, h: seq<Moment>, i: int, day: Date, s: Slot)
    requires Sensible(slots) && TakesRuns(disk, slots) && AllTimely(h) && Launched(slots, h)
    requires WritableDay(day) && s in slots && Writable(day, s) && MarketDays.IsEarlyClose(day)
    requires 10 * 60 + 5 <= s.hour * 60 + s.minute && LateTick(slots, h, i, day, s)
    ensures RunIdFor(day, s) in AfterHistory(slots, disk, h).incidents
  {
    hide AfterHistory, Started, RunIdFor, LateTick, Launched, TakesRuns, Timely, At, MarketDays.IsEarlyClose;
    IncidentsOfHistory(slots, disk, h, day, s);
    BehindClose(s);
    if Started(slots, h, day, s) {
      HalfDayStarts(slots, h, day, s);
    }
    StartedInFront(slots, h, i, day, s);
    assert Reports(slots, h, i, day, s);
  }

  // --------------------------------------------------------------- maintenance

  /** Reading up to a dash without a stamp moves on to the next token. */
  lemma {:induction false} SkipToken(id: string, start: nat, i: nat, dash: nat)
    requires start <= i <= dash < |id| && id[dash] == '-' && !IsStamp(id[start..dash])
    requires forall k :: i <= k < dash ==> id[k] != '-'
    ensures FirstStamp(id, start, i) == FirstStamp(id, dash + 1, dash + 1)
    decreases dash - i
  {
    if i < dash {
      SkipToken(id, start, i + 1, dash);
    }
  }

  /** Reading up to a dash behind a stamp finds the stamp. */
  lemma {:induction false} FindToken(id: string, start: nat, i: nat, dash: nat)
    requires start <= i <= dash < |id| && id[dash] == '-' && IsStamp(id[start..dash])
    requires forall k :: i <= k < dash ==> id[k] != '-'
    ensures FirstStamp(id, start, i) == Some(id[start..dash])
    decreases dash - i
  {
    if i < dash {
      FindToken(id, start, i + 1, dash);
    }
  }

  /** None of the words in front of the stamp is itself a stamp. */
  lemma SkipPrefix(kind: SlotKind, rest: string)
    ensures var p := Prefix(kind); FirstStamp(p + rest, 0, 0) == FirstStamp(p + rest, |p|, |p|)
  {
    var id := Prefix(kind) + rest;
    match kind
    case MARKET_GATE => SkipToken(id, 0, 0, 6); SkipToken(id, 7, 7, 11);
    case CANARY => SkipToken(id, 0, 0, 7); SkipToken(id, 8, 8, 14);
    case CLOSE_SUMMARY => SkipToken(id, 0, 0, 5); SkipToken(id, 6, 6, 11); SkipToken(id, 12, 12, 18);
    case PILOT_SAMPLE => SkipToken(id, 0, 0, 5);
  }

  /** The day stamped into a run id is read back from it. */
  lemma StampedDayIsDay(day: Date, s: Slot)
    requires Writable(day, s)
    ensures StampedDay(RunIdFor(day, s)) == Some(Ordinal(day))
  {
    var p, stamp := Prefix(s.kind), Stamp(day, s);
    var id := p + stamp;
    SkipPrefix(s.kind, stamp);
    StampReadsBack(day, s);
    Pieces(day, s);
    hide Stamp, Prefix, Number, Ordinal, FirstStamp;
    var dash := |p| + 8;
    assert id[|p|..dash] == stamp[..8] && id[dash] == stamp[8];
    forall k | |p| <= k < dash ensures id[k] != '-' {
      assert id[k] == stamp[..8][k - |p|];
    }
    FindToken(id, |p|, |p|, dash);
    assert stamp[..8][..4] == stamp[..4] && stamp[..8][4..6] == stamp[4..6] && stamp[..8][6..] == stamp[6..8];
  }

  /** The zone tables put an instant of the session clock on its own day. */
  ghost predicate Zoned(dayOf: DayOf) {
    forall now :: Reading(now) ==> dayOf(Aware(When(now))) == Some(Ordinal(now.day))
  }

  /**
    Once a day is past the cutoff, retiring, resolving and archiving clears its
    incidents for good, whatever follows, short of registering that run again; the
    records stay in the archive.
   */
  lemma MaintenanceClearsDay(slots: seq<Slot>, disk: Disk, h: seq<Moment>, day: Date, s: Slot, cutoff: int, dayOf: DayOf, steps: seq<Step>)
    requires Sensible(slots) && AllTimely(h) && WritableDay(day) && s in slots && Writable(day, s)
    requires Zoned(dayOf) && Ordinal(day) < cutoff
    requires PossibleRun(Maintained(AfterHistory(slots, disk, h), cutoff, dayOf), steps)
    requires forall step :: step in steps ==> !(step.RegisterStep? && step.id == RunIdFor(day, s))
    ensures var w, id := AfterHistory(slots, disk, h), RunIdFor(day, s);
            && id !in AfterAll(Maintained(w, cutoff, dayOf), steps).incidents
            && (id in w.incidents ==> id in AfterAll(Maintained(w, cutoff, dayOf), steps).archive)
  {
    hide AfterHistory, RunIdFor, Recoverable, Maintained, Zoned, Ordinal, Timely;
    HistoryIsSound(slots, disk, h);
    DayIsRecoverable(AfterHistory(slots, disk, h), slots, disk, day, s, cutoff, dayOf);
    MaintenanceIsFinal(AfterHistory(slots, disk, h), RunIdFor(day, s), cutoff, dayOf, steps);
  }

  lemma DayIsRecoverable(w: World, slots: seq<Slot>, disk: Disk, day: Date, s: Slot, cutoff: int, dayOf: DayOf)
    requires Sensible(slots) && Sound(w, slots, disk) && WritableDay(day) && s in slots && Writable(day, s)
    requires Zoned(dayOf) && Ordinal(day) < cutoff
    ensures Recoverable(w, RunIdFor(day, s), cutoff, dayOf)
  {
    hide RunIdFor, Ordinal, StampedDay, Calls, Retires, Resolved, Resolvable, Zoned, Scheduled, IsFiled, Reached;
    hide RetireHalting, ResolveHalting, Garbled, WritableDay;
    var id := RunIdFor(day, s);
    StampedDayIsDay(day, s);
    ExpectationsAreDated(slots, w.expectations, dayOf);
    IncidentsAreDated(w.incidents, dayOf);
    forall key | key in w.expectations && Calls(w.expectations[key], key, id)
      ensures RetireReached(w, dayOf, key) && Retires(w.expectations[key], cutoff, dayOf) {
      assert Scheduled(slots, key, w.expectations[key]);
      ExpectedBeforeCutoff(slots, key, w.expectations[key], day, s, cutoff, dayOf);
      AllReached(w.expectations.Keys, EXPECTATION_FILE, key);
    }
    if id in w.incidents {
      FiledIsResolvable(w.incidents[id], id, Ordinal(day), cutoff, dayOf);
      AllReached(w.incidents.Keys, INCIDENT_FILE, id);
    }
  }

  /** No expectation of observation days stops the retiring script. */
  lemma ExpectationsAreDated(slots: seq<Slot>, expectations: map<string, ManifestFile>, dayOf: DayOf)
    requires Sensible(slots) && AllScheduled(slots, expectations) && Zoned(dayOf)
    ensures RetireHalting(expectations, dayOf) == {}
  {
    hide Undatable, Scheduled, Zoned;
    forall key | key in expectations ensures expectations[key].Record? && !Undatable(expectations[key], dayOf) {
      assert Scheduled(slots, key, expectations[key]);
      ExpectationIsDated(slots, key, expectations[key], dayOf);
    }
  }

  lemma ExpectationIsDated(slots: seq<Slot>, key: string, f: ManifestFile, dayOf: DayOf)
    requires Sensible(slots) && Scheduled(slots, key, f) && Zoned(dayOf)
    ensures f.Record? && !Undatable(f, dayOf)
  {
    hide RunIdFor, Ordinal, WritableDay, At;
    var d, t :| WritableDay(d) && t in slots && Writable(d, t) && key == RunIdFor(d, t) && f == Expectation(d, t);
    SlotIsWritable(slots, d, t);
    assert Reading(Clock(d, At(t)));
  }

  /** Nor does an incident that a tick filed stop the resolving or the archiving one. */
  lemma IncidentsAreDated(incidents: map<string, IncidentFile>, dayOf: DayOf)
    requires AllFiled(incidents) && Zoned(dayOf)
    ensures ResolveHalting(incidents, dayOf) == {} && Garbled(incidents) == {}
  {
    hide Unplaced, IsFiled, Zoned;
    forall id | id in incidents ensures incidents[id].Record? && !Unplaced(incidents[id], dayOf) {
      IncidentIsDated(incidents[id], id, dayOf);
    }
  }

  lemma IncidentIsDated(f: IncidentFile, id: string, dayOf: DayOf)
    requires IsFiled(f, id) && Zoned(dayOf)
    ensures f.Record? && !Unplaced(f, dayOf)
    ensures f.value.detectedAt.Some? && dayOf(f.value.detectedAt.value).Some? && !Resolved(f)
  {
    hide Ordinal, Reading, When;
  }

  lemma FiledIsResolvable(f: IncidentFile, id: string, day: int, cutoff: int, dayOf: DayOf)
    requires IsFiled(f, id) && Zoned(dayOf) && StampedDay(id) == Some(day) && day < cutoff
    ensures Resolvable(f, cutoff, dayOf)
  {
    IncidentIsDated(f, id, dayOf);
    hide StampedDay, Zoned, Resolved;
  }

  lemma ExpectedBeforeCutoff(slots: seq<Slot>, key: string, f: ManifestFile, day: Date, s: Slot, cutoff: int, dayOf: DayOf)
    requires Sensible(slots) && WritableDay(day) && s in slots && Writable(day, s) && Scheduled(slots, key, f)
    requires Zoned(dayOf) && Ordinal(day) < cutoff
    ensures Calls(f, key, RunIdFor(day, s)) ==> Retires(f, cutoff, dayOf)
  {
    hide RunIdFor, Ordinal, At, WritableDay;
    var d, t :| WritableDay(d) && t in slots && Writable(d, t) && key == RunIdFor(d, t) && f == Expectation(d, t);
    if RunIdFor(d, t) == RunIdFor(day, s) {
      RunIdsAreDistinct(slots, d, t, day, s);
      SlotIsWritable(slots, day, s);
      assert Reading(Clock(day, At(s)));
    }
  }

  // ------------------------------------------------- moments, in plain numbers

  /** How long after its own minute a slot is. */
  function Late(us: int, s: Slot): int {
    us - (s.hour * 3_600_000_000 + s.minute * 60_000_000)
  }

  /**
    A day is registered by its preparation, by a fire on an open session (on a half day
    before 10:00) within 300 seconds of a slot, by a tick on a day the market is open,
    and by nothing else.
   */
  lemma RegistersIff(slots: seq<Slot>, m: Moment, day: Date)
    requires Timely(m)
    ensures RegisteredBy(slots, m) == Some(day) <==>
              match m
              case Prepare(d) => d == day
              case Plan(now) =>
                && now.day == day && MarketDays.IsMarketOpen(day) && (MarketDays.IsEarlyClose(day) ==> now.us < 36_000_000_000)
                && exists s :: s in slots && -300_000_000 <= Late(now.us, s) <= 300_000_000
              case Work(_, _) => false
              case Tick(now) => now.day == day && MarketDays.IsMarketOpen(day)
  {
    hide MarketDays.IsMarketOpen, MarketDays.IsEarlyClose;
    if m.Plan? {
      forall s ensures Within(m.now.us, s, MATCH_WINDOW) <==> -300_000_000 <= Late(m.now.us, s) <= 300_000_000 {
        WindowsAre(m.now.us, s);
      }
      hide Within, Late;
    }
  }

  /** A worker starts a slot exactly within 180 seconds of it, and if it was hinted at one, only that one. */
  lemma StartsIff(slots: seq<Slot>, m: Moment, day: Date, s: Slot)
    ensures Starts(slots, m, day, s) <==>
              && m.Work? && m.now.day == day && s in slots && -180_000_000 <= Late(m.now.us, s) <= 180_000_000
              && (m.hint == "" || ParseHint(m.hint) == Some((s.hour, s.minute)))
  {
    if m.Work? {
      WindowsAre(m.now.us, s);
    }
    hide ParseHint, Within;
  }
}
