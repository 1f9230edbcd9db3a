/** Concrete days of pilot slots: a horizon missed by the launch lag, and an instrument that is never asked for. */
module TrajectoryExamples {
  import opened Common
  import opened Ordering
  import opened Trajectory
  import opened TrajectoryDay

  const QUOTED := Quote(Some(0.47), Some(0.48), Some(0.475))

  /** The one listed contract of a symbol; its id is the symbol itself. */
  function Contract(symbol: string): Instrument {
    Instrument(symbol, Some(symbol), Some(CALL), Some(100.0))
  }

  function Chain(symbol: string, now: int): ChainSnapshot {
    ChainSnapshot([Contract(symbol)], map[symbol := QUOTED], Some(101.0), now + SECOND, None)
  }

  /** A slot that qualifies these symbols with twice their usual volume. */
  function Opener(now: int, symbols: seq<string>): Sample {
    Sample(now, true, true, symbols, map x | x in symbols :: Report(Some(2.0), Some(CALL)), [("BASE_18", 1.8)], None,
           map x | x in symbols :: Chain(x, now), map[])
  }

  /** A slot that qualifies nothing. */
  function Idle(now: int): Sample {
    Opener(now, [])
  }

  /** The slot with a refresh that is answered exactly as asked. */
  function Answering(g: Groups, s: Sample): Sample {
    s.(refresh := Some(Probe(map x | x in Asked(ProbeIds(Targets(g, s.now))) :: QUOTED, s.now + SECOND, None)))
  }

  function Candidate(symbol: string, now: int): Event
    requires symbol != ""
  {
    CandidateEvent(Contract(symbol), QUOTED, now, now + SECOND, None, ["BASE_18"]).value
  }

  lemma OpenerIsFaithful(now: int, symbols: seq<string>)
    requires Distinct(symbols) && "" !in symbols
    ensures Faithful(Opener(now, symbols))
    ensures forall g :: Faithful(Answering(g, Opener(now, symbols)))
  {
    hide Distinct, Asked, Targets, ProbeIds;
  }

  lemma OpeningIs(s: Sample, symbol: string)
    requires symbol != "" && symbol in s.reports && s.reports[symbol] == Report(Some(2.0), Some(CALL)) && s.registry == [("BASE_18", 1.8)]
    requires symbol in s.snapshots && s.snapshots[symbol] == Chain(symbol, s.now) && s.windows == map[]
    ensures Opening(s, symbol) == Some(Candidate(symbol, s.now)) && NewEvents(s, symbol) == [Candidate(symbol, s.now)]
  {
    var snap := s.snapshots[symbol];
    assert Labels([], 2.0) == [] && Labels(s.registry, 2.0) == ["BASE_18"];
    assert snap.instruments == [Contract(symbol)] && IsNearest(snap.instruments, 1, snap.quotes, 101.0, CALL, 0);
    NearestIndexIs(snap.instruments, snap.quotes, 101.0, CALL, 0);
    hide NearestIndex, Labels, IsNearest;
  }

  /** Whatever is open, such a slot opens each of up to three new symbols. */
  lemma OpenerOpens(g: Groups, s: Sample, now: int, symbols: seq<string>, symbol: string)
    requires SaneDay(g, now) && HorizonIsObservable(now) && Distinct(symbols) && "" !in symbols && |symbols| <= MAX_CANDIDATES_PER_SLOT
    requires symbol in symbols && symbol !in OpenSymbols(g) && Candidate(symbol, now).id !in g
    requires s == Opener(now, symbols) || s == Answering(g, Opener(now, symbols))
    ensures var c := Candidate(symbol, now); c.id in AfterSlot(g, s) && AfterSlot(g, s)[c.id] == [c]
  {
    OpenerIsFaithful(now, symbols);
    OpeningIs(s, symbol);
    SelectedAll(g, s, symbol);
    OpenedIff(g, s, Candidate(symbol, now).id);
    hide Faithful, Opening, NewEvents, Selected, SaneDay, AfterSlot;
    hide Asked, Targets, ProbeIds, HorizonIsObservable, OpenSymbols, Distinct;
    assert s.qualified == symbols && symbols != [];
  }

  // ------------------------------------------------------------ launch lag

  /** A minute's worth of launch lag after 11:43. */
  function LateStart(early: int): int {
    LAST_PILOT_SLOT - TARGET_HORIZON_MINUTES * MINUTE + early
  }

  /** The last slot, `late` into its minute, with everything asked for answered. */
  ghost function LastSlot(early: int, late: int): Sample {
    Answering(AfterSlots([Opener(LateStart(early), ["AMD"])]), Idle(LAST_PILOT_SLOT + late))
  }

  /** A candidate an hour before the last slot, `early` into its minute, and the last slot. */
  ghost function LagDay(early: int, late: int): seq<Sample> {
    [Opener(LateStart(early), ["AMD"]), LastSlot(early, late)]
  }

  lemma OneSlot(s: Sample)
    ensures AfterSlots([s]) == AfterSlot(map[], s)
  {
    assert [s][..0] == [] && AfterSlots([]) == map[];
    hide AfterSlot;
  }

  lemma NothingElseOpens(s: Sample, now: int, symbol: string, id: TrajectoryId)
    requires symbol != "" && s == Opener(now, [symbol]) && id in AfterSlot(map[], s)
    ensures id == Candidate(symbol, now).id
  {
    EmptyDay(now);
    OpenerIsFaithful(now, [symbol]);
    OpeningIs(s, symbol);
    hide Faithful, HorizonIsObservable, SaneDay, AfterSlot, NewEvents, Opening;
    OpenedIff(map[], s, id);
    assert id in OpenedBy(map[], s);
    hide Opener, Selected;
    SelectedIsOwn(s, now, symbol, id.symbol);
  }

  lemma SelectedIsOwn(s: Sample, now: int, symbol: string, x: string)
    requires s == Opener(now, [symbol]) && x in Selected(map[], s)
    ensures x == symbol
  {
    hide Selected, OpenSymbols;
    assert s.qualified == [symbol];
  }

  /** On an empty day it opens one symbol and nothing else. */
  lemma FirstOpens(s: Sample, now: int, symbol: string)
    requires HorizonIsObservable(now) && symbol != "" && s == Opener(now, [symbol])
    ensures var c := Candidate(symbol, now);
            Faithful(s) && SaneDay(AfterSlots([s]), now) && AfterSlots([s]) == map[c.id := [c]]
  {
    OneSlot(s);
    EmptyDay(now);
    OpenerIsFaithful(now, [symbol]);
    assert s.now == now && symbol !in OpenSymbols(map[]);
    OpenerOpens(map[], s, now, [symbol], symbol);
    hide Faithful, HorizonIsObservable, SaneDay, AfterSlot, Opener, Candidate, AfterSlots;
    SlotKeepsDay(map[], s);
    forall id | id in AfterSlot(map[], s) ensures id == Candidate(symbol, now).id {
      NothingElseOpens(s, now, symbol, id);
    }
  }

  /** The only open instrument is asked for. */
  lemma AloneIsAsked(c: Event, now: int)
    requires OpensDay(c) && c.instrumentId != ""
    ensures Ahead(map[c.id := [c]], now, c) == 0 && !HasClose([c])
  {
    var g := map[c.id := [c]];
    assert forall id :: id in Targets(g, now) ==> id == c.id && Targets(g, now)[id].candidate == c;
    PrecedesTotal(c.instrumentId, c.instrumentId);
    hide Precedes, Targets;
    assert Before(ProbeIds(Targets(g, now)), c.instrumentId) == {};
  }

  lemma CandidateFacts(symbol: string, now: int)
    requires symbol != ""
    ensures var c := Candidate(symbol, now); OpensDay(c) && c.instrumentId == symbol && c.decisionTime == now
  {
  }

  lemma LagIsAdmitted(early: int)
    requires 0 <= early < MINUTE
    ensures HorizonIsObservable(LateStart(early))
  {
  }

  lemma LastSlotIs(early: int, late: int)
    ensures Faithful(LastSlot(early, late)) && LastSlot(early, late).now == LAST_PILOT_SLOT + late
    ensures AnswersAsked(AfterSlots([Opener(LateStart(early), ["AMD"])]), LastSlot(early, late))
  {
    OpenerIsFaithful(LAST_PILOT_SLOT + late, []);
    hide Asked, ProbeIds, Targets, AfterSlots, Faithful, LateStart;
  }

  lemma LagIsOrderly(early: int, late: int)
    requires 0 <= early < MINUTE && 0 <= late < MINUTE
    ensures OrderlyDay(LagDay(early, late)) && LagDay(early, late)[..1] == [Opener(LateStart(early), ["AMD"])]
  {
    OpenerIsFaithful(LateStart(early), ["AMD"]);
    LastSlotIs(early, late);
    assert Opener(LateStart(early), ["AMD"]).now == LateStart(early) <= LAST_PILOT_SLOT + late;
    hide LastSlot, Opener, Faithful, LateStart;
  }

  /** Over this whole day, with every probe answered as asked, the candidate is closed exactly when it was not launched later. */
  lemma LagDecides(early: int, late: int)
    requires 0 <= early < MINUTE && 0 <= late < MINUTE
    ensures var day, c := LagDay(early, late), Candidate("AMD", LateStart(early));
            && OrderlyDay(day) && AnswersAsked(AfterSlots(day[..1]), day[1])
            && c.id in AfterSlots(day[..1]) && c.id in AfterSlots(day)
            && (HasClose(AfterSlots(day)[c.id]) <==> early <= late)
  {
    var start, day := LateStart(early), LagDay(early, late);
    var c, g, last := Candidate("AMD", start), AfterSlots(day[..1]), day[1];
    assert |day| == 2 && last == LastSlot(early, late) && start + TARGET_HORIZON_MINUTES * MINUTE == LAST_PILOT_SLOT + early;
    LagIsOrderly(early, late);
    LastSlotIs(early, late);
    LagIsAdmitted(early);
    CandidateFacts("AMD", start);
    hide LagDay, Candidate, AfterSlots, AfterSlot, HasClose, Ahead, SaneDay;
    hide Faithful, AnswersAsked, HorizonIsObservable, LastSlot, Opener, OrderlyDay, LateStart;
    FirstOpens(day[0], start, "AMD");
    AloneIsAsked(c, last.now);
    LaterDay(g, start, last.now);
    StarvedIff(g, last, c.id);
    DayClosesIff(day, 1, c.id);
    hide Answers;
    assert ClosedFrom(c, day, 1) <==> Closes(c, last);
  }

  /** Five seconds of lag are enough: admitted at 11:43:05, and the last slot at 12:43:00 sees it too early. */
  lemma AdmittedButMissed()
    ensures LateStart(5 * SECOND) == (11 * 60 + 43) * MINUTE + 5 * SECOND && LAST_PILOT_SLOT == (12 * 60 + 43) * MINUTE
    ensures var day, id := LagDay(5 * SECOND, 0), Candidate("AMD", LateStart(5 * SECOND)).id;
            OrderlyDay(day) && id in AfterSlots(day) && !HasClose(AfterSlots(day)[id])
  {
    hide AfterSlots, OrderlyDay, HasClose, LagDay, Candidate, AnswersAsked;
    LagDecides(5 * SECOND, 0);
  }

  // -------------------------------------------------------------- starving

  /** Four slots of the table, 7:03 to 8:03, and the symbols that first qualify in each. */
  function TimeOf(k: nat): int {
    (7 * 60 + 3 + 20 * k) * MINUTE
  }

  function SymbolsOf(k: nat): seq<string> {
    if k == 0 then ["AAPL", "AMD", "AMZN"] else if k == 1 then ["BAC", "META", "MSFT"] else if k == 2 then ["TSLA"] else []
  }

  /** The first slots of that morning, each probe answered exactly as asked. */
  ghost function Morning(n: nat): seq<Sample>
    decreases n, 0
  {
    if n == 0 then [] else Morning(n - 1) + [MorningSlot(n - 1)]
  }

  ghost function MorningSlot(k: nat): Sample
    decreases k, 1
  {
    Answering(AfterSlots(Morning(k)), Opener(TimeOf(k), SymbolsOf(k)))
  }

  lemma SymbolsAreDistinct(k: nat)
    ensures Distinct(SymbolsOf(k)) && "" !in SymbolsOf(k) && |SymbolsOf(k)| <= MAX_CANDIDATES_PER_SLOT
  {
    assert "AAPL"[1] == 'A' && "AMD"[1] == 'M' && "AMD"[2] == 'D' && "AMZN"[1] == 'M' && "AMZN"[2] == 'Z';
    assert "BAC"[1] == 'A' && "META"[1] == 'E' && "MSFT"[1] == 'S';
  }

  /** The first letters tell the groups apart. */
  predicate Initial(k: nat, x: string) {
    x != "" && x[0] in (if k == 0 then {'A'} else if k == 1 then {'B', 'M'} else {'T'})
  }

  lemma Initials(k: nat, x: string)
    requires x in SymbolsOf(k)
    ensures Initial(k, x) && k < 3
  {
  }

  lemma MorningSlotIs(k: nat)
    ensures Faithful(MorningSlot(k)) && MorningSlot(k).now == TimeOf(k) && MorningSlot(k).qualified == SymbolsOf(k)
    ensures AnswersAsked(AfterSlots(Morning(k)), MorningSlot(k))
  {
    SymbolsAreDistinct(k);
    OpenerIsFaithful(TimeOf(k), SymbolsOf(k));
    hide Faithful, AfterSlots, Asked, ProbeIds, Targets, Distinct;
  }

  lemma {:induction false} MorningIs(n: nat, k: nat)
    requires k <= n
    ensures |Morning(n)| == n && Morning(n)[..k] == Morning(k) && (k < n ==> Morning(n)[k] == MorningSlot(k))
  {
    hide MorningSlot;
    if n > 0 {
      MorningIs(n - 1, if k < n then k else n - 1);
    }
  }

  lemma MorningIsOrderly(n: nat)
    ensures OrderlyDay(Morning(n)) && |Morning(n)| == n && forall i :: 0 <= i < n ==> Morning(n)[i].now == TimeOf(i)
  {
    hide Morning, MorningSlot, Faithful;
    MorningIs(n, n);
    forall i | 0 <= i < n ensures Faithful(Morning(n)[i]) && Morning(n)[i].now == TimeOf(i) {
      MorningIs(n, i);
      MorningSlotIs(i);
    }
  }

  lemma MorningStep(n: nat)
    requires 0 < n
    ensures AfterSlots(Morning(n)) == AfterSlot(AfterSlots(Morning(n - 1)), MorningSlot(n - 1))
  {
    hide AfterSlot, MorningSlot;
    assert Morning(n)[..n - 1] == Morning(n - 1) by {
      MorningIs(n, n - 1);
    }
    MorningIs(n, n);
  }

  lemma MorningIsSane(n: nat)
    ensures SaneDay(AfterSlots(Morning(n)), TimeOf(n))
  {
    hide AfterSlots, OrderlyDay, Morning, SaneDay;
    MorningIsOrderly(n);
    DaysAreSane(Morning(n), TimeOf(n));
  }

  /** What a slot of the morning opens is one of its own symbols. */
  lemma OpensOwn(k: nat, id: TrajectoryId)
    requires id in AfterSlots(Morning(k + 1)) && id !in AfterSlots(Morning(k))
    ensures id.symbol in SymbolsOf(k)
  {
    MorningStep(k + 1);
    MorningSlotIs(k);
    MorningIsSane(k);
    hide AfterSlot, AfterSlots, Faithful, SaneDay, Morning, MorningSlot, AnswersAsked, SymbolsOf;
    SlotKeepsDay(AfterSlots(Morning(k)), MorningSlot(k));
    assert id in OpenedBy(AfterSlots(Morning(k)), MorningSlot(k));
  }

  /** Symbols of later slots are not open yet. */
  lemma {:induction false} NotOpenYet(n: nat, m: nat, x: string, id: TrajectoryId)
    requires n <= m && x in SymbolsOf(m) && id in AfterSlots(Morning(n))
    ensures id.symbol != x
  {
    NothingBefore();
    hide AfterSlots, Morning, SymbolsOf, Initial;
    if n > 0 {
      if id in AfterSlots(Morning(n - 1)) {
        NotOpenYet(n - 1, m, x, id);
      } else {
        Initials(m, x);
        OpensOwn(n - 1, id);
        Initials(n - 1, id.symbol);
        InitialsDiffer(n - 1, id.symbol, m, x);
      }
    }
  }

  lemma InitialsDiffer(j: nat, x: string, k: nat, y: string)
    requires j < k < 3 && Initial(j, x) && Initial(k, y)
    ensures x != y
  {
  }

  lemma NothingBefore()
    ensures AfterSlots(Morning(0)) == map[]
  {
  }

  lemma OnlyOpenSymbols(g: Groups, now: int, x: string)
    requires SaneDay(g, now) && forall id :: id in g ==> id.symbol != x
    ensures x !in OpenSymbols(g)
  {
    hide HorizonAt, HorizonIsObservable, SameFile, CandidateTerms;
    forall id, i | id in g && 0 <= i < |g[id]| ensures g[id][i].underlying != x {
      assert Belongs(id, g[id][0], g[id][i]);
    }
  }

  lemma SymbolOpens(k: nat, x: string)
    requires k < 3 && x in SymbolsOf(k)
    ensures x != "" && var c := Candidate(x, TimeOf(k)); c.id in AfterSlots(Morning(k + 1)) && AfterSlots(Morning(k + 1))[c.id] == [c]
  {
    Initials(k, x);
    assert x != "";
    SymbolsAreDistinct(k);
    MorningIsSane(k);
    MorningStep(k + 1);
    var g, c := AfterSlots(Morning(k)), Candidate(x, TimeOf(k));
    assert HorizonIsObservable(TimeOf(k)) && c.id.symbol == x;
    hide AfterSlots, AfterSlot, Distinct, SaneDay, HorizonIsObservable, Morning;
    hide Candidate, Opener, Answering, OpenSymbols, SymbolsOf, Initial;
    forall id | id in g ensures id.symbol != x {
      NotOpenYet(k, k, x, id);
    }
    OnlyOpenSymbols(g, TimeOf(k), x);
    OpenerOpens(g, MorningSlot(k), TimeOf(k), SymbolsOf(k), x);
  }

  /** No slot of that morning is an hour after an earlier one opened. */
  lemma NothingDue(c: Event, k: nat)
    requires k < 3 && c.decisionTime == TimeOf(k)
    ensures !ClosedFrom(c, Morning(3), k + 1)
  {
    MorningIsOrderly(3);
    hide Morning, OrderlyDay, Answers;
    forall i | k + 1 <= i < 3 ensures !Closes(c, Morning(3)[i]) {
    }
    hide Closes, TimeOf;
  }

  /** At 8:03 it is still open. */
  lemma SymbolStaysOpen(k: nat, x: string)
    requires k < 3 && x in SymbolsOf(k)
    ensures x != "" && var c, g := Candidate(x, TimeOf(k)), AfterSlots(Morning(3));
            c.id in g && g[c.id] != [] && g[c.id][0] == c && !HasClose(g[c.id]) && x in ProbeIds(Targets(g, TimeOf(3)))
  {
    SymbolOpens(k, x);
    var c := Candidate(x, TimeOf(k));
    CandidateFacts(x, TimeOf(k));
    assert !HasClose([c]);
    hide AfterSlots, Morning, Candidate, SaneDay, OrderlyDay, ProbeIds, Targets, ClosedFrom, HasClose, SymbolsOf, TimeOf;
    MorningIs(3, k + 1);
    MorningIsOrderly(3);
    MorningIsSane(3);
    NothingDue(c, k);
    DayClosesIff(Morning(3), k + 1, c.id);
    OpenIsProbed(AfterSlots(Morning(3)), TimeOf(3), c.id);
  }

  lemma {:induction false} SetOfDistinct(s: seq<string>)
    requires Distinct(s)
    ensures |set x | x in s| == |s|
  {
    if s != [] {
      var front, last := s[..|s| - 1], s[|s| - 1];
      DistinctFront(s);
      SetOfDistinct(front);
      assert s == front + [last];
      assert (set x | x in s) == (set x | x in front) + {last};
    } else {
      assert (set x | x in s) == {};
    }
  }

  /**
    Seven instruments are open at 8:03 and every probe of the morning was answered as
    asked, yet the one opened last is not observed.
   */
  lemma StarvedMorning()
    ensures OrderlyDay(Morning(4)) && forall k :: 0 <= k < 4 ==> AnswersAsked(AfterSlots(Morning(k)), MorningSlot(k))
    ensures forall k, x :: 0 <= k < 3 && x in SymbolsOf(k) ==> x in ProbeIds(Targets(AfterSlots(Morning(3)), TimeOf(3)))
    ensures var c := Candidate("TSLA", TimeOf(2));
            && c.id in AfterSlots(Morning(3)) && !HasClose(AfterSlots(Morning(3))[c.id])
            && c.id in AfterSlots(Morning(4)) && AfterSlots(Morning(4))[c.id] == [c]
  {
    hide Morning, AfterSlots, AfterSlot, Candidate, HasClose, SaneDay;
    hide OrderlyDay, Faithful, AnswersAsked, ProbeIds, Targets, Asked, MorningSlot;
    MorningIsOrderly(4);
    forall k | 0 <= k < 4 ensures AnswersAsked(AfterSlots(Morning(k)), MorningSlot(k)) {
      MorningSlotIs(k);
    }
    forall k, x | 0 <= k < 3 && x in SymbolsOf(k) ensures x in ProbeIds(Targets(AfterSlots(Morning(3)), TimeOf(3))) {
      SymbolStaysOpen(k, x);
    }
    SymbolStaysOpen(2, "TSLA");
    SymbolOpens(2, "TSLA");
    LastIsBehind();
    MorningStep(4);
    MorningIsSane(3);
    MorningSlotIs(3);
    OnlyAsked(AfterSlots(Morning(3)), MorningSlot(3));
    hide AnswersOnlyAsked, Ahead, SymbolsOf;
    Starved(AfterSlots(Morning(3)), MorningSlot(3), Candidate("TSLA", TimeOf(2)).id);
  }

  lemma OnlyAsked(g: Groups, s: Sample)
    requires AnswersAsked(g, s)
    ensures AnswersOnlyAsked(g, s)
  {
    hide Asked, ProbeIds, Targets;
  }

  lemma SixDistinct()
    ensures Distinct(SymbolsOf(0) + SymbolsOf(1)) && |SymbolsOf(0) + SymbolsOf(1)| == 6
  {
    var six := SymbolsOf(0) + SymbolsOf(1);
    SymbolsAreDistinct(0);
    SymbolsAreDistinct(1);
    assert |SymbolsOf(0)| == 3 && |SymbolsOf(1)| == 3;
    hide SymbolsOf;
    forall i, j | 0 <= i < j < |six| ensures six[i] != six[j] {
      if i < 3 <= j {
        Initials(0, six[i]);
        Initials(1, six[j]);
      }
    }
  }

  lemma LastIsBehind()
    ensures MAX_PROBE_INSTRUMENTS <= Ahead(AfterSlots(Morning(3)), TimeOf(3), Candidate("TSLA", TimeOf(2)))
  {
    CandidateFacts("TSLA", TimeOf(2));
    var six := SymbolsOf(0) + SymbolsOf(1);
    SixDistinct();
    hide Morning, AfterSlots, Candidate, ProbeIds, Targets, HasClose;
    forall x | x in six ensures x in ProbeIds(Targets(AfterSlots(Morning(3)), TimeOf(3))) && Precedes(x, "TSLA") {
      var k := if x in SymbolsOf(0) then 0 else 1;
      Initials(k, x);
      SymbolStaysOpen(k, x);
    }
    SetOfDistinct(six);
    SubsetSize((set x | x in six), Before(ProbeIds(Targets(AfterSlots(Morning(3)), TimeOf(3))), "TSLA"));
  }
}
