/** What every day of pilot slots keeps, and when a trajectory can be closed. */
module TrajectoryDay {
  import opened Common
  import opened Ordering
  import opened Trajectory
  import opened TrajectoryEvidence

  /** `e` observes the trajectory that `c` began. */
  predicate Belongs(id: TrajectoryId, c: Event, e: Event) {
    && e.id == id && e.decisionTime == c.decisionTime && e.instrumentId == c.instrumentId && e.underlying == c.underlying
    && c.decisionTime <= e.receivedAt
  }

  /** A candidate's limit is its ask, and its fill window lasts 60 seconds. */
  predicate CandidateTerms(c: Event) {
    c.limit == c.ask && c.deadline == Some(c.receivedAt + FILL_WINDOW)
  }

  /** The shape of a recorded trajectory. */
  ghost predicate Sane(id: TrajectoryId, events: seq<Event>) {
    && events != [] && OpensDay(events[0]) && events[0].horizonMinutes == Some(TARGET_HORIZON_MINUTES) && events[0].instrumentId != ""
    && id.symbol == events[0].underlying && HorizonIsObservable(events[0].decisionTime) && CandidateTerms(events[0])
    && (forall i :: 0 <= i < |events| ==> Belongs(id, events[0], events[i]))
    && (forall i :: 1 <= i < |events| ==> events[i].kind != CANDIDATE)
    && (forall i :: 0 <= i < |events| && events[i].kind == HORIZON_CLOSE ==>
          i == |events| - 1 && HorizonAt(events[0]) <= events[i].receivedAt)
    && (forall i, j :: 0 <= i < j < |events| ==> !SameFile(events[i], events[j]))
  }

  /** Two events of one trajectory that would be stored under one name. */
  predicate SameFile(a: Event, b: Event) {
    a.kind == b.kind && a.receivedAt == b.receivedAt
  }

  /** All trajectories of a day are sane, began by `now`, and no two share a symbol. */
  ghost predicate SaneDay(g: Groups, now: int) {
    && (forall id :: id in g ==> Sane(id, g[id]) && g[id][0].decisionTime <= now)
    && (forall a, b :: a in g && b in g && a.symbol == b.symbol ==> a == b)
  }

  /** What a slot can count on: receipts follow the slot's start, and a symbol's chain is its own. */
  ghost predicate Faithful(s: Sample) {
    && (s.refresh.Some? ==> s.now <= s.refresh.value.receivedAt)
    && (forall x :: x in s.snapshots ==> s.now <= s.snapshots[x].receivedAt && OwnChain(s.snapshots[x], x))
    && (forall x :: x in s.windows ==> s.now <= s.windows[x].receivedAt)
    && Distinct(s.qualified)
  }

  predicate OwnChain(snap: ChainSnapshot, symbol: string) {
    symbol != "" && forall i :: i in snap.instruments ==> i.chainSymbol == Some(symbol)
  }

  // ----------------------------------------------------------------- writing

  lemma {:induction false} UpsertAppendsOrReplaces(events: seq<Event>, e: Event)
    ensures var r := Upsert(events, e);
            || (r == events + [e] && forall k :: 0 <= k < |events| ==> !SameFile(events[k], e))
            || exists k :: 0 <= k < |events| && SameFile(events[k], e) && r == events[k := e]
  {
    if events != [] && !SameFile(events[0], e) {
      UpsertAppendsOrReplaces(events[1..], e);
      var rest := Upsert(events[1..], e);
      hide SameFile;
      if k :| 0 <= k < |events[1..]| && SameFile(events[1..][k], e) && rest == events[1..][k := e] {
        assert SameFile(events[k + 1], e) && [events[0]] + rest == events[k + 1 := e];
      } else {
        forall k | 0 <= k < |events| ensures !SameFile(events[k], e) {
          if k > 0 { assert events[k] == events[1..][k - 1]; }
        }
      }
    }
  }

  /** Observing an open trajectory keeps it sane, and a close becomes its last event. */
  lemma ObservedIsSane(id: TrajectoryId, events: seq<Event>, e: Event)
    requires Sane(id, events) && !HasClose(events) && Belongs(id, events[0], e) && e.kind != CANDIDATE
    requires e.kind == HORIZON_CLOSE ==> HorizonAt(events[0]) <= e.receivedAt
    ensures Sane(id, Upsert(events, e)) && Upsert(events, e)[0] == events[0]
    ensures HasClose(Upsert(events, e)) <==> e.kind == HORIZON_CLOSE
  {
    UpsertAppendsOrReplaces(events, e);
    hide Belongs, HorizonAt, HorizonIsObservable;
    var r := Upsert(events, e);
    hide Upsert;
    if k :| 0 <= k < |events| && SameFile(events[k], e) && r == events[k := e] {
      assert e.kind != HORIZON_CLOSE && k != 0;
      forall i, j | 0 <= i < j < |r| ensures !SameFile(r[i], r[j]) {
        assert !SameFile(events[i], events[j]);
      }
    } else {
      assert r == events + [e];
      assert e.kind == HORIZON_CLOSE ==> r[|events|].kind == HORIZON_CLOSE;
    }
  }

  // ----------------------------------------------------------------- refresh

  lemma SaneTarget(id: TrajectoryId, events: seq<Event>, now: int)
    requires Sane(id, events)
    ensures TargetOf(events, now) == if HasClose(events) then None
                                     else Some(Target(events[0], if HorizonAt(events[0]) <= now then HORIZON_CLOSE else QUOTE))
  {
    assert FirstCandidate(events) == Some(events[0]);
    hide FirstCandidate, HorizonAt;
  }

  /** One refresh of a sane trajectory. */
  lemma RefreshedIsSane(id: TrajectoryId, events: seq<Event>, now: int, probe: Probe)
    requires Sane(id, events) && events != [] && events[0].decisionTime <= now <= probe.receivedAt
    ensures var r := RefreshOne(events, TargetOf(events, now), probe);
            && Sane(id, r) && r[0] == events[0]
            && (HasClose(events) ==> r == events)
            && (!HasClose(events) ==>
                  (HasClose(r) <==> HorizonAt(events[0]) <= now && events[0].instrumentId in probe.quotes))
  {
    SaneTarget(id, events, now);
    hide TargetOf, Sane;
    if !HasClose(events) {
      SaneCandidate(id, events);
      hide HasClose, Upsert, HorizonAt;
      var target := TargetOf(events, now).value;
      var e := Observation(target, probe);
      if e.Some? {
        ObservedIsSane(id, events, e.value);
      }
    }
  }

  lemma SaneCandidate(id: TrajectoryId, events: seq<Event>)
    requires Sane(id, events)
    ensures events != [] && events[0].id == id
  {
    assert Belongs(id, events[0], events[0]);
  }

  lemma RefreshKeepsDay(g: Groups, s: Sample)
    requires SaneDay(g, s.now) && Faithful(s)
    ensures var r := Refreshed(g, s.now, s.refresh);
            && r.Keys == g.Keys && SaneDay(r, s.now) && forall id :: id in g ==> r[id] != [] && r[id][0] == g[id][0]
  {
    var r := Refreshed(g, s.now, s.refresh);
    hide RefreshOne, TargetOf, Sane, HasClose, HorizonAt;
    forall id | id in g ensures g[id] != [] && r[id] != [] && Sane(id, r[id]) && r[id][0] == g[id][0] {
      if s.refresh.Some? {
        SaneCandidate(id, g[id]);
        RefreshedIsSane(id, g[id], s.now, s.refresh.value);
        SaneCandidate(id, r[id]);
      } else {
        SaneCandidate(id, g[id]);
      }
    }
    hide Refreshed, Faithful;
  }

  // ----------------------------------------------------------------- opening

  /** What a new candidate looks like. */
  lemma OpeningFacts(s: Sample, symbol: string)
    requires Faithful(s) && Opening(s, symbol).Some?
    ensures var e := Opening(s, symbol).value;
            && OpensDay(e) && e.decisionTime == s.now <= e.receivedAt && e.horizonMinutes == Some(TARGET_HORIZON_MINUTES)
            && e.instrumentId != "" && e.underlying == symbol == e.id.symbol && e.labels != [] && CandidateTerms(e)
  {
    var snap := s.snapshots[symbol];
    var k := NearestIndex(snap.instruments, snap.quotes, snap.price.value, s.reports[symbol].right.value).value;
    assert snap.instruments[k] in snap.instruments;
    hide IsNearest, NearestIndex, LabelsFor;
  }

  /** The contract opened is on the signal's own side, has an observed ask, and no other is nearer. */
  lemma OpenedIsNearest(s: Sample, symbol: string)
    requires Opening(s, symbol).Some?
    ensures symbol in s.reports && s.reports[symbol].right.Some? && symbol in s.snapshots && s.snapshots[symbol].price.Some?
    ensures var e, snap, right := Opening(s, symbol).value, s.snapshots[symbol], s.reports[symbol].right.value;
            && e.right == Some(right) && e.ask.Some? && e.strike.Some?
            && forall i :: i in snap.instruments && Selectable(i, snap.quotes, right) ==>
                 Gap(e.strike.value, snap.price.value) <= Gap(i.strike.value, snap.price.value)
  {
    hide LabelsFor, Gap;
  }

  lemma NewTrajectory(s: Sample, symbol: string)
    requires Faithful(s) && Opening(s, symbol).Some? && HorizonIsObservable(s.now)
    ensures var e := Opening(s, symbol).value;
            && Sane(e.id, [e])
            && (WindowQuote(s, symbol, e).Some? ==> Sane(e.id, Upsert([e], WindowQuote(s, symbol, e).value)))
  {
    OpeningFacts(s, symbol);
    var e := Opening(s, symbol).value;
    hide Opening, HorizonIsObservable, Upsert;
    var quote := WindowQuote(s, symbol, e);
    if quote.Some? {
      ObservedIsSane(e.id, [e], quote.value);
    }
  }

  lemma OpenOneAdds(g: Groups, s: Sample, symbol: string)
    requires SaneDay(g, s.now) && Faithful(s) && HorizonIsObservable(s.now)
    requires forall id :: id in g ==> id.symbol != symbol
    ensures SaneDay(OpenOne(g, s, symbol), s.now)
    ensures var r := OpenOne(g, s, symbol);
            && g.Keys <= r.Keys && (forall id :: id in g ==> r[id] == g[id])
            && (forall id :: id in r && id !in g ==> id.symbol == symbol)
  {
    hide Opening, Sane, WindowQuote, Faithful, HorizonIsObservable, Upsert, Write;
    if Opening(s, symbol).Some? {
      OpeningFacts(s, symbol);
      NewTrajectory(s, symbol);
      var e := Opening(s, symbol).value;
      var quote := WindowQuote(s, symbol, e);
      QuoteIsOwn(s, symbol, e);
      WrittenTwice(g, e, quote);
      FirstStays(e, quote);
    }
  }

  lemma QuoteIsOwn(s: Sample, symbol: string, e: Event)
    ensures var q := WindowQuote(s, symbol, e); q.Some? ==> q.value.id == e.id && q.value.kind == QUOTE
  {
  }

  /** A candidate and its window quote land in one new group. */
  lemma WrittenTwice(g: Groups, e: Event, quote: Option<Event>)
    requires e.id !in g && (quote.Some? ==> quote.value.id == e.id)
    ensures var r := if quote.Some? then Write(Write(g, e), quote.value) else Write(g, e);
            && r.Keys == g.Keys + {e.id} && (forall id :: id in g ==> r[id] == g[id])
            && r[e.id] == if quote.Some? then Upsert([e], quote.value) else [e]
  {
    assert EventsOf(g, e.id) == [] && Upsert([], e) == [e];
    assert EventsOf(Write(g, e), e.id) == [e];
    hide Upsert;
  }

  lemma FirstStays(e: Event, quote: Option<Event>)
    requires quote.Some? ==> quote.value.kind != e.kind
    ensures quote.Some? ==> Upsert([e], quote.value) != [] && Upsert([e], quote.value)[0] == e
  {
  }

  /** Distinct symbols open distinct trajectories, at most one each. */
  lemma {:induction false} OpenAllAdds(g: Groups, s: Sample, symbols: seq<string>)
    requires SaneDay(g, s.now) && Faithful(s) && HorizonIsObservable(s.now)
    requires forall id :: id in g ==> id.symbol !in symbols
    requires Distinct(symbols)
    ensures var r := OpenAll(g, s, symbols);
            && SaneDay(r, s.now) && g.Keys <= r.Keys && (forall id :: id in g ==> r[id] == g[id])
            && (forall id :: id in r && id !in g ==> id.symbol in symbols)
  {
    hide SaneDay, Faithful, HorizonIsObservable, OpenOne, Distinct;
    if symbols != [] {
      var front, last := symbols[..|symbols| - 1], symbols[|symbols| - 1];
      DistinctFront(symbols);
      OpenAllAdds(g, s, front);
      OpenOneAdds(OpenAll(g, s, front), s, last);
    }
  }

  // ------------------------------------------------------------- one slot

  ghost predicate Distinct(s: seq<string>) {
    forall i, j :: 0 <= i < j < |s| ==> s[i] != s[j]
  }

  lemma DistinctAppend(s: seq<string>, x: string)
    ensures Distinct(s + [x]) <==> Distinct(s) && x !in s
  {
    if Distinct(s + [x]) {
      forall i | 0 <= i < |s| ensures s[i] != x {
        assert (s + [x])[i] != (s + [x])[|s|];
      }
      forall i, j | 0 <= i < j < |s| ensures s[i] != s[j] {
        assert (s + [x])[i] != (s + [x])[j];
      }
    }
  }

  lemma DistinctFront(s: seq<string>)
    requires s != [] && Distinct(s)
    ensures Distinct(s[..|s| - 1]) && s[|s| - 1] !in s[..|s| - 1]
  {
    assert s == s[..|s| - 1] + [s[|s| - 1]];
    DistinctAppend(s[..|s| - 1], s[|s| - 1]);
  }

  lemma {:induction false} WithoutDistinct(s: seq<string>, taken: set<string>)
    requires Distinct(s)
    ensures Distinct(Without(s, taken))
  {
    hide Distinct;
    if s != [] {
      DistinctFront(s);
      WithoutDistinct(s[..|s| - 1], taken);
      DistinctAppend(Without(s[..|s| - 1], taken), s[|s| - 1]);
    } else {
      EmptyDistinct();
    }
  }

  lemma EmptyDistinct()
    ensures Distinct([])
  {
  }

  lemma {:induction false} InsertDistinct(s: Sample, sorted: seq<string>, x: string)
    requires x !in sorted && Distinct(sorted)
    ensures Distinct(InsertByRatio(s, sorted, x))
  {
    hide Ratio, Distinct;
    DistinctAppend(sorted, x);
    if sorted != [] && !(Ratio(s, x) <= Ratio(s, sorted[|sorted| - 1])) {
      var front, last := sorted[..|sorted| - 1], sorted[|sorted| - 1];
      DistinctFront(sorted);
      InsertDistinct(s, front, x);
      DistinctAppend(InsertByRatio(s, front, x), last);
    }
  }

  lemma {:induction false} ByRatioDistinct(s: Sample, symbols: seq<string>)
    requires Distinct(symbols)
    ensures Distinct(ByRatio(s, symbols))
  {
    hide Distinct, InsertByRatio;
    if symbols != [] {
      var front, last := symbols[..|symbols| - 1], symbols[|symbols| - 1];
      DistinctFront(symbols);
      ByRatioDistinct(s, front);
      InsertDistinct(s, ByRatio(s, front), last);
    } else {
      EmptyDistinct();
    }
  }

  lemma SelectedDistinct(g: Groups, s: Sample)
    requires Faithful(s)
    ensures Distinct(Selected(g, s))
  {
    WithoutDistinct(s.qualified, OpenSymbols(g));
    ByRatioDistinct(s, Without(s.qualified, OpenSymbols(g)));
    hide ByRatio, OpenSymbols, Without;
  }

  ghost predicate Descending(s: Sample, symbols: seq<string>) {
    forall i, j :: 0 <= i < j < |symbols| ==> Ratio(s, symbols[j]) <= Ratio(s, symbols[i])
  }

  lemma {:induction false} InsertDescending(s: Sample, sorted: seq<string>, x: string)
    requires Descending(s, sorted)
    ensures Descending(s, InsertByRatio(s, sorted, x))
  {
    hide Ratio;
    if sorted != [] && !(Ratio(s, x) <= Ratio(s, sorted[|sorted| - 1])) {
      var front, last := sorted[..|sorted| - 1], sorted[|sorted| - 1];
      InsertDescending(s, front, x);
      var r := InsertByRatio(s, front, x);
      forall i | 0 <= i < |r| ensures Ratio(s, last) <= Ratio(s, r[i]) {
        assert r[i] in r;
        if r[i] != x {
          var k :| 0 <= k < |front| && front[k] == r[i];
          assert sorted[k] == r[i];
        }
      }
    }
  }

  lemma {:induction false} ByRatioDescending(s: Sample, symbols: seq<string>)
    ensures Descending(s, ByRatio(s, symbols))
  {
    hide Ratio;
    if symbols != [] {
      ByRatioDescending(s, symbols[..|symbols| - 1]);
      InsertDescending(s, ByRatio(s, symbols[..|symbols| - 1]), symbols[|symbols| - 1]);
    }
  }

  /** A slot tries the strongest signals: none it leaves out had a higher volume ratio, and it leaves none out below the cap. */
  lemma SelectedAreStrongest(g: Groups, s: Sample, x: string, y: string)
    requires x in Selected(g, s) && y in s.qualified && y !in OpenSymbols(g) && y !in Selected(g, s)
    ensures Ratio(s, y) <= Ratio(s, x) && |Selected(g, s)| == MAX_CANDIDATES_PER_SLOT
  {
    var all := ByRatio(s, Without(s.qualified, OpenSymbols(g)));
    ByRatioDescending(s, Without(s.qualified, OpenSymbols(g)));
    hide ByRatio, Without, OpenSymbols, Ratio;
    var j :| 0 <= j < |all| && all[j] == y;
    var i :| 0 <= i < |Selected(g, s)| && Selected(g, s)[i] == x;
    assert all[i] == x && i < MAX_CANDIDATES_PER_SLOT <= j;
  }

  /** A label is recorded exactly when the registry has it with a threshold the ratio clears. */
  lemma {:induction false} LabelsIff(registry: seq<(string, real)>, ratio: real, name: string)
    ensures name in Labels(registry, ratio) <==> exists i :: 0 <= i < |registry| && registry[i].0 == name && registry[i].1 <= ratio
  {
    if registry != [] {
      LabelsIff(registry[..|registry| - 1], ratio, name);
    }
  }

  lemma OpenSymbolsOfDay(g: Groups, now: int, id: TrajectoryId)
    requires SaneDay(g, now) && id in g
    ensures id.symbol in OpenSymbols(g)
  {
    assert OpensDay(g[id][0]) && g[id][0].underlying == id.symbol;
  }

  /** The trajectories that a slot opens. */
  ghost function OpenedBy(g: Groups, s: Sample): set<TrajectoryId> {
    set id | id in AfterSlot(g, s) && id !in g
  }

  /** A slot opens at most three, each on a symbol not open that day, and keeps the day sane. */
  lemma SlotKeepsDay(g: Groups, s: Sample)
    requires SaneDay(g, s.now) && Faithful(s)
    ensures SaneDay(AfterSlot(g, s), s.now) && g.Keys <= AfterSlot(g, s).Keys
    ensures forall id :: id in OpenedBy(g, s) ==>
              id.symbol in s.qualified && AfterSlot(g, s)[id] != [] && AfterSlot(g, s)[id][0].decisionTime <= s.now
    ensures |OpenedBy(g, s)| <= MAX_CANDIDATES_PER_SLOT
  {
    RefreshKeepsDay(g, s);
    var r := Refreshed(g, s.now, s.refresh);
    hide Refreshed, Faithful;
    if s.evaluated && Opens(s) {
      var symbols := Selected(g, s);
      SelectedDistinct(g, s);
      forall id | id in r ensures id.symbol !in symbols {
        OpenSymbolsOfDay(g, s.now, id);
      }
      OpenAllAdds(r, s, symbols);
      hide OpenAll, Selected, HorizonIsObservable, OpenSymbols;
      OnePerSymbol(OpenedBy(g, s), symbols, AfterSlot(g, s), s.now);
      hide Sane;
    } else {
      assert OpenedBy(g, s) == {};
      hide Sane;
    }
  }

  // ------------------------------------------------------ what a slot opens

  /** The events of a trajectory newly opened on `symbol`. */
  ghost function NewEvents(s: Sample, symbol: string): seq<Event>
    requires Opening(s, symbol).Some?
  {
    var e := Opening(s, symbol).value;
    var quote := WindowQuote(s, symbol, e);
    if quote.None? then [e] else Upsert([e], quote.value)
  }

  /** A new trajectory is a candidate read off the symbol's chain, and the window probe's quote if that answered. */
  ghost predicate ReadsOpening(events: seq<Event>, s: Sample, symbol: string) {
    && events != [] && OpensFrom(events[0], s, symbol)
    && if symbol in s.windows && events[0].instrumentId in s.windows[symbol].quotes
       then |events| == 2 && events[1].kind == QUOTE && Observes(events[1], events[0], s.windows[symbol])
       else |events| == 1
  }

  ghost predicate OpensFrom(e: Event, s: Sample, symbol: string) {
    symbol in s.snapshots && Labelled(e, s, symbol) && exists i :: OpensOn(e, s, symbol, i)
  }

  lemma NewEventsAreRead(s: Sample, symbol: string)
    requires Opening(s, symbol).Some?
    ensures ReadsOpening(NewEvents(s, symbol), s, symbol)
  {
    hide Opening, OpensOn, Labelled, Observes, WindowQuote;
    var i := OpeningIsRead(s, symbol);
    OpeningIsCandidate(s, symbol);
    WindowQuoteIsRead(s, symbol, Opening(s, symbol).value);
  }

  lemma OpeningIsCandidate(s: Sample, symbol: string)
    requires Opening(s, symbol).Some?
    ensures Opening(s, symbol).value.kind == CANDIDATE
  {
    hide NearestIndex, LabelsFor;
  }

  lemma OpenOneIs(g: Groups, s: Sample, symbol: string)
    requires Faithful(s) && forall id :: id in g ==> id.symbol != symbol
    ensures Opening(s, symbol).None? ==> OpenOne(g, s, symbol) == g
    ensures Opening(s, symbol).Some? ==>
              var r, id := OpenOne(g, s, symbol), Opening(s, symbol).value.id;
              && r.Keys == g.Keys + {id} && id.symbol == symbol && r[id] == NewEvents(s, symbol)
              && forall other :: other in g ==> r[other] == g[other]
  {
    hide Opening, WindowQuote, Faithful, Upsert, Write;
    if Opening(s, symbol).Some? {
      OpeningFacts(s, symbol);
      var e := Opening(s, symbol).value;
      QuoteIsOwn(s, symbol, e);
      WrittenTwice(g, e, WindowQuote(s, symbol, e));
    }
  }

  /** Opening distinct symbols adds exactly the trajectories their chains call for. */
  lemma {:induction false} OpenAllIff(g: Groups, s: Sample, symbols: seq<string>, id: TrajectoryId)
    requires SaneDay(g, s.now) && Faithful(s) && HorizonIsObservable(s.now) && Distinct(symbols) && id !in g
    requires forall other :: other in g ==> other.symbol !in symbols
    ensures id in OpenAll(g, s, symbols) <==> id.symbol in symbols && Opening(s, id.symbol).Some? && Opening(s, id.symbol).value.id == id
    ensures id in OpenAll(g, s, symbols) ==> OpenAll(g, s, symbols)[id] == NewEvents(s, id.symbol)
  {
    hide SaneDay, Faithful, HorizonIsObservable, OpenOne, Distinct, Opening, NewEvents;
    if symbols != [] {
      var front, last := symbols[..|symbols| - 1], symbols[|symbols| - 1];
      DistinctFront(symbols);
      OpenAllAdds(g, s, front);
      OpenAllIff(g, s, front, id);
      OpenOneIs(OpenAll(g, s, front), s, last);
      assert symbols == front + [last];
    }
  }

  /** A slot opens exactly the trajectories that its selected symbols' chains call for. */
  lemma OpenedIff(g: Groups, s: Sample, id: TrajectoryId)
    requires SaneDay(g, s.now) && Faithful(s)
    ensures id in OpenedBy(g, s) <==>
              && id !in g && s.evaluated && Opens(s) && id.symbol in Selected(g, s)
              && Opening(s, id.symbol).Some? && Opening(s, id.symbol).value.id == id
    ensures id in OpenedBy(g, s) ==> Opening(s, id.symbol).Some? && AfterSlot(g, s)[id] == NewEvents(s, id.symbol)
    ensures id in OpenedBy(g, s) ==> ReadsOpening(AfterSlot(g, s)[id], s, id.symbol)
  {
    RefreshKeepsDay(g, s);
    var r := Refreshed(g, s.now, s.refresh);
    if Opening(s, id.symbol).Some? {
      NewEventsAreRead(s, id.symbol);
    }
    if s.evaluated && Opens(s) && id !in g {
      SelectedDistinct(g, s);
      hide Refreshed, Faithful, HorizonIsObservable;
      forall other | other in r ensures other.symbol !in Selected(g, s) {
        OpenSymbolsOfDay(g, s.now, other);
      }
      OpenAllIff(r, s, Selected(g, s), id);
    }
    hide Refreshed, OpenAll, Selected, OpenSymbols, HorizonIsObservable, Opening, NewEvents, SaneDay, Faithful, ReadsOpening;
  }

  /** Within the cap every qualified symbol not open yet is tried. */
  lemma SelectedAll(g: Groups, s: Sample, x: string)
    requires |s.qualified| <= MAX_CANDIDATES_PER_SLOT
    ensures x in Selected(g, s) <==> x in s.qualified && x !in OpenSymbols(g)
  {
    WithoutIsShorter(s.qualified, OpenSymbols(g));
    hide Without, OpenSymbols, ByRatio;
  }

  lemma {:induction false} WithoutIsShorter(symbols: seq<string>, taken: set<string>)
    ensures |Without(symbols, taken)| <= |symbols|
  {
    if symbols != [] {
      WithoutIsShorter(symbols[..|symbols| - 1], taken);
    }
  }

  /** With no two of them on one symbol, trajectories are no more than their symbols. */
  lemma {:induction false} OnePerSymbol(ids: set<TrajectoryId>, symbols: seq<string>, g: Groups, now: int)
    requires SaneDay(g, now) && ids <= g.Keys && forall id :: id in ids ==> id.symbol in symbols
    ensures |ids| <= |symbols|
  {
    if symbols == [] {
      assert forall id :: id !in ids;
    } else {
      var n := |symbols| - 1;
      var others := set id | id in ids && id.symbol != symbols[n];
      hide Sane;
      forall id | id in others ensures id.symbol in symbols[..n] {
        InFront(symbols, id.symbol);
      }
      hide SaneDay;
      OnePerSymbol(others, symbols[..n], g, now);
      OneMore(ids, others, symbols[n], g, now);
    }
  }

  lemma InFront(symbols: seq<string>, x: string)
    requires x in symbols && x != symbols[|symbols| - 1]
    ensures x in symbols[..|symbols| - 1]
  {
  }

  lemma OneMore(ids: set<TrajectoryId>, others: set<TrajectoryId>, symbol: string, g: Groups, now: int)
    requires SaneDay(g, now) && ids <= g.Keys && others == set id | id in ids && id.symbol != symbol
    ensures |ids| <= |others| + 1
  {
    hide Sane;
    if id :| id in ids && id.symbol == symbol {
      assert ids == others + {id};
    } else {
      assert ids == others;
    }
  }

  // ---------------------------------------------------------- days of slots

  ghost predicate OrderlyDay(slots: seq<Sample>) {
    && (forall i :: 0 <= i < |slots| ==> Faithful(slots[i]))
    && (forall i, j :: 0 <= i < j < |slots| ==> slots[i].now <= slots[j].now)
  }

  ghost function AfterSlots(slots: seq<Sample>): Groups {
    if slots == [] then map[] else AfterSlot(AfterSlots(slots[..|slots| - 1]), slots[|slots| - 1])
  }

  /**
    Over any day of slots, each trajectory has one candidate, observable at its
    horizon, and at most one close, which is its last event and no earlier than the
    horizon; no two trajectories share a symbol.
   */
  lemma {:induction false} DaysAreSane(slots: seq<Sample>, now: int)
    requires OrderlyDay(slots) && forall i :: 0 <= i < |slots| ==> slots[i].now <= now
    ensures SaneDay(AfterSlots(slots), now)
  {
    if slots != [] {
      var front, last := slots[..|slots| - 1], slots[|slots| - 1];
      hide AfterSlot, Faithful, SaneDay;
      DaysAreSane(front, last.now);
      SlotKeepsDay(AfterSlots(front), last);
      LaterDay(AfterSlots(slots), last.now, now);
    } else {
      EmptyDay(now);
    }
  }

  lemma LaterDay(g: Groups, now: int, later: int)
    requires SaneDay(g, now) && now <= later
    ensures SaneDay(g, later)
  {
    hide Sane;
  }

  lemma EmptyDay(now: int)
    ensures SaneDay(map[], now)
  {
  }

  /** What becomes of an existing trajectory in a slot. */
  lemma SlotOnTrajectory(g: Groups, s: Sample, id: TrajectoryId)
    requires SaneDay(g, s.now) && Faithful(s) && id in g
    ensures id in AfterSlot(g, s)
    ensures AfterSlot(g, s)[id] == if s.evaluated && s.refresh.Some?
                                   then RefreshOne(g[id], TargetOf(g[id], s.now), s.refresh.value)
                                   else g[id]
  {
    RefreshKeepsDay(g, s);
    if s.evaluated && Opens(s) {
      var r, symbols := Refreshed(g, s.now, s.refresh), Selected(g, s);
      SelectedDistinct(g, s);
      forall other | other in r ensures other.symbol !in symbols {
        OpenSymbolsOfDay(g, s.now, other);
      }
      hide Refreshed;
      OpenAllAdds(r, s, symbols);
    }
    hide OpenAll, Selected, HorizonIsObservable, RefreshOne, TargetOf, SaneDay, Faithful;
  }

  /** Nothing is ever recorded after the close. */
  lemma ClosedIsFinal(g: Groups, s: Sample, id: TrajectoryId)
    requires SaneDay(g, s.now) && Faithful(s) && id in g && HasClose(g[id])
    ensures id in AfterSlot(g, s) && AfterSlot(g, s)[id] == g[id]
  {
    SlotOnTrajectory(g, s, id);
    SaneTarget(id, g[id], s.now);
    hide AfterSlot, SaneDay, Faithful, TargetOf;
  }

  /** The slot's refresh was answered with the candidate's own quote. */
  predicate Answers(c: Event, s: Sample) {
    s.evaluated && s.refresh.Some? && c.instrumentId in s.refresh.value.quotes
  }

  /** What is then recorded. */
  function Observed(c: Event, s: Sample): Event
    requires Answers(c, s)
  {
    var probe := s.refresh.value;
    ObservationEvent(if HorizonAt(c) <= s.now then HORIZON_CLOSE else QUOTE, c, probe.quotes[c.instrumentId], probe.receivedAt, probe.source)
  }

  lemma ObservedIsRead(c: Event, s: Sample)
    requires Answers(c, s) && c.horizonMinutes == Some(TARGET_HORIZON_MINUTES)
    ensures Observes(Observed(c, s), c, s.refresh.value)
    ensures Observed(c, s).kind == if c.decisionTime + 3_600_000_000 <= s.now then HORIZON_CLOSE else QUOTE
  {
  }

  /** A slot records the quote it was answered with on every open trajectory, and nothing else. */
  lemma ObservedIff(g: Groups, s: Sample, id: TrajectoryId)
    requires SaneDay(g, s.now) && Faithful(s) && id in g && !HasClose(g[id])
    ensures id in AfterSlot(g, s)
    ensures AfterSlot(g, s)[id] == if Answers(g[id][0], s) then Upsert(g[id], Observed(g[id][0], s)) else g[id]
    ensures Answers(g[id][0], s) ==>
              && Observes(Observed(g[id][0], s), g[id][0], s.refresh.value)
              && Observed(g[id][0], s).kind == if g[id][0].decisionTime + 3_600_000_000 <= s.now then HORIZON_CLOSE else QUOTE
  {
    SlotOnTrajectory(g, s, id);
    SaneTarget(id, g[id], s.now);
    if Answers(g[id][0], s) {
      ObservedIsRead(g[id][0], s);
    }
    hide AfterSlot, Faithful, TargetOf, HasClose, HorizonAt, Upsert, Sane, ObservationEvent;
  }

  /** The slot read the event: off the chain it opened on, off the window probe right after, or off a refresh. */
  ghost predicate ReadBy(s: Sample, c: Event, e: Event) {
    || (e == c && OpensFrom(e, s, c.id.symbol))
    || (c.decisionTime == s.now && c.id.symbol in s.windows && e.kind == QUOTE && Observes(e, c, s.windows[c.id.symbol]))
    || ReadByRefresh(s, c, e)
  }

  predicate ReadByRefresh(s: Sample, c: Event, e: Event) {
    && s.evaluated && s.refresh.Some? && Observes(e, c, s.refresh.value)
    && e.kind == if c.decisionTime + 3_600_000_000 <= s.now then HORIZON_CLOSE else QUOTE
  }

  ghost predicate AllRead(slots: seq<Sample>, events: seq<Event>) {
    events != [] && forall k :: 0 <= k < |events| ==> ReadInDay(slots, events[0], events[k])
  }

  ghost predicate ReadInDay(slots: seq<Sample>, c: Event, e: Event) {
    exists j :: 0 <= j < |slots| && ReadBy(slots[j], c, e)
  }

  lemma ReadLonger(slots: seq<Sample>, c: Event, e: Event)
    requires slots != []
    ensures ReadInDay(slots, c, e) <==> ReadInDay(slots[..|slots| - 1], c, e) || ReadBy(slots[|slots| - 1], c, e)
  {
    hide ReadBy;
    var front := slots[..|slots| - 1];
    assert forall j :: 0 <= j < |front| ==> front[j] == slots[j];
    if j :| 0 <= j < |front| && ReadBy(front[j], c, e) {
      assert ReadBy(slots[j], c, e);
    }
  }

  lemma AllReadLonger(slots: seq<Sample>, events: seq<Event>)
    requires slots != [] && AllRead(slots[..|slots| - 1], events)
    ensures AllRead(slots, events)
  {
    hide ReadInDay;
    forall k | 0 <= k < |events| ensures ReadInDay(slots, events[0], events[k]) {
      ReadLonger(slots, events[0], events[k]);
    }
  }

  /** One more event, read by the newest slot. */
  lemma AllReadUpsert(slots: seq<Sample>, events: seq<Event>, e: Event)
    requires slots != [] && AllRead(slots[..|slots| - 1], events) && ReadByRefresh(slots[|slots| - 1], events[0], e) && e.kind != events[0].kind
    ensures AllRead(slots, Upsert(events, e))
  {
    hide ReadInDay, ReadByRefresh, ReadBy;
    AllReadLonger(slots, events);
    UpsertAppendsOrReplaces(events, e);
    RefreshReads(slots[|slots| - 1], events[0], e);
    ReadLonger(slots, events[0], e);
    var r := Upsert(events, e);
    hide Upsert;
    if k :| 0 <= k < |events| && SameFile(events[k], e) && r == events[k := e] {
      assert k != 0;
    }
  }

  lemma RefreshReads(s: Sample, c: Event, e: Event)
    requires ReadByRefresh(s, c, e)
    ensures ReadBy(s, c, e)
  {
  }

  lemma OpeningReads(slots: seq<Sample>, events: seq<Event>, symbol: string)
    requires slots != [] && ReadsOpening(events, slots[|slots| - 1], symbol) && events[0].id.symbol == symbol
    ensures AllRead(slots, events)
  {
    hide Observes, ReadByRefresh, Labelled;
    var s := slots[|slots| - 1];
    hide OpensOn;
    OpenedNow(events[0], s, symbol);
    assert ReadBy(s, events[0], events[0]);
    forall k | 0 <= k < |events| ensures ReadInDay(slots, events[0], events[k]) {
      assert ReadBy(s, events[0], events[k]);
    }
  }

  lemma OpenedNow(e: Event, s: Sample, symbol: string)
    requires OpensFrom(e, s, symbol)
    ensures e.decisionTime == s.now
  {
    hide Labelled;
  }

  /**
    Every event a day leaves was read off what some slot of the day was answered with:
    the candidate off its symbol's chain, a quote or a close off the quote of its own
    instrument, bid for bid and ask for ask.
   */
  lemma {:induction false} DayIsRead(slots: seq<Sample>, now: int, id: TrajectoryId)
    requires OrderlyDay(slots) && (forall i :: 0 <= i < |slots| ==> slots[i].now <= now) && id in AfterSlots(slots)
    ensures AllRead(slots, AfterSlots(slots)[id])
  {
    hide OrderlyDay, Faithful, SaneDay, AfterSlot, AllRead, OpenedBy, ReadsOpening, Observed;
    if slots != [] {
      var front, last := slots[..|slots| - 1], slots[|slots| - 1];
      OrderlyFront(slots);
      DaysAreSane(front, last.now);
      SlotKeepsDay(AfterSlots(front), last);
      if id in AfterSlots(front) {
        DayIsRead(front, last.now, id);
        StillRead(slots, id);
      } else {
        NewIsRead(slots, id);
      }
    }
  }

  lemma StillRead(slots: seq<Sample>, id: TrajectoryId)
    requires slots != [] && id in AfterSlots(slots[..|slots| - 1])
    requires var front, last := slots[..|slots| - 1], slots[|slots| - 1];
             SaneDay(AfterSlots(front), last.now) && Faithful(last) && AllRead(front, AfterSlots(front)[id])
    ensures id in AfterSlots(slots) && AllRead(slots, AfterSlots(slots)[id])
  {
    hide Faithful, SaneDay, AfterSlot, AllRead, Observed, Upsert, Observes;
    var front, last := slots[..|slots| - 1], slots[|slots| - 1];
    var g := AfterSlots(front);
    GroupHasCandidate(g, last.now, id);
    if HasClose(g[id]) {
      ClosedIsFinal(g, last, id);
      AllReadLonger(slots, g[id]);
    } else {
      ObservedIff(g, last, id);
      if Answers(g[id][0], last) {
        AllReadUpsert(slots, g[id], Observed(g[id][0], last));
      } else {
        AllReadLonger(slots, g[id]);
      }
    }
  }

  lemma GroupHasCandidate(g: Groups, now: int, id: TrajectoryId)
    requires SaneDay(g, now) && id in g
    ensures g[id] != [] && g[id][0].kind == CANDIDATE && g[id][0].id == id
  {
    SaneCandidate(id, g[id]);
  }

  lemma NewIsRead(slots: seq<Sample>, id: TrajectoryId)
    requires slots != [] && id in AfterSlots(slots) && id !in AfterSlots(slots[..|slots| - 1])
    requires var front, last := slots[..|slots| - 1], slots[|slots| - 1]; SaneDay(AfterSlots(front), last.now) && Faithful(last)
    ensures AllRead(slots, AfterSlots(slots)[id])
  {
    hide Faithful, SaneDay, AfterSlot, AllRead, ReadsOpening, NewEvents, Opening;
    var front, last := slots[..|slots| - 1], slots[|slots| - 1];
    OpenedIff(AfterSlots(front), last, id);
    SlotKeepsDay(AfterSlots(front), last);
    GroupHasCandidate(AfterSlots(slots), last.now, id);
    OpeningReads(slots, AfterSlots(slots)[id], id.symbol);
  }

  /** The slot closes the trajectory that `c` began. */
  predicate Closes(c: Event, s: Sample) {
    Answers(c, s) && c.decisionTime + TARGET_HORIZON_MINUTES * MINUTE <= s.now
  }

  /**
    A slot closes an open trajectory exactly when the evaluation ran, its probe was
    answered with the instrument's quote, and the slot starts at or after the horizon.
   */
  lemma ClosesIff(g: Groups, s: Sample, id: TrajectoryId)
    requires SaneDay(g, s.now) && Faithful(s) && id in g && !HasClose(g[id])
    ensures id in AfterSlot(g, s) && AfterSlot(g, s)[id] != [] && AfterSlot(g, s)[id][0] == g[id][0]
    ensures HasClose(AfterSlot(g, s)[id]) <==> Closes(g[id][0], s)
  {
    SlotOnTrajectory(g, s, id);
    assert HorizonAt(g[id][0]) == g[id][0].decisionTime + TARGET_HORIZON_MINUTES * MINUTE;
    hide HorizonAt;
    if s.refresh.Some? {
      RefreshedIsSane(id, g[id], s.now, s.refresh.value);
      SaneCandidate(id, RefreshOne(g[id], TargetOf(g[id], s.now), s.refresh.value));
    }
    hide AfterSlot, Faithful, TargetOf, HasClose, RefreshOne;
  }

  lemma OrderlyFront(slots: seq<Sample>)
    requires OrderlyDay(slots) && slots != []
    ensures var front, last := slots[..|slots| - 1], slots[|slots| - 1];
            OrderlyDay(front) && Faithful(last) && forall i :: 0 <= i < |front| ==> front[i].now <= last.now
  {
    hide Faithful;
  }

  /** Some slot of the day, from the `k`-th on, closes the trajectory that `c` began. */
  ghost predicate ClosedFrom(c: Event, slots: seq<Sample>, k: nat) {
    exists i :: k <= i < |slots| && Closes(c, slots[i])
  }

  lemma ClosedFromStep(c: Event, slots: seq<Sample>, k: nat)
    requires k < |slots|
    ensures ClosedFrom(c, slots, k) <==> ClosedFrom(c, slots[..|slots| - 1], k) || Closes(c, slots[|slots| - 1])
  {
    hide Closes;
    var front := slots[..|slots| - 1];
    assert forall i :: 0 <= i < |front| ==> front[i] == slots[i];
    if ClosedFrom(c, front, k) {
      var i :| k <= i < |front| && Closes(c, front[i]);
      assert Closes(c, slots[i]);
    }
  }

  /**
    Over a whole day: a trajectory open after the first `k` slots ends the day closed
    exactly when some later slot was answered with its quote at or after its horizon.
   */
  lemma {:induction false} DayClosesIff(slots: seq<Sample>, k: nat, id: TrajectoryId)
    requires OrderlyDay(slots) && k <= |slots|
    requires id in AfterSlots(slots[..k]) && AfterSlots(slots[..k])[id] != [] && !HasClose(AfterSlots(slots[..k])[id])
    ensures id in AfterSlots(slots) && AfterSlots(slots)[id] != []
    ensures AfterSlots(slots)[id][0] == AfterSlots(slots[..k])[id][0]
    ensures HasClose(AfterSlots(slots)[id]) <==> ClosedFrom(AfterSlots(slots[..k])[id][0], slots, k)
    decreases |slots| - k
  {
    hide OrderlyDay, Faithful, SaneDay, AfterSlot, HasClose, Closes;
    if k == |slots| {
      assert slots[..k] == slots;
    } else {
      var front, last := slots[..|slots| - 1], slots[|slots| - 1];
      OrderlyFront(slots);
      assert front[..k] == slots[..k];
      DayClosesIff(front, k, id);
      DaysAreSane(front, last.now);
      ClosedFromStep(AfterSlots(slots[..k])[id][0], slots, k);
      hide ClosedFrom;
      if HasClose(AfterSlots(front)[id]) {
        ClosedIsFinal(AfterSlots(front), last, id);
      } else {
        ClosesIff(AfterSlots(front), last, id);
      }
    }
  }

  /**
    The admission test and the closing test disagree by the launch lag: a candidate
    opened `early` after its minute, an hour before the last slot, is closed by that
    slot starting `late` after its minute exactly when `early <= late`.
   */
  lemma KnifeEdge(g: Groups, s: Sample, id: TrajectoryId, early: int, late: int)
    requires SaneDay(g, s.now) && Faithful(s) && id in g && !HasClose(g[id]) && 0 <= early < MINUTE && 0 <= late < MINUTE
    requires g[id][0].decisionTime == LAST_PILOT_SLOT - TARGET_HORIZON_MINUTES * MINUTE + early && s.now == LAST_PILOT_SLOT + late
    requires Answers(g[id][0], s)
    ensures HorizonIsObservable(g[id][0].decisionTime)
    ensures id in AfterSlot(g, s) && (HasClose(AfterSlot(g, s)[id]) <==> early <= late)
  {
    ClosesIff(g, s, id);
    hide AfterSlot, Faithful, HasClose;
  }

  // ---------------------------------------------------- which symbols are open

  /** A candidate is filed under its underlying; a contract that names none is filed as unknown. */
  predicate Filing(id: TrajectoryId, e: Event) {
    e.id == id && id.symbol == if e.underlying == "" then "UNKNOWN" else e.underlying
  }

  predicate AllFiling(id: TrajectoryId, events: seq<Event>) {
    forall i :: 0 <= i < |events| ==> Filing(id, events[i])
  }

  ghost predicate Named(g: Groups) {
    forall id :: id in g ==> AllFiling(id, g[id])
  }

  /** A proper symbol: not one of the two ways to record that a contract named none. */
  predicate Proper(x: string) {
    x != "" && x != "UNKNOWN"
  }

  /** Some candidate among the events keeps the symbol open. */
  ghost predicate Holds(events: seq<Event>, x: string) {
    exists i :: 0 <= i < |events| && OpensDay(events[i]) && events[i].underlying == x
  }

  lemma OpenIff(g: Groups, x: string)
    ensures x in OpenSymbols(g) <==> exists id :: id in g && Holds(g[id], x)
  {
    hide OpensDay;
    if x in OpenSymbols(g) {
      var id, i :| id in g && 0 <= i < |g[id]| && OpensDay(g[id][i]) && g[id][i].underlying == x;
      assert Holds(g[id], x);
    }
  }

  /** Writing an event holds what was held, and its own symbol if it is a candidate: one that it replaces had the same. */
  lemma UpsertHolds(id: TrajectoryId, events: seq<Event>, e: Event, x: string)
    requires AllFiling(id, events) && Filing(id, e) && e.rejections == [] && Proper(x)
    ensures AllFiling(id, Upsert(events, e))
    ensures Holds(Upsert(events, e), x) <==> Holds(events, x) || (e.kind == CANDIDATE && e.underlying == x)
  {
    UpsertAppendsOrReplaces(events, e);
    var r := Upsert(events, e);
    hide Upsert;
    if k :| 0 <= k < |events| && SameFile(events[k], e) && r == events[k := e] {
      assert r[k] == e;
      if i :| 0 <= i < |events| && OpensDay(events[i]) && events[i].underlying == x {
        assert i != k ==> r[i] == events[i];
        assert OpensDay(r[i]) && r[i].underlying == x;
      }
    } else {
      assert r == events + [e] && r[|events|] == e;
      if i :| 0 <= i < |events| && OpensDay(events[i]) && events[i].underlying == x {
        assert r[i] == events[i];
      }
    }
  }

  lemma WriteOpens(g: Groups, e: Event, x: string)
    requires Named(g) && Filing(e.id, e) && e.rejections == [] && Proper(x)
    ensures Named(Write(g, e))
    ensures x in OpenSymbols(Write(g, e)) <==> x in OpenSymbols(g) || (e.kind == CANDIDATE && e.underlying == x)
  {
    hide Holds, AllFiling, Upsert, OpenSymbols, Filing, Proper;
    var r := Write(g, e);
    NothingHeld(e.id, x);
    UpsertHolds(e.id, EventsOf(g, e.id), e, x);
    OpenIff(g, x);
    OpenIff(r, x);
    forall id | id in g && id != e.id ensures id in r && r[id] == g[id] {
    }
    assert e.id in r && Holds(r[e.id], x) == Holds(Upsert(EventsOf(g, e.id), e), x);
  }

  lemma NothingHeld(id: TrajectoryId, x: string)
    ensures AllFiling(id, []) && !Holds([], x)
  {
  }

  lemma CandidateIsMember(events: seq<Event>)
    ensures FirstCandidate(events).Some? ==> FirstCandidate(events).value in events
  {
    if events != [] && events[0].kind != CANDIDATE {
      CandidateIsMember(events[1..]);
    }
  }

  lemma RefreshOneHolds(id: TrajectoryId, events: seq<Event>, now: int, probe: Probe, x: string)
    requires AllFiling(id, events) && Proper(x)
    ensures var r := RefreshOne(events, TargetOf(events, now), probe); AllFiling(id, r) && (Holds(r, x) <==> Holds(events, x))
  {
    hide HorizonAt, Upsert, HasClose, Proper, Holds;
    CandidateIsMember(events);
    var target := TargetOf(events, now);
    if target.Some? {
      var e := Observation(target.value, probe);
      if e.Some? {
        assert Filing(id, target.value.candidate);
        UpsertHolds(id, events, e.value, x);
      }
    }
  }

  /** A refresh opens nothing and releases nothing. */
  lemma RefreshOpens(g: Groups, now: int, probe: Option<Probe>, x: string)
    requires Named(g) && Proper(x)
    ensures Named(Refreshed(g, now, probe)) && (x in OpenSymbols(Refreshed(g, now, probe)) <==> x in OpenSymbols(g))
  {
    hide Holds, AllFiling, RefreshOne, TargetOf, OpenSymbols, Proper;
    var r := Refreshed(g, now, probe);
    forall id | id in g ensures AllFiling(id, r[id]) && (Holds(r[id], x) <==> Holds(g[id], x)) {
      if probe.Some? {
        RefreshOneHolds(id, g[id], now, probe.value, x);
      }
    }
    OpenIff(g, x);
    OpenIff(r, x);
  }

  /** The symbol's chain opens a candidate that is recorded as one on `x`. */
  ghost predicate OpensAs(s: Sample, symbol: string, x: string) {
    Opening(s, symbol).Some? && Opening(s, symbol).value.underlying == x
  }

  lemma OpeningIsFiling(s: Sample, symbol: string)
    requires Opening(s, symbol).Some?
    ensures var e := Opening(s, symbol).value; Filing(e.id, e) && e.rejections == [] && e.kind == CANDIDATE
    ensures var e := Opening(s, symbol).value;
            var q := WindowQuote(s, symbol, e);
            q.Some? ==> Filing(q.value.id, q.value) && q.value.rejections == [] && q.value.kind == QUOTE
  {
    hide NearestIndex, LabelsFor;
  }

  lemma OpenOneOpens(g: Groups, s: Sample, symbol: string, x: string)
    requires Named(g) && Proper(x)
    ensures Named(OpenOne(g, s, symbol)) && (x in OpenSymbols(OpenOne(g, s, symbol)) <==> x in OpenSymbols(g) || OpensAs(s, symbol, x))
  {
    hide Opening, WindowQuote, Write, OpenSymbols, Named, Filing, Proper;
    if Opening(s, symbol).Some? {
      OpeningIsFiling(s, symbol);
      var e := Opening(s, symbol).value;
      WriteOpens(g, e, x);
      if WindowQuote(s, symbol, e).Some? {
        WriteOpens(Write(g, e), WindowQuote(s, symbol, e).value, x);
      }
    }
  }

  lemma {:induction false} OpenAllOpens(g: Groups, s: Sample, symbols: seq<string>, x: string)
    requires Named(g) && Proper(x)
    ensures Named(OpenAll(g, s, symbols))
    ensures x in OpenSymbols(OpenAll(g, s, symbols)) <==> x in OpenSymbols(g) || exists y :: y in symbols && OpensAs(s, y, x)
  {
    hide OpenOne, OpenSymbols, Named, OpensAs, Proper;
    if symbols != [] {
      var front, last := symbols[..|symbols| - 1], symbols[|symbols| - 1];
      OpenAllOpens(g, s, front, x);
      OpenOneOpens(OpenAll(g, s, front), s, last, x);
      assert symbols == front + [last];
    }
  }

  /** In this slot a selected symbol was opened with a candidate that carries `x`. */
  ghost predicate Records(g: Groups, s: Sample, x: string) {
    s.evaluated && Opens(s) && exists y :: y in Selected(g, s) && OpensAs(s, y, x)
  }

  /** After any slot a symbol counts as open exactly if it did before, or a candidate now opened carries it. */
  lemma SlotOpensIff(g: Groups, s: Sample, x: string)
    requires Named(g) && Proper(x)
    ensures Named(AfterSlot(g, s)) && (x in OpenSymbols(AfterSlot(g, s)) <==> x in OpenSymbols(g) || Records(g, s, x))
  {
    hide Refreshed, OpenAll, OpenSymbols, Named, OpensAs, Proper, Opens, Selected;
    RefreshOpens(g, s.now, s.refresh, x);
    OpenAllOpens(Refreshed(g, s.now, s.refresh), s, Selected(g, s), x);
  }

  ghost predicate RecordsAt(slots: seq<Sample>, i: int, x: string) {
    0 <= i < |slots| && Records(AfterSlots(slots[..i]), slots[i], x)
  }

  /** Some slot opened a candidate that carries `x`, under whatever symbol it was qualified. */
  ghost predicate Carried(slots: seq<Sample>, x: string) {
    exists i :: RecordsAt(slots, i, x)
  }

  /**
    Over any slots whatever, without a word on what their chains are called: a symbol
    counts as open exactly when some slot recorded a candidate that carries it.
   */
  lemma {:induction false} DayOpensIff(slots: seq<Sample>, x: string)
    requires Proper(x)
    ensures Named(AfterSlots(slots)) && (x in OpenSymbols(AfterSlots(slots)) <==> Carried(slots, x))
  {
    hide AfterSlot, Records, Carried, OpenSymbols, Named, Proper;
    if slots == [] {
      NothingNamed(slots, x);
    } else {
      var front, last := slots[..|slots| - 1], slots[|slots| - 1];
      DayOpensIff(front, x);
      SlotOpensIff(AfterSlots(front), last, x);
      CarriedStep(slots, x);
    }
  }

  lemma NothingNamed(slots: seq<Sample>, x: string)
    requires slots == []
    ensures Named(map[]) && x !in OpenSymbols(map[]) && !Carried(slots, x)
  {
  }

  lemma CarriedStep(slots: seq<Sample>, x: string)
    requires slots != []
    ensures var front, last := slots[..|slots| - 1], slots[|slots| - 1];
            Carried(slots, x) <==> Carried(front, x) || Records(AfterSlots(front), last, x)
  {
    hide Records, AfterSlots;
    var front, n := slots[..|slots| - 1], |slots| - 1;
    if Carried(front, x) {
      var i :| RecordsAt(front, i, x);
      assert front[..i] == slots[..i];
      assert RecordsAt(slots, i, x);
    }
    if i :| RecordsAt(slots, i, x) {
      if i < n {
        assert front[..i] == slots[..i];
        assert RecordsAt(front, i, x);
      }
    }
    assert Records(AfterSlots(front), slots[n], x) ==> RecordsAt(slots, n, x);
  }

  /**
    So a qualified symbol is tried again later in the day exactly while no candidate
    carries it, whatever was opened in its name: one candidate per symbol a day rests
    on chains that name their own symbol.
   */
  lemma TriedAgainIff(slots: seq<Sample>, s: Sample, x: string)
    requires Proper(x) && x in s.qualified && |s.qualified| <= MAX_CANDIDATES_PER_SLOT
    ensures x in Selected(AfterSlots(slots), s) <==> !Carried(slots, x)
  {
    hide AfterSlots, Carried, Proper, Selected, OpenSymbols;
    DayOpensIff(slots, x);
    SelectedAll(AfterSlots(slots), s, x);
  }

  // ---------------------------------------------------------------- starving

  /** The refresh was answered with quotes of asked instruments only, or with all of them. */
  ghost predicate AnswersOnlyAsked(g: Groups, s: Sample) {
    s.refresh.Some? && s.refresh.value.quotes.Keys <= Asked(ProbeIds(Targets(g, s.now)))
  }

  ghost predicate AnswersAsked(g: Groups, s: Sample) {
    s.evaluated && s.refresh.Some? && s.refresh.value.quotes.Keys == Asked(ProbeIds(Targets(g, s.now)))
  }

  /** How many open instruments are asked for in front of this one. */
  function Ahead(g: Groups, now: int, c: Event): nat {
    |Before(ProbeIds(Targets(g, now)), c.instrumentId)|
  }

  lemma OpenIsProbed(g: Groups, now: int, id: TrajectoryId)
    requires SaneDay(g, now) && id in g && !HasClose(g[id])
    ensures g[id][0].instrumentId in ProbeIds(Targets(g, now))
  {
    SaneTarget(id, g[id], now);
    hide TargetOf, HasClose, HorizonAt, Belongs, HorizonIsObservable;
    assert id in Targets(g, now);
  }

  /**
    Where the answer covers exactly what was asked, an open trajectory is observed
    exactly when fewer than six open instruments come before its own.
   */
  lemma StarvedIff(g: Groups, s: Sample, id: TrajectoryId)
    requires SaneDay(g, s.now) && Faithful(s) && id in g && !HasClose(g[id]) && AnswersAsked(g, s)
    ensures id in AfterSlot(g, s)
    ensures Answers(g[id][0], s) <==> Ahead(g, s.now, g[id][0]) < MAX_PROBE_INSTRUMENTS
    ensures AfterSlot(g, s)[id] == if Answers(g[id][0], s) then Upsert(g[id], Observed(g[id][0], s)) else g[id]
  {
    ObservedIff(g, s, id);
    OpenIsProbed(g, s.now, id);
    hide AfterSlot, Faithful, SaneDay, ProbeIds, Targets, HasClose, Upsert, Observed, Before;
  }

  /** Behind six others nothing is recorded, even of a partial answer. */
  lemma Starved(g: Groups, s: Sample, id: TrajectoryId)
    requires SaneDay(g, s.now) && Faithful(s) && id in g && AnswersOnlyAsked(g, s)
    requires MAX_PROBE_INSTRUMENTS <= Ahead(g, s.now, g[id][0])
    ensures id in AfterSlot(g, s) && AfterSlot(g, s)[id] == g[id]
  {
    hide AfterSlot, Faithful, ProbeIds, Targets, HasClose, Upsert, Observed, Before, Sane;
    if HasClose(g[id]) {
      ClosedIsFinal(g, s, id);
    } else {
      ObservedIff(g, s, id);
    }
  }
}
