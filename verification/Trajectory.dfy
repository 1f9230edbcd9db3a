/**
  Quote trajectories: a pilot slot refreshes the open ones and opens new ones, and
  every day of slots keeps each trajectory well formed.
 */
module Trajectory {
  import opened Common
  import opened Ordering
  import Schedule

  const TARGET_HORIZON_MINUTES := 60
  const FILL_WINDOW := 60 * SECOND
  const MAX_PROBE_INSTRUMENTS := 6
  const MAX_CANDIDATES_PER_SLOT := 3

  /** The last slot that can observe a horizon. */
  const LAST_PILOT_SLOT := (12 * 60 + 43) * MINUTE

  lemma PilotSlotAt(k: nat)
    requires k < |Schedule.DAILY_SLOTS| && Schedule.DAILY_SLOTS[k].kind == Schedule.PILOT_SAMPLE
    ensures Schedule.At(Schedule.DAILY_SLOTS[k]) <= LAST_PILOT_SLOT
  {
  }

  /** It is the latest pilot slot of the table. */
  lemma LastPilotSlotIsLast()
    ensures Schedule.Slot(12, 43, Schedule.PILOT_SAMPLE, "AMZN") in Schedule.DAILY_SLOTS
    ensures Schedule.At(Schedule.Slot(12, 43, Schedule.PILOT_SAMPLE, "AMZN")) == LAST_PILOT_SLOT
    ensures forall s :: s in Schedule.DAILY_SLOTS && s.kind == Schedule.PILOT_SAMPLE ==> Schedule.At(s) <= LAST_PILOT_SLOT
  {
    assert Schedule.DAILY_SLOTS[19] == Schedule.Slot(12, 43, Schedule.PILOT_SAMPLE, "AMZN");
    hide Schedule.At;
    forall s | s in Schedule.DAILY_SLOTS && s.kind == Schedule.PILOT_SAMPLE ensures Schedule.At(s) <= LAST_PILOT_SLOT {
      var k :| 0 <= k < |Schedule.DAILY_SLOTS| && Schedule.DAILY_SLOTS[k] == s;
      PilotSlotAt(k);
    }
  }

  datatype Right = CALL | PUT

  datatype Instrument = Instrument(id: string, chainSymbol: Option<string>, right: Option<Right>, strike: Option<real>)

  datatype Quote = Quote(bid: Option<real>, ask: Option<real>, mark: Option<real>)

  datatype TrajectoryId = TrajectoryId(symbol: string, instrument: string, second: int)

  datatype Kind = CANDIDATE | QUOTE | HORIZON_CLOSE

  /** A recorded event; times are instants of the session clock. */
  datatype Event = Event(
    id: TrajectoryId, kind: Kind, labels: seq<string>, instrumentId: string, underlying: string, right: Option<Right>,
    strike: Option<real>, decisionTime: int, receivedAt: int, sourceUpdatedAt: Option<int>, bid: Option<real>, ask: Option<real>,
    mark: Option<real>, rejections: seq<string>, horizonMinutes: Option<int>, limit: Option<real>, deadline: Option<int>)

  /** The events of each trajectory, in writing order. */
  type Groups = map<TrajectoryId, seq<Event>>

  datatype TrajectoryError = CANDIDATE_WITHOUT_INSTRUMENT_ID

  // ------------------------------------------------------------------ events

  function Prefix8(s: string): string {
    if |s| <= 8 then s else s[..8]
  }

  /** Opens a trajectory; the recorded ask is the entry limit. */
  function CandidateEvent(i: Instrument, q: Quote, decisionTime: int, receivedAt: int, source: Option<int>, labels: seq<string>)
    : Result<Event, TrajectoryError>
  {
    if i.id == "" then Failure(CANDIDATE_WITHOUT_INSTRUMENT_ID)
    else
      var symbol := if i.chainSymbol.Some? && i.chainSymbol.value != "" then i.chainSymbol.value else "UNKNOWN";
      Success(Event(TrajectoryId(symbol, Prefix8(i.id), decisionTime / SECOND), CANDIDATE, labels, i.id,
                    if i.chainSymbol.Some? then i.chainSymbol.value else "", i.right, i.strike, decisionTime, receivedAt, source,
                    q.bid, q.ask, q.mark, [], Some(TARGET_HORIZON_MINUTES), q.ask, Some(receivedAt + FILL_WINDOW)))
  }

  /** A later observation of a candidate's instrument. */
  function ObservationEvent(kind: Kind, c: Event, q: Quote, receivedAt: int, source: Option<int>): Event {
    c.(kind := kind, receivedAt := receivedAt, sourceUpdatedAt := source, bid := q.bid, ask := q.ask, mark := q.mark,
       rejections := [], horizonMinutes := None, limit := None, deadline := None)
  }

  /** Writing an event replaces the one of the same kind and receipt time, as their file names do. */
  function Upsert(events: seq<Event>, e: Event): (r: seq<Event>)
    ensures e in r && |events| <= |r| <= |events| + 1
  {
    if events == [] then [e]
    else if events[0].kind == e.kind && events[0].receivedAt == e.receivedAt then [e] + events[1..]
    else [events[0]] + Upsert(events[1..], e)
  }

  function EventsOf(g: Groups, id: TrajectoryId): seq<Event> {
    if id in g then g[id] else []
  }

  function Write(g: Groups, e: Event): Groups {
    g[e.id := Upsert(EventsOf(g, e.id), e)]
  }

  // ----------------------------------------------------------------- refresh

  datatype Target = Target(candidate: Event, kind: Kind)

  function FirstCandidate(events: seq<Event>): Option<Event> {
    if events == [] then None
    else if events[0].kind == CANDIDATE then Some(events[0]) else FirstCandidate(events[1..])
  }

  predicate HasClose(events: seq<Event>) {
    exists i :: 0 <= i < |events| && events[i].kind == HORIZON_CLOSE
  }

  function HorizonAt(c: Event): int {
    var minutes := if c.horizonMinutes.Some? && c.horizonMinutes.value != 0 then c.horizonMinutes.value else TARGET_HORIZON_MINUTES;
    c.decisionTime + minutes * MINUTE
  }

  /** How an open trajectory is to be observed now, if at all. */
  function TargetOf(events: seq<Event>, now: int): Option<Target> {
    var c := FirstCandidate(events);
    if c.None? || c.value.rejections != [] || HasClose(events) then None
    else Some(Target(c.value, if HorizonAt(c.value) <= now then HORIZON_CLOSE else QUOTE))
  }

  function Targets(g: Groups, now: int): map<TrajectoryId, Target> {
    map id | id in g && TargetOf(g[id], now).Some? :: TargetOf(g[id], now).value
  }

  method OpenRefreshTargets(g: Groups, now: int) returns (targets: map<TrajectoryId, Target>)
    ensures targets == Targets(g, now)
  {
    hide TargetOf;
    targets := map[];
    var remaining := g.Keys;
    while remaining != {}
      invariant remaining <= g.Keys
      invariant targets == map id | id in g && id !in remaining && TargetOf(g[id], now).Some? :: TargetOf(g[id], now).value
    {
      var id :| id in remaining;
      remaining := remaining - {id};
      var target := TargetOf(g[id], now);
      if target.Some? {
        targets := targets[id := target.value];
      }
    }
  }

  // ------------------------------------------------------------ probe ordering

  function Before(ids: set<string>, a: string): set<string> {
    set b | b in ids && Precedes(b, a)
  }

  /** The ids with fewer than six before them: at most the six lowest. */
  function Asked(ids: set<string>): set<string> {
    set a | a in ids && |Before(ids, a)| < MAX_PROBE_INSTRUMENTS
  }

  /** A name without a suffix. */
  lemma BareNames(low: string, ids: set<string>)
    ensures forall b :: b in ids ==> (NamedBefore(low, b, "") <==> Precedes(low, b))
  {
    hide Precedes;
    forall b | b in ids ensures NamedBefore(low, b, "") <==> Precedes(low, b) {
      assert low + "" == low && b + "" == b;
    }
  }

  /** The first six ids in order. */
  method FirstSix(ids: set<string>) returns (asked: set<string>)
    ensures asked == Asked(ids)
  {
    asked := {};
    var rest := ids;
    while rest != {} && |asked| < MAX_PROBE_INSTRUMENTS
      invariant asked + rest == ids && asked !! rest && |asked| <= MAX_PROBE_INSTRUMENTS
      invariant forall a, b :: a in asked && b in rest ==> Precedes(a, b)
      decreases |rest|
    {
      var low := Lowest(rest, "");
      BareNames(low, rest);
      asked := asked + {low};
      rest := rest - {low};
    }
    SixAreAsked(ids, asked, rest);
  }

  lemma SixAreAsked(ids: set<string>, asked: set<string>, rest: set<string>)
    requires asked + rest == ids && asked !! rest && |asked| <= MAX_PROBE_INSTRUMENTS
    requires rest == {} || |asked| == MAX_PROBE_INSTRUMENTS
    requires forall a, b :: a in asked && b in rest ==> Precedes(a, b)
    ensures asked == Asked(ids)
  {
    forall a | a in asked ensures |Before(ids, a)| < MAX_PROBE_INSTRUMENTS {
      forall b | b in Before(ids, a) ensures b in asked - {a} {
        PrecedesTotal(a, b);
      }
      SubsetSize(Before(ids, a), asked - {a});
    }
    forall a | a in rest ensures |Before(ids, a)| >= MAX_PROBE_INSTRUMENTS {
      SubsetSize(asked, Before(ids, a));
    }
  }

  lemma {:induction false} SubsetSize(a: set<string>, b: set<string>)
    requires a <= b
    ensures |a| <= |b|
  {
    if a != {} {
      var x :| x in a;
      SubsetSize(a - {x}, b - {x});
    }
  }

  /** One answered quote probe. */
  datatype Probe = Probe(quotes: map<string, Quote>, receivedAt: int, source: Option<int>)

  function ProbeIds(targets: map<TrajectoryId, Target>): set<string> {
    (set id | id in targets :: targets[id].candidate.instrumentId) - {""}
  }

  /** The observation a target gets from the answer to a probe, whatever was asked. */
  function Observation(t: Target, probe: Probe): Option<Event> {
    var instrument := t.candidate.instrumentId;
    if instrument in probe.quotes
    then Some(ObservationEvent(t.kind, t.candidate, probe.quotes[instrument], probe.receivedAt, probe.source))
    else None
  }

  function RefreshOne(events: seq<Event>, target: Option<Target>, probe: Probe): seq<Event> {
    if target.None? then events
    else
      var e := Observation(target.value, probe);
      if e.None? then events else Upsert(events, e.value)
  }

  function Refreshed(g: Groups, now: int, probe: Option<Probe>): Groups {
    if probe.None? then g
    else map id | id in g :: RefreshOne(g[id], TargetOf(g[id], now), probe.value)
  }

  /** The trajectories due for an observation whose instrument the probe answered. */
  function Answered(g: Groups, now: int, probe: Option<Probe>): set<TrajectoryId> {
    if probe.None? then {}
    else set id | id in Targets(g, now) && Targets(g, now)[id].candidate.instrumentId in probe.value.quotes
  }

  // ----------------------------------------------------------------- opening

  function Gap(strike: real, price: real): real {
    if strike < price then price - strike else strike - price
  }

  /** A contract of the wanted kind, with a strike and an observable ask. */
  predicate Selectable(i: Instrument, quotes: map<string, Quote>, right: Right) {
    i.right == Some(right) && i.strike.Some? && i.id in quotes && quotes[i.id].ask.Some?
  }

  /** The position of the nearest selectable contract; the earlier wins a tie. */
  ghost predicate IsNearest(instruments: seq<Instrument>, n: nat, quotes: map<string, Quote>, price: real, right: Right, k: nat)
    requires n <= |instruments|
  {
    && k < n && Selectable(instruments[k], quotes, right)
    && (forall j :: 0 <= j < n && Selectable(instruments[j], quotes, right) ==>
          Gap(instruments[k].strike.value, price) <= Gap(instruments[j].strike.value, price))
    && (forall j :: 0 <= j < k && Selectable(instruments[j], quotes, right) ==>
          Gap(instruments[k].strike.value, price) < Gap(instruments[j].strike.value, price))
  }

  lemma NearestIsUnique(instruments: seq<Instrument>, quotes: map<string, Quote>, price: real, right: Right, j: nat, k: nat)
    requires IsNearest(instruments, |instruments|, quotes, price, right, j) && IsNearest(instruments, |instruments|, quotes, price, right, k)
    ensures j == k
  {
  }

  method NearestTheMoney(instruments: seq<Instrument>, quotes: map<string, Quote>, price: real, right: Right) returns (best: Option<nat>)
    ensures best.Some? ==> IsNearest(instruments, |instruments|, quotes, price, right, best.value)
    ensures best.None? ==> forall j :: 0 <= j < |instruments| ==> !Selectable(instruments[j], quotes, right)
    ensures best == NearestIndex(instruments, quotes, price, right)
  {
    hide Gap, Selectable;
    best := None;
    for i := 0 to |instruments|
      invariant best.Some? ==> IsNearest(instruments, i, quotes, price, right, best.value)
      invariant best.None? ==> forall j :: 0 <= j < i ==> !Selectable(instruments[j], quotes, right)
    {
      SelectableHasStrike(instruments[i], quotes, right);
      if best.Some? {
        SelectableHasStrike(instruments[best.value], quotes, right);
      }
      if Selectable(instruments[i], quotes, right) {
        if best.None? || Gap(instruments[i].strike.value, price) < Gap(instruments[best.value].strike.value, price) {
          best := Some(i);
        }
      }
    }
    if best.Some? {
      NearestIndexIs(instruments, quotes, price, right, best.value);
    }
  }

  lemma SelectableHasStrike(i: Instrument, quotes: map<string, Quote>, right: Right)
    ensures Selectable(i, quotes, right) ==> i.strike.Some? && i.id in quotes
  {
  }

  ghost function NearestIndex(instruments: seq<Instrument>, quotes: map<string, Quote>, price: real, right: Right): (r: Option<nat>)
    ensures r.Some? ==> IsNearest(instruments, |instruments|, quotes, price, right, r.value)
  {
    if k: nat :| IsNearest(instruments, |instruments|, quotes, price, right, k) then Some(k) else None
  }

  lemma NearestIndexExists(instruments: seq<Instrument>, quotes: map<string, Quote>, price: real, right: Right, k: nat)
    requires IsNearest(instruments, |instruments|, quotes, price, right, k)
    ensures NearestIndex(instruments, quotes, price, right).Some?
  {
    hide IsNearest;
  }

  lemma NearestIndexIs(instruments: seq<Instrument>, quotes: map<string, Quote>, price: real, right: Right, k: nat)
    requires IsNearest(instruments, |instruments|, quotes, price, right, k)
    ensures NearestIndex(instruments, quotes, price, right) == Some(k)
  {
    hide IsNearest;
    NearestIndexExists(instruments, quotes, price, right, k);
    NearestIsUnique(instruments, quotes, price, right, NearestIndex(instruments, quotes, price, right).value, k);
  }

  datatype Report = Report(volumeRatio: Option<real>, right: Option<Right>)

  datatype ChainSnapshot = ChainSnapshot(instruments: seq<Instrument>, quotes: map<string, Quote>, price: Option<real>,
                                         receivedAt: int, source: Option<int>)

  /** What one pilot slot sees; an absent snapshot or probe is a collector failure. */
  datatype Sample = Sample(
    now: int, evaluated: bool, admissible: bool, qualified: seq<string>, reports: map<string, Report>,
    registry: seq<(string, real)>, refresh: Option<Probe>, snapshots: map<string, ChainSnapshot>, windows: map<string, Probe>)

  function FloorMinute(us: int): int {
    us / MINUTE * MINUTE
  }

  predicate HorizonIsObservable(now: int) {
    FloorMinute(now) + TARGET_HORIZON_MINUTES * MINUTE <= LAST_PILOT_SLOT
  }

  predicate OpensDay(e: Event) {
    e.kind == CANDIDATE && e.rejections == []
  }

  function OpenSymbols(g: Groups): set<string> {
    set id, i | id in g && 0 <= i < |g[id]| && OpensDay(g[id][i]) :: g[id][i].underlying
  }

  function Ratio(s: Sample, symbol: string): real {
    if symbol in s.reports && s.reports[symbol].volumeRatio.Some? then s.reports[symbol].volumeRatio.value else 0.0
  }

  /** Stable insertion: behind every symbol whose ratio is no smaller. */
  function InsertByRatio(s: Sample, sorted: seq<string>, symbol: string): (r: seq<string>)
    ensures forall x :: x in r <==> x in sorted || x == symbol
    ensures |r| == |sorted| + 1
  {
    if sorted == [] || Ratio(s, symbol) <= Ratio(s, sorted[|sorted| - 1]) then sorted + [symbol]
    else InsertByRatio(s, sorted[..|sorted| - 1], symbol) + [sorted[|sorted| - 1]]
  }

  function ByRatio(s: Sample, symbols: seq<string>): (r: seq<string>)
    ensures forall x :: x in r <==> x in symbols
    ensures |r| == |symbols|
  {
    if symbols == [] then [] else InsertByRatio(s, ByRatio(s, symbols[..|symbols| - 1]), symbols[|symbols| - 1])
  }

  /** The symbols without a trajectory yet, in order. */
  function Without(symbols: seq<string>, taken: set<string>): (r: seq<string>)
    ensures forall x :: x in r <==> x in symbols && x !in taken
  {
    if symbols == [] then []
    else
      var last := symbols[|symbols| - 1];
      if last in taken then Without(symbols[..|symbols| - 1], taken) else Without(symbols[..|symbols| - 1], taken) + [last]
  }

  /** The symbols a slot tries to open, strongest first. */
  function Selected(g: Groups, s: Sample): (r: seq<string>)
    ensures |r| <= MAX_CANDIDATES_PER_SLOT
    ensures forall x :: x in r ==> x in s.qualified && x !in OpenSymbols(g)
  {
    var unopened := ByRatio(s, Without(s.qualified, OpenSymbols(g)));
    if |unopened| > MAX_CANDIDATES_PER_SLOT then unopened[..MAX_CANDIDATES_PER_SLOT] else unopened
  }

  /** The policy labels a ratio clears, in registry order. */
  function Labels(registry: seq<(string, real)>, ratio: real): seq<string> {
    if registry == [] then []
    else
      var (name, minimum) := registry[|registry| - 1];
      Labels(registry[..|registry| - 1], ratio) + (if minimum <= ratio then [name] else [])
  }

  function LabelsFor(s: Sample, symbol: string): seq<string> {
    if symbol in s.reports && s.reports[symbol].volumeRatio.Some? then Labels(s.registry, s.reports[symbol].volumeRatio.value) else []
  }

  /** The candidate a symbol would open with, if everything it needs was observed. */
  ghost function Opening(s: Sample, symbol: string): Option<Event> {
    if LabelsFor(s, symbol) == [] || symbol !in s.snapshots || symbol !in s.reports || s.reports[symbol].right.None? then None
    else
      var snap := s.snapshots[symbol];
      if snap.price.None? then None
      else
        var k := NearestIndex(snap.instruments, snap.quotes, snap.price.value, s.reports[symbol].right.value);
        if k.None? then None
        else
          var i := snap.instruments[k.value];
          var e := CandidateEvent(i, snap.quotes[i.id], s.now, snap.receivedAt, snap.source, LabelsFor(s, symbol));
          if e.Success? then Some(e.value) else None
  }

  /** The one quote taken inside a new candidate's fill window, if the probe made it. */
  function WindowQuote(s: Sample, symbol: string, e: Event): Option<Event> {
    if symbol in s.windows && e.instrumentId in s.windows[symbol].quotes
    then Some(ObservationEvent(QUOTE, e, s.windows[symbol].quotes[e.instrumentId], s.windows[symbol].receivedAt, s.windows[symbol].source))
    else None
  }

  ghost function OpenOne(g: Groups, s: Sample, symbol: string): Groups {
    var e := Opening(s, symbol);
    if e.None? then g
    else
      var started := Write(g, e.value);
      var quote := WindowQuote(s, symbol, e.value);
      if quote.None? then started else Write(started, quote.value)
  }

  ghost function OpenAll(g: Groups, s: Sample, symbols: seq<string>): Groups {
    if symbols == [] then g else OpenOne(OpenAll(g, s, symbols[..|symbols| - 1]), s, symbols[|symbols| - 1])
  }

  /** The trajectories that a list of symbols opens, in its order. */
  ghost function OpenedIds(s: Sample, symbols: seq<string>): (r: seq<TrajectoryId>)
    ensures |r| <= |symbols|
  {
    if symbols == [] then []
    else
      var last := Opening(s, symbols[|symbols| - 1]);
      OpenedIds(s, symbols[..|symbols| - 1]) + (if last.Some? then [last.value.id] else [])
  }

  predicate Opens(s: Sample) {
    HorizonIsObservable(s.now) && s.admissible && s.qualified != []
  }

  /** The recorded events after one pilot slot. */
  ghost function AfterSlot(g: Groups, s: Sample): Groups {
    if !s.evaluated then g
    else
      var refreshed := Refreshed(g, s.now, s.refresh);
      if Opens(s) then OpenAll(refreshed, s, Selected(g, s)) else refreshed
  }

  // ------------------------------------------------------------------- store

  /** Every event is filed under its own trajectory. */
  ghost predicate Filed(g: Groups) {
    forall id, i :: id in g && 0 <= i < |g[id]| ==> g[id][i].id == id
  }

  class TrajectoryStore {
    var groups: Groups

    constructor ()
      ensures groups == map[]
    {
      groups := map[];
    }

    method WriteEvent(e: Event)
      modifies this
      ensures groups == Write(old(groups), e)
    {
      groups := groups[e.id := Upsert(EventsOf(groups, e.id), e)];
    }

    /** Probes the six lowest open instruments and records every observation the answer allows. */
    method Refresh(now: int, probe: Option<Probe>) returns (asked: set<string>, refreshed: nat)
      requires Filed(groups)
      modifies this
      ensures asked == Asked(ProbeIds(Targets(old(groups), now)))
      ensures groups == Refreshed(old(groups), now, probe) && refreshed == |Answered(old(groups), now, probe)|
    {
      hide TargetOf, Asked, ProbeIds, Targets, RefreshedAmong, AnsweredAmong, Refreshed, Answered, Filed, Upsert, ObservationEvent;
      var targets := OpenRefreshTargets(groups, now);
      asked := FirstSix(ProbeIds(targets));
      refreshed := 0;
      if probe.None? {
        NothingAnswered(groups, now);
        return;
      }
      ghost var before := groups;
      ghost var seen: set<TrajectoryId> := {};
      var remaining := targets.Keys;
      NoneRefreshed(before, now, probe.value);
      while remaining != {}
        invariant seen !! remaining && seen + remaining == targets.Keys
        invariant groups == RefreshedAmong(before, now, seen, probe.value)
        invariant refreshed == |AnsweredAmong(before, now, seen, probe.value)|
      {
        var id :| id in remaining;
        remaining := remaining - {id};
        OneRefreshed(before, now, seen, id, probe.value);
        seen := seen + {id};
        var e := Observation(targets[id], probe.value);
        if e.Some? {
          WriteEvent(e.value);
          refreshed := refreshed + 1;
        }
      }
      AllRefreshed(before, now, seen, probe.value);
    }

    /** Tries to open one symbol. */
    method OpenCandidate(s: Sample, symbol: string) returns (started: Option<TrajectoryId>)
      modifies this
      ensures groups == OpenOne(old(groups), s, symbol)
      ensures started == if Opening(s, symbol).Some? then Some(Opening(s, symbol).value.id) else None
    {
      hide Labels, IsNearest, CandidateEvent, Upsert;
      started := None;
      var labels := LabelsFor(s, symbol);
      if labels == [] || symbol !in s.snapshots || symbol !in s.reports || s.reports[symbol].right.None? {
        return;
      }
      var snap := s.snapshots[symbol];
      if snap.price.None? {
        return;
      }
      var k := NearestTheMoney(snap.instruments, snap.quotes, snap.price.value, s.reports[symbol].right.value);
      if k.None? {
        return;
      }
      NearestIsListed(snap.instruments, snap.quotes, snap.price.value, s.reports[symbol].right.value, k.value);
      var i := snap.instruments[k.value];
      var e := CandidateEvent(i, snap.quotes[i.id], s.now, snap.receivedAt, snap.source, labels);
      if e.Failure? {
        return;
      }
      WriteEvent(e.value);
      started := Some(e.value.id);
      var quote := WindowQuote(s, symbol, e.value);
      if quote.Some? {
        WriteEvent(quote.value);
      }
    }

    /** One pilot sample: refresh what is open, then open what the evaluation admits. */
    method RunPilotSample(s: Sample) returns (asked: set<string>, started: seq<TrajectoryId>)
      requires Filed(groups)
      modifies this
      ensures groups == AfterSlot(old(groups), s)
      ensures asked == if s.evaluated then Asked(ProbeIds(Targets(old(groups), s.now))) else {}
      ensures started == if s.evaluated && Opens(s) then OpenedIds(s, Selected(old(groups), s)) else []
      ensures |started| <= MAX_CANDIDATES_PER_SLOT
    {
      hide Opening, OpenOne, Refreshed, Filed, Asked, Targets, ProbeIds, Answered;
      asked, started := {}, [];
      if !s.evaluated {
        return;
      }
      ghost var before := groups;
      var unopened := Selected(groups, s);
      var refreshed;
      asked, refreshed := Refresh(s.now, s.refresh);
      ghost var base := groups;
      if !HorizonIsObservable(s.now) || !s.admissible || s.qualified == [] {
        return;
      }
      for k := 0 to |unopened|
        invariant groups == OpenAll(base, s, unopened[..k]) && started == OpenedIds(s, unopened[..k])
      {
        assert unopened[..k + 1][..k] == unopened[..k];
        var id := OpenCandidate(s, unopened[k]);
        if id.Some? {
          started := started + [id.value];
        }
      }
      assert unopened[..|unopened|] == unopened;
    }
  }

  lemma NearestIsListed(instruments: seq<Instrument>, quotes: map<string, Quote>, price: real, right: Right, k: nat)
    requires IsNearest(instruments, |instruments|, quotes, price, right, k)
    ensures k < |instruments| && instruments[k].id in quotes
  {
  }

  lemma {:induction false} FirstCandidateIn(events: seq<Event>)
    ensures FirstCandidate(events).Some? ==> FirstCandidate(events).value in events && FirstCandidate(events).value.kind == CANDIDATE
    ensures FirstCandidate(events).None? ==> forall e :: e in events ==> e.kind != CANDIDATE
  {
    if events != [] {
      FirstCandidateIn(events[1..]);
      assert forall e :: e in events ==> e == events[0] || e in events[1..];
    }
  }

  lemma TargetIsFiled(g: Groups, id: TrajectoryId, now: int)
    requires Filed(g) && id in g && TargetOf(g[id], now).Some?
    ensures TargetOf(g[id], now).value.candidate.id == id
  {
    FirstCandidateIn(g[id]);
  }

  /** The recorded events once the targets among `seen` have been gone through, and those of them answered. */
  ghost function RefreshedAmong(g: Groups, now: int, seen: set<TrajectoryId>, probe: Probe): Groups {
    map id | id in g :: if id in seen then RefreshOne(g[id], TargetOf(g[id], now), probe) else g[id]
  }

  ghost function AnsweredAmong(g: Groups, now: int, seen: set<TrajectoryId>, probe: Probe): set<TrajectoryId> {
    set id | id in seen && id in Targets(g, now) && Targets(g, now)[id].candidate.instrumentId in probe.quotes
  }

  lemma NothingAnswered(g: Groups, now: int)
    ensures Refreshed(g, now, None) == g && Answered(g, now, None) == {}
  {
  }

  lemma NoneRefreshed(g: Groups, now: int, probe: Probe)
    ensures RefreshedAmong(g, now, {}, probe) == g && AnsweredAmong(g, now, {}, probe) == {}
  {
    hide TargetOf, RefreshOne;
  }

  lemma TargetKnown(g: Groups, now: int, id: TrajectoryId)
    requires id in Targets(g, now)
    ensures id in g && TargetOf(g[id], now) == Some(Targets(g, now)[id])
  {
    hide TargetOf;
  }

  lemma RefreshOneIs(events: seq<Event>, t: Target, probe: Probe)
    ensures RefreshOne(events, Some(t), probe)
            == if Observation(t, probe).None? then events else Upsert(events, Observation(t, probe).value)
    ensures Observation(t, probe).Some? ==> Observation(t, probe).value.id == t.candidate.id
    ensures Observation(t, probe).Some? <==> t.candidate.instrumentId in probe.quotes
  {
    hide Upsert;
  }

  lemma OneRefreshed(g: Groups, now: int, seen: set<TrajectoryId>, id: TrajectoryId, probe: Probe)
    requires Filed(g) && id in Targets(g, now) && id !in seen
    ensures var e, held := Observation(Targets(g, now)[id], probe), RefreshedAmong(g, now, seen, probe);
            && RefreshedAmong(g, now, seen + {id}, probe) == (if e.None? then held else Write(held, e.value))
            && |AnsweredAmong(g, now, seen + {id}, probe)|
               == |AnsweredAmong(g, now, seen, probe)| + if e.None? then 0 else 1
  {
    TargetKnown(g, now, id);
    TargetIsFiled(g, id, now);
    var t := Targets(g, now)[id];
    RefreshOneIs(g[id], t, probe);
    OneAnswered(g, now, seen, id, probe);
    AmongStep(g, now, seen, id, probe);
    hide TargetOf, Upsert, Filed, Targets, RefreshOne, Observation, AnsweredAmong, RefreshedAmong;
  }

  /** Going through one more group changes only that group. */
  lemma AmongStep(g: Groups, now: int, seen: set<TrajectoryId>, id: TrajectoryId, probe: Probe)
    requires id in g && id !in seen
    ensures id in RefreshedAmong(g, now, seen, probe) && RefreshedAmong(g, now, seen, probe)[id] == g[id]
    ensures var r, held := RefreshOne(g[id], TargetOf(g[id], now), probe), RefreshedAmong(g, now, seen, probe);
            && RefreshedAmong(g, now, seen + {id}, probe) == held[id := r]
            && (r == g[id] ==> held[id := r] == held)
  {
    hide RefreshOne, TargetOf;
  }

  lemma OneAnswered(g: Groups, now: int, seen: set<TrajectoryId>, id: TrajectoryId, probe: Probe)
    requires id in Targets(g, now) && id !in seen
    ensures |AnsweredAmong(g, now, seen + {id}, probe)|
            == |AnsweredAmong(g, now, seen, probe)| + if Targets(g, now)[id].candidate.instrumentId in probe.quotes then 1 else 0
  {
    hide Targets;
    assert AnsweredAmong(g, now, seen + {id}, probe)
        == AnsweredAmong(g, now, seen, probe) + if Targets(g, now)[id].candidate.instrumentId in probe.quotes then {id} else {};
  }

  lemma AllRefreshed(g: Groups, now: int, seen: set<TrajectoryId>, probe: Probe)
    requires seen == Targets(g, now).Keys
    ensures RefreshedAmong(g, now, seen, probe) == Refreshed(g, now, Some(probe))
    ensures AnsweredAmong(g, now, seen, probe) == Answered(g, now, Some(probe))
  {
    hide TargetOf;
  }
}
