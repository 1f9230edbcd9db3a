/** Where every recorded number comes from: the quote, probe or chain that a trajectory's events were read off. */
module TrajectoryEvidence {
  import opened Common
  import opened Trajectory

  /** The event records this quote: its bid as the bid, its ask as the ask, its mark as the mark. */
  predicate Quotes(e: Event, q: Quote) {
    e.bid == q.bid && e.ask == q.ask && e.mark == q.mark
  }

  /** The event is about the contract and decision of the candidate `c`. */
  predicate SameContract(e: Event, c: Event) {
    && e.id == c.id && e.instrumentId == c.instrumentId && e.underlying == c.underlying && e.right == c.right && e.strike == c.strike
    && e.decisionTime == c.decisionTime && e.labels == c.labels
  }

  /** The event observes `c` through an answered probe: its instrument's own quote, at the probe's receipt. */
  predicate Observes(e: Event, c: Event, probe: Probe) {
    && c.instrumentId in probe.quotes && Quotes(e, probe.quotes[c.instrumentId]) && SameContract(e, c)
    && e.receivedAt == probe.receivedAt && e.sourceUpdatedAt == probe.source && e.rejections == []
    && e.limit.None? && e.deadline.None? && e.horizonMinutes.None?
  }

  /** The event opens a trajectory on the contract `i` of the chain that the slot read for `symbol`. */
  predicate OpensOn(e: Event, s: Sample, symbol: string, i: Instrument)
    requires symbol in s.snapshots
  {
    var snap := s.snapshots[symbol];
    && i in snap.instruments && i.id in snap.quotes && Quotes(e, snap.quotes[i.id])
    && e.kind == CANDIDATE && e.instrumentId == i.id && e.instrumentId != "" && e.right == i.right && e.strike == i.strike
    && e.underlying == (if i.chainSymbol.Some? then i.chainSymbol.value else "")
    && e.decisionTime == s.now && e.receivedAt == snap.receivedAt && e.sourceUpdatedAt == snap.source
    && e.limit == snap.quotes[i.id].ask && e.deadline == Some(snap.receivedAt + 60_000_000) && e.horizonMinutes == Some(60)
    && e.rejections == [] && e.id.second == s.now / 1_000_000
    && e.id.instrument == (if |i.id| <= 8 then i.id else i.id[..8])
    && e.id.symbol == (if i.chainSymbol.Some? && i.chainSymbol.value != "" then i.chainSymbol.value else "UNKNOWN")
  }

  /** It carries the labels whose thresholds the symbol's reported ratio clears. */
  ghost predicate Labelled(e: Event, s: Sample, symbol: string) {
    && symbol in s.reports && s.reports[symbol].volumeRatio.Some? && e.labels != []
    && forall name :: name in e.labels <==>
         exists k :: 0 <= k < |s.registry| && s.registry[k].0 == name && s.registry[k].1 <= s.reports[symbol].volumeRatio.value
  }

  lemma {:induction false} LabelNames(registry: seq<(string, real)>, ratio: real, name: string)
    ensures name in Labels(registry, ratio) <==> exists k :: 0 <= k < |registry| && registry[k].0 == name && registry[k].1 <= ratio
  {
    if registry != [] {
      LabelNames(registry[..|registry| - 1], ratio, name);
    }
  }

  lemma LabelsForNames(s: Sample, symbol: string, e: Event)
    requires e.labels == LabelsFor(s, symbol) && e.labels != []
    ensures Labelled(e, s, symbol)
  {
    hide Labels;
    forall name ensures name in e.labels <==>
        exists k :: 0 <= k < |s.registry| && s.registry[k].0 == name && s.registry[k].1 <= s.reports[symbol].volumeRatio.value {
      LabelNames(s.registry, s.reports[symbol].volumeRatio.value, name);
    }
  }

  /** What a refresh records, and when it records anything. */
  lemma ObservationIsRead(t: Target, probe: Probe)
    ensures Observation(t, probe).Some? <==> t.candidate.instrumentId in probe.quotes
    ensures Observation(t, probe).Some? ==>
              Observation(t, probe).value.kind == t.kind && Observes(Observation(t, probe).value, t.candidate, probe)
  {
  }

  /** What a slot records of a symbol it opens. */
  lemma OpeningIsRead(s: Sample, symbol: string) returns (i: Instrument)
    requires Opening(s, symbol).Some?
    ensures symbol in s.snapshots && OpensOn(Opening(s, symbol).value, s, symbol, i) && Labelled(Opening(s, symbol).value, s, symbol)
  {
    hide LabelsFor, IsNearest, Labelled;
    var snap := s.snapshots[symbol];
    var k := NearestIndex(snap.instruments, snap.quotes, snap.price.value, s.reports[symbol].right.value).value;
    NearestIsListed(snap.instruments, snap.quotes, snap.price.value, s.reports[symbol].right.value, k);
    i := snap.instruments[k];
    assert i in snap.instruments;
    LabelsForNames(s, symbol, Opening(s, symbol).value);
  }

  /** The window quote is the probe's own quote of the new candidate's instrument. */
  lemma WindowQuoteIsRead(s: Sample, symbol: string, c: Event)
    ensures WindowQuote(s, symbol, c).Some? <==> symbol in s.windows && c.instrumentId in s.windows[symbol].quotes
    ensures WindowQuote(s, symbol, c).Some? ==>
              WindowQuote(s, symbol, c).value.kind == QUOTE && Observes(WindowQuote(s, symbol, c).value, c, s.windows[symbol])
  {
  }

  // ---------------------------------------------------- when something is recorded

  /** The first candidate of a trajectory, by position. */
  ghost predicate IsFirst(events: seq<Event>, i: int, c: Event) {
    0 <= i < |events| && events[i] == c && c.kind == CANDIDATE && forall j :: 0 <= j < i ==> events[j].kind != CANDIDATE
  }

  lemma {:induction false} FirstCandidateIs(events: seq<Event>, c: Event)
    ensures FirstCandidate(events) == Some(c) <==> exists i :: IsFirst(events, i, c)
  {
    if events != [] {
      FirstCandidateIs(events[1..], c);
      if events[0].kind == CANDIDATE {
        assert IsFirst(events, 0, events[0]);
      } else {
        assert forall i :: IsFirst(events[1..], i, c) ==> IsFirst(events, i + 1, c);
        assert forall i :: IsFirst(events, i, c) ==> IsFirst(events[1..], i - 1, c);
      }
    }
  }

  /**
    A trajectory is due exactly when its first candidate was not rejected and nothing
    closed it: for its close from the horizon on (an hour without a recorded one), for
    a quote before.
   */
  lemma DueIff(events: seq<Event>, now: int, t: Target)
    ensures TargetOf(events, now) == Some(t) <==>
              && (exists i :: IsFirst(events, i, t.candidate)) && t.candidate.rejections == []
              && (forall j :: 0 <= j < |events| ==> events[j].kind != HORIZON_CLOSE)
              && var h := t.candidate.horizonMinutes;
                 var minutes := if h == None || h == Some(0) then 60 else h.value;
                 t.kind == if t.candidate.decisionTime + minutes * 60_000_000 <= now then HORIZON_CLOSE else QUOTE
  {
    FirstCandidateIs(events, t.candidate);
    hide FirstCandidate, IsFirst;
  }

  /** The instruments worth asking for are the named ones of the trajectories that are due. */
  lemma WorthAsking(g: Groups, now: int, instrument: string)
    ensures instrument in ProbeIds(Targets(g, now)) <==>
              && instrument != ""
              && exists id :: id in g && TargetOf(g[id], now).Some? && TargetOf(g[id], now).value.candidate.instrumentId == instrument
  {
    hide TargetOf;
    forall id ensures id in Targets(g, now) <==> id in g && TargetOf(g[id], now).Some? {
    }
  }

  /** A distance is the larger of the two differences. */
  lemma GapIs(strike: real, price: real)
    ensures 0.0 <= Gap(strike, price) && (Gap(strike, price) == strike - price || Gap(strike, price) == price - strike)
  {
  }

  /** A contract of the chain on the wanted side, with a strike and a quoted ask. */
  predicate Eligible(snap: ChainSnapshot, right: Right, k: int) {
    && 0 <= k < |snap.instruments| && snap.instruments[k].right == Some(right) && snap.instruments[k].strike.Some?
    && snap.instruments[k].id in snap.quotes && snap.quotes[snap.instruments[k].id].ask.Some?
  }

  /** Of all eligible contracts the nearest to the price, the first of equally near ones. */
  ghost predicate Nearest(snap: ChainSnapshot, price: real, right: Right, k: int) {
    && Eligible(snap, right, k)
    && forall j :: Eligible(snap, right, j) ==>
         && Gap(snap.instruments[k].strike.value, price) <= Gap(snap.instruments[j].strike.value, price)
         && (j < k ==> Gap(snap.instruments[k].strike.value, price) < Gap(snap.instruments[j].strike.value, price))
  }

  lemma NearestIff(snap: ChainSnapshot, price: real, right: Right, k: int)
    ensures 0 <= k && NearestIndex(snap.instruments, snap.quotes, price, right) == Some(k as nat) <==> Nearest(snap, price, right, k)
  {
    hide Gap;
    if Nearest(snap, price, right, k) {
      assert IsNearest(snap.instruments, |snap.instruments|, snap.quotes, price, right, k) by {
        forall j | 0 <= j < |snap.instruments| && Selectable(snap.instruments[j], snap.quotes, right) ensures Eligible(snap, right, j) {
        }
      }
      NearestIndexIs(snap.instruments, snap.quotes, price, right, k);
    }
  }

  /** A symbol opens exactly when it has labels, a direction, a price, and a nearest contract that is named. */
  lemma OpensIff(s: Sample, symbol: string)
    ensures Opening(s, symbol).Some? <==>
              && LabelsFor(s, symbol) != [] && symbol in s.snapshots && symbol in s.reports
              && s.reports[symbol].right.Some? && s.snapshots[symbol].price.Some?
              && exists k :: Nearest(s.snapshots[symbol], s.snapshots[symbol].price.value, s.reports[symbol].right.value, k)
                             && s.snapshots[symbol].instruments[k].id != ""
  {
    hide LabelsFor, NearestIndex, Nearest;
    if symbol in s.snapshots && symbol in s.reports && s.reports[symbol].right.Some? && s.snapshots[symbol].price.Some? {
      var snap, price, right := s.snapshots[symbol], s.snapshots[symbol].price.value, s.reports[symbol].right.value;
      forall k ensures 0 <= k && NearestIndex(snap.instruments, snap.quotes, price, right) == Some(k as nat) <==> Nearest(snap, price, right, k) {
        NearestIff(snap, price, right, k);
      }
    }
  }

  /** Candidates are admitted up to the end of the minute an hour before 12:43. */
  lemma AdmittedIff(now: int)
    ensures HorizonIsObservable(now) <==> now < 704 * 60_000_000
  {
  }

  /** A symbol is ranked by its reported ratio, and by nothing without one. */
  lemma RatioIs(s: Sample, symbol: string)
    ensures Ratio(s, symbol) == if symbol !in s.reports || s.reports[symbol].volumeRatio == None then 0.0
                                else s.reports[symbol].volumeRatio.value
  {
  }

  /** A symbol's labels are those whose thresholds its reported ratio clears. */
  lemma LabelsForIff(s: Sample, symbol: string, name: string)
    ensures name in LabelsFor(s, symbol) <==>
              && symbol in s.reports && s.reports[symbol].volumeRatio.Some?
              && exists k :: 0 <= k < |s.registry| && s.registry[k].0 == name && s.registry[k].1 <= s.reports[symbol].volumeRatio.value
  {
    hide Labels;
    if symbol in s.reports && s.reports[symbol].volumeRatio.Some? {
      LabelNames(s.registry, s.reports[symbol].volumeRatio.value, name);
    }
  }

  function OfRatio(s: Sample, symbols: seq<string>, ratio: real): seq<string> {
    Filter(symbols, (x: string) => Ratio(s, x) == ratio)
  }

  lemma OfRatioStep(s: Sample, symbols: seq<string>, symbol: string, ratio: real)
    ensures OfRatio(s, symbols + [symbol], ratio)
            == if Ratio(s, symbol) == ratio then OfRatio(s, symbols, ratio) + [symbol] else OfRatio(s, symbols, ratio)
  {
    FilterConcat(symbols, [symbol], (x: string) => Ratio(s, x) == ratio);
  }

  lemma {:induction false} InsertKeepsTies(s: Sample, sorted: seq<string>, symbol: string, ratio: real)
    ensures OfRatio(s, InsertByRatio(s, sorted, symbol), ratio) == OfRatio(s, sorted + [symbol], ratio)
  {
    hide OfRatio, Ratio;
    if sorted != [] && Ratio(s, sorted[|sorted| - 1]) < Ratio(s, symbol) {
      var front, last := sorted[..|sorted| - 1], sorted[|sorted| - 1];
      assert sorted == front + [last];
      InsertKeepsTies(s, front, symbol, ratio);
      OfRatioStep(s, InsertByRatio(s, front, symbol), last, ratio);
      OfRatioStep(s, front, symbol, ratio);
      OfRatioStep(s, front, last, ratio);
      OfRatioStep(s, sorted, symbol, ratio);
    }
  }

  /** Among symbols of one ratio, those listed first are tried first. */
  lemma {:induction false} TiesKeepOrder(s: Sample, symbols: seq<string>, ratio: real)
    ensures OfRatio(s, ByRatio(s, symbols), ratio) == OfRatio(s, symbols, ratio)
  {
    hide OfRatio, InsertByRatio;
    if symbols != [] {
      var front, last := symbols[..|symbols| - 1], symbols[|symbols| - 1];
      assert symbols == front + [last];
      TiesKeepOrder(s, front, ratio);
      InsertKeepsTies(s, ByRatio(s, front), last, ratio);
      OfRatioStep(s, ByRatio(s, front), last, ratio);
      OfRatioStep(s, front, last, ratio);
    }
  }

  /** The trajectories that a slot names as opened are those of the symbols it tried that open. */
  lemma {:induction false} OpenedIdsAre(s: Sample, symbols: seq<string>, id: TrajectoryId)
    ensures id in OpenedIds(s, symbols) <==> exists symbol :: symbol in symbols && Opening(s, symbol).Some? && Opening(s, symbol).value.id == id
  {
    hide Opening;
    if symbols != [] {
      var front, last := symbols[..|symbols| - 1], symbols[|symbols| - 1];
      OpenedIdsAre(s, front, id);
      assert symbols == front + [last];
      assert last in symbols;
    }
  }
}
