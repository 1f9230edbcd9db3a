/**
  The live evaluation of one or more vaulted snapshots: merge their bars, drop
  what had not closed, validate the reference bars, and run the strategy.
 */
module UniverseEvaluation {
  import opened Common
  import opened Indicators
  import opened Regime
  import opened Features
  import opened BarSet
  import opened BarMerge

  const REFERENCE_SYMBOLS := ["SPY", "QQQ"]

  datatype Policy = Policy(
    intervalMinutes: Count, confirmations: Count, lookback: Count, volumeLookback: Count,
    minimumVolumeRatio: real, receiptDelaySeconds: int, latestLagSeconds: int)

  datatype Violation = ReferenceBarsMissing(symbol: string) | BarViolation(reason: BarReason)

  datatype Evaluation =
    | Failed(reason: string)
    | Evaluated(receivedAt: int, violations: seq<Violation>, regime: RegimeDecision,
                decisions: map<string, SignalDecision>, admissible: bool, signalled: set<string>, qualified: set<string>)

  // ----------------------------------------------- the evaluated histories

  /** The oldest of the receipt times. */
  function Oldest(receipts: seq<int>): (r: int)
    requires receipts != []
    ensures r in receipts && forall x :: x in receipts ==> r <= x
  {
    var last := receipts[|receipts| - 1];
    assert receipts == receipts[..|receipts| - 1] + [last];
    if |receipts| == 1 then last
    else
      var rest := Oldest(receipts[..|receipts| - 1]);
      if last < rest then last else rest
  }

  function Receipts(snapshots: seq<Snapshot>): seq<int>
    requires forall s :: s in snapshots ==> s.receivedAt.Some?
  {
    seq(|snapshots|, i requires 0 <= i < |snapshots| => snapshots[i].receivedAt.value)
  }

  /** The bars of a merged history that had closed at the receipt. */
  function Closed(bars: seq<Bar>, receivedAt: int, intervalMinutes: int): seq<Bar> {
    Filter(bars, (b: Bar) => b.beginsAt <= receivedAt - intervalMinutes * MINUTE)
  }

  /** What one evaluation looks at. */
  datatype Inputs = Inputs(snapshots: seq<Snapshot>, universe: Option<set<string>>, receivedAt: int, policy: Policy)

  predicate Wanted(inp: Inputs, symbol: string) {
    inp.universe.Some? ==> symbol in inp.universe.value
  }

  /** The history a symbol is evaluated on. */
  function History(inp: Inputs, symbol: string): seq<Bar> {
    if Wanted(inp, symbol) then Closed(MergedOver(inp.snapshots, symbol), inp.receivedAt, inp.policy.intervalMinutes) else []
  }

  function Confirmation(inp: Inputs, symbol: string): seq<CompletedMarketBar> {
    LiveBars(History(inp, symbol), inp.receivedAt, inp.policy.intervalMinutes, inp.policy.confirmations)
  }

  function ReferenceBars(inp: Inputs): seq<CompletedMarketBar> {
    Confirmation(inp, "SPY") + Confirmation(inp, "QQQ")
  }

  /** The signal's inputs for one symbol; nothing is known about an empty history. */
  function SymbolSnapshot(symbol: string, bars: seq<Bar>, policy: Policy): UnderlyingSignalSnapshot {
    if bars == [] then UnderlyingSignalSnapshot(symbol, None, None, None, None, None, None, None, None)
    else LiveSnapshot(symbol, bars, policy.lookback, policy.volumeLookback)
  }

  function MarketOf(inp: Inputs): RegimeDecision {
    RegimeOf(ReferenceBars(inp), REFERENCE_SYMBOLS, inp.policy.confirmations)
  }

  function SymbolDecision(inp: Inputs, symbol: string): SignalDecision {
    EvaluateUnderlyingSignal(SymbolSnapshot(symbol, History(inp, symbol), inp.policy), MarketOf(inp).regime,
                             inp.policy.minimumVolumeRatio)
  }

  function Universe(snapshots: seq<Snapshot>): set<string> {
    set s, symbol | s in snapshots && symbol in s.bars :: symbol
  }

  // -------------------------------------------------------------- evaluation

  method MergeSnapshots(snapshots: seq<Snapshot>) returns (grouped: map<string, seq<Bar>>)
    ensures grouped.Keys == Universe(snapshots)
    ensures forall symbol :: BarsFor(grouped, symbol) == MergedOver(snapshots, symbol)
  {
    hide Merged;
    var accumulator := new BarAccumulator();
    for i := 0 to |snapshots|
      invariant accumulator.grouped.Keys == Universe(snapshots[..i])
      invariant forall symbol :: BarsFor(accumulator.grouped, symbol) == MergedOver(snapshots[..i], symbol)
    {
      assert snapshots[..i + 1][..i] == snapshots[..i];
      assert snapshots[..i + 1] == snapshots[..i] + [snapshots[i]];
      accumulator.MergeBars(snapshots[i].bars);
    }
    assert snapshots[..|snapshots|] == snapshots;
    return accumulator.grouped;
  }

  method EvaluateSymbols(grouped: map<string, seq<Bar>>, inp: Inputs, regime: RegimeDecision)
    returns (decisions: map<string, SignalDecision>)
    requires forall symbol :: symbol in grouped ==> grouped[symbol] == History(inp, symbol)
    requires regime == MarketOf(inp)
    ensures decisions == map symbol | symbol in grouped :: SymbolDecision(inp, symbol)
  {
    hide History, MarketOf, EvaluateUnderlyingSignal, WindowSnapshot, LiveSnapshot, EmptyWindow, Prior;
    decisions := map[];
    var remaining := grouped.Keys;
    while remaining != {}
      invariant remaining <= grouped.Keys
      invariant decisions == map symbol | symbol in grouped && symbol !in remaining :: SymbolDecision(inp, symbol)
    {
      var symbol :| symbol in remaining;
      if grouped[symbol] != [] {
        PositiveLookbacks("", grouped[symbol], inp.policy.lookback, inp.policy.volumeLookback);
      }
      var derived := DeriveFeatures(grouped[symbol], inp.policy.lookback, inp.policy.volumeLookback);
      var features := derived.value;
      FeaturesAreSnapshot(symbol, grouped[symbol], features, inp.policy);
      var decision := EvaluateUnderlyingSignal(SnapshotOf(symbol, features), regime.regime, inp.policy.minimumVolumeRatio);
      assert decision == SymbolDecision(inp, symbol);
      hide SymbolDecision;
      decisions := decisions[symbol := decision];
      remaining := remaining - {symbol};
    }
  }

  lemma FeaturesAreSnapshot(symbol: string, bars: seq<Bar>, f: FeatureSet, policy: Policy)
    requires bars == [] ==> SnapshotOf("", f) == UnderlyingSignalSnapshot("", None, None, None, None, None, None, None, None)
    requires bars != [] ==> SnapshotOf("", f) == LiveSnapshot("", bars, policy.lookback, policy.volumeLookback)
    ensures SnapshotOf(symbol, f) == SymbolSnapshot(symbol, bars, policy)
  {
    hide Ema, SessionVwap, Candles, Closes, MaxHigh, MinLow, Volume, LastN, AverageVolume;
  }

  function MissingReference(bars: seq<CompletedMarketBar>, symbol: string, confirmations: int): seq<Violation> {
    if |BarsOf(bars, symbol)| < confirmations then [ReferenceBarsMissing(symbol)] else []
  }

  function Wrap(reasons: seq<BarReason>): seq<Violation> {
    seq(|reasons|, i requires 0 <= i < |reasons| => BarViolation(reasons[i]))
  }

  /** Exactly the violations of the reference bars. */
  ghost predicate Violated(bars: seq<CompletedMarketBar>, v: Violation, receivedAt: int, policy: Policy) {
    match v
    case ReferenceBarsMissing(symbol) => symbol in REFERENCE_SYMBOLS && |BarsOf(bars, symbol)| < policy.confirmations
    case BarViolation(reason) =>
      Reported(bars, reason, Aware(receivedAt), policy.intervalMinutes, policy.latestLagSeconds, 0)
  }

  method ReferenceViolations(bars: seq<CompletedMarketBar>, receivedAt: int, policy: Policy) returns (violations: seq<Violation>)
    requires forall b :: b in bars ==> b.endedAt.Some? && b.endedAt.value.Aware?
    ensures forall v :: v in violations <==> Violated(bars, v, receivedAt, policy)
  {
    var result := ValidateBarSet(bars, Aware(receivedAt), policy.intervalMinutes, policy.receiptDelaySeconds,
                                 Some(policy.latestLagSeconds), 0);
    if result.Failure? {
      MixedHasNaive(bars);
    }
    assert result.Success?;
    hide Reported, BarsOf, Mixed;
    violations := MissingReference(bars, "SPY", policy.confirmations) + MissingReference(bars, "QQQ", policy.confirmations);
    var wrapped := Wrap(result.value);
    forall v ensures v in wrapped <==> v.BarViolation? && v.reason in result.value {
      if v.BarViolation? && v.reason in result.value {
        var i :| 0 <= i < |result.value| && result.value[i] == v.reason;
        assert wrapped[i] == v;
      }
    }
    violations := violations + wrapped;
  }

  /** What a completed evaluation reports. */
  ghost predicate Conforms(inp: Inputs, r: Evaluation) {
    && r.Evaluated? && r.receivedAt == inp.receivedAt && r.regime == MarketOf(inp)
    && (forall v :: v in r.violations <==> Violated(ReferenceBars(inp), v, inp.receivedAt, inp.policy))
    && r.decisions == (map symbol | symbol in Universe(inp.snapshots) && Wanted(inp, symbol) :: SymbolDecision(inp, symbol))
    && r.signalled == (set symbol | symbol in r.decisions && r.decisions[symbol].direction != NO_SIGNAL)
    && (r.admissible <==> r.violations == [])
    && r.qualified == if r.admissible then r.signalled else {}
  }

  /**
    One evaluation. It fails without snapshots or without trusted receipt times;
    otherwise it judges freshness at the oldest receipt, lists exactly the
    violations of the reference bars, and admits signals only if there are none.
   */
  method EvaluateSnapshot(snapshots: seq<Snapshot>, policy: Policy, universe: Option<set<string>>) returns (r: Evaluation)
    ensures snapshots == [] ==> r == Failed("NO_SNAPSHOTS")
    ensures snapshots != [] && (exists s :: s in snapshots && s.receivedAt.None?) ==> r == Failed("NO_TRUSTED_RECEIPT_TIME")
    ensures snapshots != [] && (forall s :: s in snapshots ==> s.receivedAt.Some?) ==>
              Conforms(Inputs(snapshots, universe, Oldest(Receipts(snapshots)), policy), r)
  {
    if snapshots == [] {
      return Failed("NO_SNAPSHOTS");
    }
    hide Conforms;
    var i := 0;
    while i < |snapshots|
      invariant 0 <= i <= |snapshots| && forall j :: 0 <= j < i ==> snapshots[j].receivedAt.Some?
    {
      if snapshots[i].receivedAt.None? {
        return Failed("NO_TRUSTED_RECEIPT_TIME");
      }
      i := i + 1;
    }
    r := EvaluateInputs(Inputs(snapshots, universe, Oldest(Receipts(snapshots)), policy));
  }

  /** The bars that survive the universe and the closing-time filters. */
  method UsableBars(inp: Inputs) returns (grouped: map<string, seq<Bar>>)
    ensures grouped.Keys == set symbol | symbol in Universe(inp.snapshots) && Wanted(inp, symbol)
    ensures forall symbol :: BarsFor(grouped, symbol) == History(inp, symbol)
  {
    var merged := MergeSnapshots(inp.snapshots);
    grouped := map symbol | symbol in merged && Wanted(inp, symbol)
                 :: Closed(merged[symbol], inp.receivedAt, inp.policy.intervalMinutes);
    forall symbol ensures BarsFor(grouped, symbol) == History(inp, symbol) {
      assert BarsFor(merged, symbol) == MergedOver(inp.snapshots, symbol);
    }
  }

  method EvaluateInputs(inp: Inputs) returns (r: Evaluation)
    ensures Conforms(inp, r)
  {
    hide History, MarketOf, Violated, SymbolDecision, Universe, Wanted, RegimeOf, LiveBars;
    var policy := inp.policy;
    var grouped := UsableBars(inp);
    var spy := RollingIndicatorBars(BarsFor(grouped, "SPY"), inp.receivedAt, policy.intervalMinutes, policy.confirmations);
    var qqq := RollingIndicatorBars(BarsFor(grouped, "QQQ"), inp.receivedAt, policy.intervalMinutes, policy.confirmations);
    var reference := spy + qqq;
    assert reference == ReferenceBars(inp);
    ReferenceAware(inp);
    hide ReferenceBars, BarsFor;
    var violations := ReferenceViolations(reference, inp.receivedAt, policy);
    var regime := DetermineMarketRegime(reference, REFERENCE_SYMBOLS, policy.confirmations);
    MarketOfIs(inp);
    forall symbol | symbol in grouped ensures grouped[symbol] == History(inp, symbol) {
      BarsForIs(grouped, symbol);
    }
    var decisions := EvaluateSymbols(grouped, inp, regime);
    var signalled := set symbol | symbol in decisions && decisions[symbol].direction != NO_SIGNAL;
    var admissible := violations == [];
    r := Evaluated(inp.receivedAt, violations, regime, decisions, admissible, signalled, if admissible then signalled else {});
  }

  lemma BarsForIs(grouped: map<string, seq<Bar>>, symbol: string)
    requires symbol in grouped
    ensures BarsFor(grouped, symbol) == grouped[symbol]
  {
  }

  lemma MarketOfIs(inp: Inputs)
    ensures MarketOf(inp) == RegimeOf(ReferenceBars(inp), REFERENCE_SYMBOLS, inp.policy.confirmations)
  {
  }

  lemma ReferenceAware(inp: Inputs)
    ensures forall b :: b in ReferenceBars(inp) ==> b.endedAt.Some? && b.endedAt.value.Aware?
  {
    ConfirmationShape(inp, "SPY");
    ConfirmationShape(inp, "QQQ");
    hide Confirmation;
  }

  /** The provenance of the built bars. */
  lemma ConfirmationShape(inp: Inputs, symbol: string)
    ensures var h, bars := History(inp, symbol), Confirmation(inp, symbol);
            var first := First(|h|, inp.policy.confirmations);
            && |bars| == |h| - first
            && forall i :: 0 <= i < |bars| ==> Provenance(bars[i], h[first + i], inp)
  {
    hide History, LiveBars, LiveBar, First, Provenance;
    var h, bars := History(inp, symbol), Confirmation(inp, symbol);
    var first := First(|h|, inp.policy.confirmations);
    LiveBarsAre(h, inp);
    forall i | 0 <= i < |bars| ensures Provenance(bars[i], h[first + i], inp) {
      LiveBarProvenance(h, first + i, inp);
    }
  }

  lemma LiveBarsAre(h: seq<Bar>, inp: Inputs)
    ensures var bars := LiveBars(h, inp.receivedAt, inp.policy.intervalMinutes, inp.policy.confirmations);
            var first := First(|h|, inp.policy.confirmations);
            && first <= |h| && |bars| == |h| - first
            && forall i :: 0 <= i < |bars| ==> bars[i] == LiveBar(h, first + i, inp.receivedAt, inp.policy.intervalMinutes)
  {
    hide LiveBar;
  }

  predicate Provenance(built: CompletedMarketBar, bar: Bar, inp: Inputs) {
    && built.symbol == bar.symbol && built.completed == Some(true)
    && built.intervalMinutes == Some(inp.policy.intervalMinutes) && built.sourceUpdatedAt == None
    && built.startedAt == Some(Aware(bar.beginsAt))
    && built.endedAt == Some(Aware(bar.beginsAt + inp.policy.intervalMinutes * MINUTE))
    && built.receivedAt == Some(Aware(inp.receivedAt))
  }

  lemma LiveBarProvenance(h: seq<Bar>, i: nat, inp: Inputs)
    requires i < |h|
    ensures Provenance(LiveBar(h, i, inp.receivedAt, inp.policy.intervalMinutes), h[i], inp)
  {
    hide Ema, SessionVwap, Closes, Candles;
  }

  // ------------------------------------------- what the violations can be

  /** Built bars are sound one by one, and in time order within each symbol. */
  ghost predicate Orderly(bars: seq<CompletedMarketBar>, decision: int, interval: int) {
    && (forall i :: 0 <= i < |bars| ==> BarSound(bars[i], decision, interval))
    && (forall i, j :: 0 <= i < j < |bars| && bars[i].symbol == bars[j].symbol
          ==> bars[i].endedAt.value.us <= bars[j].endedAt.value.us)
  }

  lemma {:induction false} ClosedFacts(bars: seq<Bar>, receivedAt: int, intervalMinutes: int)
    requires Sorted(bars)
    ensures Sorted(Closed(bars, receivedAt, intervalMinutes))
    ensures forall b :: b in Closed(bars, receivedAt, intervalMinutes) ==>
              b in bars && b.beginsAt + intervalMinutes * MINUTE <= receivedAt
  {
    if bars != [] {
      var front, last := bars[..|bars| - 1], bars[|bars| - 1];
      SortedFront(bars);
      ClosedFacts(front, receivedAt, intervalMinutes);
      var kept := Closed(front, receivedAt, intervalMinutes);
      forall x | x in kept ensures x.beginsAt <= last.beginsAt {
        assert x in front;
        var i :| 0 <= i < |front| && front[i] == x;
        assert bars[i] == x;
      }
      SortedAppend(kept, last);
    }
  }

  lemma HistoryFacts(inp: Inputs, symbol: string)
    requires forall s :: s in inp.snapshots ==> WellKeyed(s)
    ensures Sorted(History(inp, symbol))
    ensures forall b :: b in History(inp, symbol) ==>
              b.symbol == symbol && b.beginsAt + inp.policy.intervalMinutes * MINUTE <= inp.receivedAt
  {
    MergedOverSorted(inp.snapshots, symbol);
    var merged := MergedOver(inp.snapshots, symbol);
    assert Sorted(merged);
    hide Sorted, MergedOver;
    ClosedFacts(merged, inp.receivedAt, inp.policy.intervalMinutes);
  }

  lemma ConfirmationOrderly(inp: Inputs, symbol: string)
    requires forall s :: s in inp.snapshots ==> WellKeyed(s)
    ensures Orderly(Confirmation(inp, symbol), inp.receivedAt, inp.policy.intervalMinutes)
    ensures forall i :: 0 <= i < |Confirmation(inp, symbol)| ==> Confirmation(inp, symbol)[i].symbol == symbol
  {
    HistoryFacts(inp, symbol);
    ConfirmationShape(inp, symbol);
    var h, bars := History(inp, symbol), Confirmation(inp, symbol);
    hide History, Confirmation;
    var first := First(|h|, inp.policy.confirmations);
    forall i | 0 <= i < |bars| ensures bars[i].symbol == symbol && BarSound(bars[i], inp.receivedAt, inp.policy.intervalMinutes) {
      assert h[first + i] in h;
    }
    hide BarSound;
  }

  lemma ReferenceOrderly(inp: Inputs)
    requires forall s :: s in inp.snapshots ==> WellKeyed(s)
    ensures Orderly(ReferenceBars(inp), inp.receivedAt, inp.policy.intervalMinutes)
  {
    ConfirmationOrderly(inp, "SPY");
    ConfirmationOrderly(inp, "QQQ");
    hide Confirmation, BarSound;
  }

  /**
    On bars the evaluation builds itself, the validator can only find reference
    bars missing, duplicate, out of order or stale.
   */
  lemma OnlyFourViolations(inp: Inputs, v: Violation)
    requires forall s :: s in inp.snapshots ==> WellKeyed(s)
    requires Violated(ReferenceBars(inp), v, inp.receivedAt, inp.policy)
    ensures v.ReferenceBarsMissing? || v.reason.Duplicate? || v.reason.OutOfOrder? || v.reason.LatestCompletedBarStale?
  {
    ReferenceOrderly(inp);
    var bars := ReferenceBars(inp);
    hide ReferenceBars;
    forall i | 0 <= i < |bars| ensures ValidateCompletedBar(bars[i], Aware(inp.receivedAt), inp.policy.intervalMinutes) == [] {
      NoFaultsIff(bars[i], inp.receivedAt, inp.policy.intervalMinutes);
    }
    hide ValidateCompletedBar;
  }

  /** A symbol's reference bars are out of order exactly when two of them are duplicates. */
  lemma DisorderIffDuplicate(inp: Inputs, symbol: string)
    requires forall s :: s in inp.snapshots ==> WellKeyed(s)
    ensures Violated(ReferenceBars(inp), BarViolation(OutOfOrder(symbol)), inp.receivedAt, inp.policy)
            <==> Violated(ReferenceBars(inp), BarViolation(Duplicate(symbol)), inp.receivedAt, inp.policy)
  {
    ReferenceOrderly(inp);
    var bars := ReferenceBars(inp);
    hide ReferenceBars;
    OrderlyDisorder(bars, inp.receivedAt, inp.policy.intervalMinutes, symbol);
  }

  lemma OrderlyDisorder(bars: seq<CompletedMarketBar>, decision: int, interval: int, symbol: string)
    requires Orderly(bars, decision, interval)
    ensures HasDisorder(bars, |bars|, symbol) <==> HasDuplicate(bars, |bars|, symbol)
  {
    OrderlyEnds(bars, decision, interval);
    hide BarSound, LastEnd, StepsBack;
    if HasDisorder(bars, |bars|, symbol) {
      var j :| 0 <= j < |bars| && bars[j].symbol == symbol && StepsBack(bars, j);
      var i := PreviousOf(bars, j);
      assert bars[i].endedAt == bars[j].endedAt;
    }
    if HasDuplicate(bars, |bars|, symbol) {
      var i, j :| 0 <= i < j < |bars| && bars[i].symbol == symbol == bars[j].symbol && bars[i].endedAt == bars[j].endedAt;
      DuplicateStepsBack(bars, decision, interval, i, j);
    }
  }

  lemma OrderlyEnds(bars: seq<CompletedMarketBar>, decision: int, interval: int)
    requires Orderly(bars, decision, interval)
    ensures forall i :: 0 <= i < |bars| ==> bars[i].endedAt.Some? && bars[i].endedAt.value.Aware?
  {
    forall i | 0 <= i < |bars| ensures bars[i].endedAt.Some? && bars[i].endedAt.value.Aware? {
      assert BarSound(bars[i], decision, interval);
    }
  }

  lemma DuplicateStepsBack(bars: seq<CompletedMarketBar>, decision: int, interval: int, i: nat, j: nat)
    requires Orderly(bars, decision, interval) && i < j < |bars|
    requires bars[i].symbol == bars[j].symbol && bars[i].endedAt == bars[j].endedAt
    ensures StepsBack(bars, j)
  {
    OrderlyEnds(bars, decision, interval);
    hide BarSound, LastEnd, StepsBack;
    EarlierBar(bars, i, j);
    var k := PreviousOf(bars, j);
  }

  /** The bar of the same symbol before `j`, and what it says about order. */
  lemma PreviousOf(bars: seq<CompletedMarketBar>, j: nat) returns (i: nat)
    requires j < |bars| && (forall k :: 0 <= k < |bars| ==> bars[k].endedAt.Some?)
    requires LastEnd(bars, j, bars[j].symbol).Some? || StepsBack(bars, j)
    ensures i < j && bars[i].symbol == bars[j].symbol
    ensures StepsBack(bars, j) <==> bars[j].endedAt.value.us <= bars[i].endedAt.value.us
    ensures forall k :: i < k < j ==> bars[k].symbol != bars[j].symbol
  {
    LastEndOfSound(bars, j, bars[j].symbol);
    StepsBackIff(bars, j);
    hide LastEnd, StepsBack;
    i :| 0 <= i < j && bars[i].symbol == bars[j].symbol && bars[i].endedAt == LastEnd(bars, j, bars[j].symbol)
         && forall k :: i < k < j ==> bars[k].symbol != bars[j].symbol;
  }

  lemma EarlierBar(bars: seq<CompletedMarketBar>, i: nat, j: nat)
    requires i < j < |bars| && bars[i].symbol == bars[j].symbol && (forall k :: 0 <= k < |bars| ==> bars[k].endedAt.Some?)
    ensures LastEnd(bars, j, bars[j].symbol).Some?
  {
    LastEndOfSound(bars, j, bars[j].symbol);
    hide LastEnd;
  }

  /**
    An admissible evaluation has all its confirmation bars, strictly increasing,
    closed before every receipt, and no staler than the limit at the oldest one.
   */
  lemma AdmissibleIsSound(inp: Inputs, r: Evaluation, receipts: seq<int>)
    requires forall s :: s in inp.snapshots ==> WellKeyed(s)
    requires Conforms(inp, r) && r.admissible && receipts != [] && inp.receivedAt == Oldest(receipts)
    ensures BarSetSound(ReferenceBars(inp), inp.receivedAt, inp.policy.intervalMinutes, inp.policy.latestLagSeconds)
    ensures forall symbol :: symbol in REFERENCE_SYMBOLS ==> inp.policy.confirmations <= |BarsOf(ReferenceBars(inp), symbol)|
    ensures forall b, t :: b in ReferenceBars(inp) && t in receipts ==> b.endedAt.value.us <= t
  {
    var bars := ReferenceBars(inp);
    assert r.violations == [];
    hide ReferenceBars;
    forall v ensures !Violated(bars, v, inp.receivedAt, inp.policy) {
      assert v !in r.violations;
    }
    hide Conforms;
    UnviolatedIsSound(bars, inp.receivedAt, inp.policy);
    hide BarSetSound, BarsOf;
    forall b, t | b in bars && t in receipts ensures b.endedAt.value.us <= t {
      SoundClosed(bars, inp.receivedAt, inp.policy.intervalMinutes, inp.policy.latestLagSeconds, b);
    }
  }

  lemma SoundClosed(bars: seq<CompletedMarketBar>, decision: int, interval: int, lagSeconds: int, b: CompletedMarketBar)
    requires BarSetSound(bars, decision, interval, lagSeconds) && b in bars
    ensures b.endedAt.Some? && b.endedAt.value.us <= decision
  {
    var i :| 0 <= i < |bars| && bars[i] == b;
    assert BarSound(bars[i], decision, interval);
  }

  lemma UnviolatedIsSound(bars: seq<CompletedMarketBar>, decision: int, policy: Policy)
    requires forall v :: !Violated(bars, v, decision, policy)
    ensures BarSetSound(bars, decision, policy.intervalMinutes, policy.latestLagSeconds)
    ensures forall symbol :: symbol in REFERENCE_SYMBOLS ==> policy.confirmations <= |BarsOf(bars, symbol)|
  {
    hide Reported, BarsOf;
    forall c ensures !Reported(bars, c, Aware(decision), policy.intervalMinutes, policy.latestLagSeconds, 0) {
      assert !Violated(bars, BarViolation(c), decision, policy);
    }
    forall symbol | symbol in REFERENCE_SYMBOLS ensures policy.confirmations <= |BarsOf(bars, symbol)| {
      assert !Violated(bars, ReferenceBarsMissing(symbol), decision, policy);
    }
    hide BarSetSound, Violated;
    NoReasonsIff(bars, decision, policy.intervalMinutes, policy.latestLagSeconds, 0);
  }

  // ------------------------------------------------ the evaluation in plain terms

  /** A symbol's history at each time: the merged bars there if it is wanted and they had closed, else none. */
  lemma HistoryAt(inp: Inputs, symbol: string, t: int)
    ensures At(History(inp, symbol), t)
            == if (inp.universe.Some? ==> symbol in inp.universe.value) && t + inp.policy.intervalMinutes * 60_000_000 <= inp.receivedAt
               then At(MergedOver(inp.snapshots, symbol), t) else []
  {
    ClosedAt(MergedOver(inp.snapshots, symbol), inp.receivedAt, inp.policy.intervalMinutes, t);
    NothingAt(t);
    hide MergedOver, Closed, At;
  }

  lemma NothingAt(t: int)
    ensures At([], t) == []
  {
  }

  lemma {:induction false} ClosedAt(bars: seq<Bar>, receivedAt: int, intervalMinutes: int, t: int)
    ensures At(Closed(bars, receivedAt, intervalMinutes), t) == if t + intervalMinutes * 60_000_000 <= receivedAt then At(bars, t) else []
  {
    hide At;
    if bars == [] {
      NothingAt(t);
      return;
    }
    var front, last := bars[..|bars| - 1], bars[|bars| - 1];
    var kept := Closed(front, receivedAt, intervalMinutes);
    assert bars == front + [last];
    assert Closed(bars, receivedAt, intervalMinutes) == if last.beginsAt + intervalMinutes * 60_000_000 <= receivedAt then kept + [last] else kept;
    hide Closed;
    ClosedAt(front, receivedAt, intervalMinutes, t);
    AtStep(front, last, t);
    AtStep(kept, last, t);
  }

  /** The inputs of a symbol's signal are read off its history. */
  ghost predicate ReadsHistory(u: UnderlyingSignalSnapshot, symbol: string, bars: seq<Bar>, policy: Policy)
    requires bars != []
  {
    var newest := bars[|bars| - 1].candle;
    && u.symbol == symbol && u.close == Some(newest.close) && u.currentVolume == Some(newest.volume) && WeighsSession(bars, u.vwap)
    && ReadsWindows(bars, policy.lookback, policy.volumeLookback, u.breakoutHigh, u.breakdownLow, u.averageVolume)
    && u.emaFast == Ema(Closes(Candles(bars)), 9) && u.emaSlow == Ema(Closes(Candles(bars)), 20)
  }

  lemma SymbolReads(symbol: string, bars: seq<Bar>, policy: Policy)
    ensures bars == [] ==> SymbolSnapshot(symbol, bars, policy).close.None?
    ensures bars != [] ==> ReadsHistory(SymbolSnapshot(symbol, bars, policy), symbol, bars, policy)
  {
    if bars != [] {
      PositiveLookbacks(symbol, bars, policy.lookback, policy.volumeLookback);
      SessionVwapWeighs(bars);
      WindowsRead(bars, policy.lookback, policy.volumeLookback);
    }
    hide LiveSnapshot, Ema, SessionVwap, WeighsSession, ReadsWindows, EmptyWindow, HighOf, LowOf, AverageOf, Closes, Prior;
  }

  /** Both reference symbols have their confirmation bars, and all of them point one way. */
  ghost predicate MarketMoves(inp: Inputs, up: bool) {
    forall s :: s in ["SPY", "QQQ"] ==> Aligned(ReferenceBars(inp), s, inp.policy.confirmations, up)
  }

  /** A symbol breaks out of its range on enough volume, with its averages and on the right side of its session's price. */
  predicate BreaksOut(u: UnderlyingSignalSnapshot, minimumVolumeRatio: real, up: bool) {
    && Known(u) && 0.0 < u.averageVolume.value && 0 <= u.currentVolume.value
    && minimumVolumeRatio <= u.currentVolume.value as real / u.averageVolume.value
    && (if up then u.vwap.value < u.close.value && u.emaSlow.value < u.emaFast.value && u.breakoutHigh.value < u.close.value
        else u.close.value < u.vwap.value && u.emaFast.value < u.emaSlow.value && u.close.value < u.breakdownLow.value)
  }

  lemma DecisionIff(inp: Inputs, symbol: string, up: bool)
    ensures SymbolDecision(inp, symbol).direction == (if up then CALL else PUT)
            <==> && MarketMoves(inp, up)
                 && BreaksOut(SymbolSnapshot(symbol, History(inp, symbol), inp.policy), inp.policy.minimumVolumeRatio, up)
  {
    RegimeIff(ReferenceBars(inp), REFERENCE_SYMBOLS, inp.policy.confirmations, up);
    SignalIff(SymbolSnapshot(symbol, History(inp, symbol), inp.policy), MarketOf(inp).regime, inp.policy.minimumVolumeRatio, up);
    hide RegimeOf, EvaluateUnderlyingSignal, Aligned, ReferenceBars, History, SymbolSnapshot;
  }

  /**
    A symbol qualifies exactly if some snapshot lists it, the universe wants it, no
    violation stands, and it breaks out in the direction in which the market moves.
   */
  lemma QualifiedIff(inp: Inputs, r: Evaluation, symbol: string)
    requires Conforms(inp, r)
    ensures symbol in r.qualified <==>
              && (forall v :: !Violated(ReferenceBars(inp), v, inp.receivedAt, inp.policy))
              && (exists s :: s in inp.snapshots && symbol in s.bars) && (inp.universe.Some? ==> symbol in inp.universe.value)
              && exists up :: MarketMoves(inp, up)
                              && BreaksOut(SymbolSnapshot(symbol, History(inp, symbol), inp.policy), inp.policy.minimumVolumeRatio, up)
  {
    hide MarketMoves, BreaksOut, Violated, MarketOf, ReferenceBars, SymbolDecision, SymbolSnapshot, History;
    DecisionIff(inp, symbol, true);
    DecisionIff(inp, symbol, false);
    assert r.violations == [] <==> forall v :: v !in r.violations by {
      if r.violations != [] { assert r.violations[0] in r.violations; }
    }
    var d := SymbolDecision(inp, symbol).direction;
    assert d != NO_SIGNAL <==> d == CALL || d == PUT;
  }
}
