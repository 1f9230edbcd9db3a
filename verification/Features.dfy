/**
  The strategy's inputs, derived twice: `BuildLocalFeatures` replays raw bars with
  running totals (the backtest), `DeriveFeatures` and `RollingIndicatorBars`
  recompute every value from a vaulted history (the live path).
 */
module Features {
  import opened Common
  import opened Indicators
  import opened Regime

  /** Periods and lookbacks; the versioned policy pins them to positive values. */
  type Count = x: int | 1 <= x witness 1

  const EMA_FAST_PERIODS: Count := 9
  const EMA_SLOW_PERIODS: Count := 20

  /** A bar of the live path: its opening instant, and the UTC offset it was stamped with. */
  datatype Bar = Bar(symbol: string, beginsAt: int, utcOffset: int, candle: Candle)

  /** A bar of the backtest, with its full provenance. */
  datatype RawBar = RawBar(symbol: string, startedAt: Time, endedAt: Time, candle: Candle,
                           sourceUpdatedAt: Option<Time>, receivedAt: Time, completed: bool)

  function Candles(bars: seq<Bar>): seq<Candle> {
    seq(|bars|, i requires 0 <= i < |bars| => bars[i].candle)
  }

  function RawCandles(bars: seq<RawBar>): seq<Candle> {
    seq(|bars|, i requires 0 <= i < |bars| => bars[i].candle)
  }

  // ---------------------------------------------------------- raw validation

  datatype RawFault =
    | RAW_BARS_EMPTY | RAW_BAR_TIME_NOT_TIMEZONE_AWARE | RAW_BAR_SOURCE_TIME_NOT_TIMEZONE_AWARE
    | RAW_BAR_SYMBOL_MIXED | RAW_BAR_INCOMPLETE | RAW_BAR_INTERVAL_INVALID | RAW_BAR_RECEIVED_BEFORE_END
    | RAW_BAR_SOURCE_TIMELINE_INVALID | RAW_BAR_INTERVAL_MISMATCH | RAW_BARS_OUT_OF_ORDER_OR_OVERLAPPING
    | RAW_BAR_OHLC_INVALID | RAW_BAR_VOLUME_INVALID

  /** The first check one bar fails, given where the previous bar ended. */
  function BarFault(bar: RawBar, symbol: string, previousEnd: Option<int>, intervalMinutes: int): Option<RawFault> {
    var c := bar.candle;
    if bar.startedAt.Naive? || bar.endedAt.Naive? || bar.receivedAt.Naive? then Some(RAW_BAR_TIME_NOT_TIMEZONE_AWARE)
    else if bar.sourceUpdatedAt.Some? && bar.sourceUpdatedAt.value.Naive? then Some(RAW_BAR_SOURCE_TIME_NOT_TIMEZONE_AWARE)
    else if bar.symbol != symbol then Some(RAW_BAR_SYMBOL_MIXED)
    else if !bar.completed then Some(RAW_BAR_INCOMPLETE)
    else if bar.endedAt.us <= bar.startedAt.us then Some(RAW_BAR_INTERVAL_INVALID)
    else if bar.endedAt.us > bar.receivedAt.us then Some(RAW_BAR_RECEIVED_BEFORE_END)
    else if bar.sourceUpdatedAt.Some?
            && !(bar.endedAt.us <= bar.sourceUpdatedAt.value.us <= bar.receivedAt.us) then Some(RAW_BAR_SOURCE_TIMELINE_INVALID)
    else if bar.endedAt.us - bar.startedAt.us != intervalMinutes * MINUTE then Some(RAW_BAR_INTERVAL_MISMATCH)
    else if previousEnd.Some? && bar.startedAt.us < previousEnd.value then Some(RAW_BARS_OUT_OF_ORDER_OR_OVERLAPPING)
    else if c.high < c.open || c.high < c.close || c.low > c.open || c.low > c.close || c.low > c.high
      then Some(RAW_BAR_OHLC_INVALID)
    else if c.volume < 0 then Some(RAW_BAR_VOLUME_INVALID)
    else None
  }

  method ValidateRawBars(bars: seq<RawBar>, intervalMinutes: int) returns (fault: Option<RawFault>)
    ensures bars == [] ==> fault == Some(RAW_BARS_EMPTY)
    ensures fault.None? <==> RawBarsSound(bars, intervalMinutes)
    // the reported fault is the first check that the first bad bar fails
    ensures fault.Some? && bars != [] ==>
              exists i :: 0 <= i < |bars| && SoundSequence(bars[..i], bars[0].symbol, intervalMinutes)
                && fault == BarFault(bars[i], bars[0].symbol, if i == 0 then None else Some(bars[i - 1].endedAt.us), intervalMinutes)
  {
    if bars == [] {
      return Some(RAW_BARS_EMPTY);
    }
    var symbol := bars[0].symbol;
    var previousEnd: Option<int> := None;
    for i := 0 to |bars|
      invariant previousEnd == if i == 0 then None else Some(bars[i - 1].endedAt.us)
      invariant SoundSequence(bars[..i], symbol, intervalMinutes)
    {
      fault := BarFault(bars[i], symbol, previousEnd, intervalMinutes);
      FaultIff(bars, i, symbol, intervalMinutes);
      if fault.Some? {
        return;
      }
      previousEnd := Some(bars[i].endedAt.us);
    }
    assert bars[..|bars|] == bars;
    fault := None;
  }

  /** What one bar must satisfy on its own. */
  predicate RawBarSound(bar: RawBar, symbol: string, intervalMinutes: int) {
    && bar.symbol == symbol && bar.completed && ValidCandle(bar.candle)
    && bar.startedAt.Aware? && bar.endedAt.Aware? && bar.receivedAt.Aware?
    && bar.startedAt.us < bar.endedAt.us <= bar.receivedAt.us
    && bar.endedAt.us - bar.startedAt.us == intervalMinutes * MINUTE
    && (bar.sourceUpdatedAt.Some? ==>
          bar.sourceUpdatedAt.value.Aware? && bar.endedAt.us <= bar.sourceUpdatedAt.value.us <= bar.receivedAt.us)
  }

  ghost predicate SoundSequence(bars: seq<RawBar>, symbol: string, intervalMinutes: int) {
    && (forall i :: 0 <= i < |bars| ==> RawBarSound(bars[i], symbol, intervalMinutes))
    && (forall i, j :: 0 <= i < j < |bars| ==> bars[i].endedAt.us <= bars[j].startedAt.us)
  }

  /** One symbol, complete provenance, exact and pairwise disjoint intervals in order, valid prices. */
  ghost predicate RawBarsSound(bars: seq<RawBar>, intervalMinutes: int) {
    bars != [] && SoundSequence(bars, bars[0].symbol, intervalMinutes)
  }

  lemma FaultIff(bars: seq<RawBar>, i: nat, symbol: string, intervalMinutes: int)
    requires i < |bars| && SoundSequence(bars[..i], symbol, intervalMinutes)
    ensures var previousEnd := if i == 0 then None else Some(bars[i - 1].endedAt.us);
            BarFault(bars[i], symbol, previousEnd, intervalMinutes).None? <==> SoundSequence(bars[..i + 1], symbol, intervalMinutes)
    ensures !SoundSequence(bars[..i + 1], symbol, intervalMinutes) ==> !SoundSequence(bars, symbol, intervalMinutes)
  {
    var front, longer := bars[..i], bars[..i + 1];
    assert forall j :: 0 <= j < i ==> longer[j] == front[j];
    if i > 0 {
      assert longer[i - 1] == bars[i - 1] == front[i - 1];
      assert RawBarSound(front[i - 1], symbol, intervalMinutes);
      forall j | 0 <= j < i ensures front[j].endedAt.us <= front[i - 1].endedAt.us {
        assert RawBarSound(front[j], symbol, intervalMinutes);
      }
    }
  }

  // ------------------------------------------------ inputs of one history

  /** Mean volume of the last `lookback` of the given bars, if there are that many. */
  function AverageVolume(prior: seq<Candle>, lookback: Count): Option<real> {
    if lookback <= |prior| then Some(Volume(LastN(prior, lookback)) as real / lookback as real) else None
  }

  /** Volume against its average, when that is positive. */
  function VolumeRatio(volume: int, average: Option<real>): Option<real> {
    if average.Some? && 0.0 < average.value then Some(volume as real / average.value) else None
  }

  /** The signal's inputs after a history, by definition. */
  function SnapshotAt(symbol: string, candles: seq<Candle>, vwap: Option<real>, fast: Count, slow: Count,
                      lookback: Count, volumeLookback: Count): UnderlyingSignalSnapshot
    requires candles != []
  {
    var prior, newest := candles[..|candles| - 1], candles[|candles| - 1];
    UnderlyingSignalSnapshot(
      symbol, Some(newest.close), vwap, Ema(Closes(candles), fast), Ema(Closes(candles), slow),
      if lookback <= |prior| then Some(MaxHigh(LastN(prior, lookback))) else None,
      if lookback <= |prior| then Some(MinLow(LastN(prior, lookback))) else None,
      Some(newest.volume),
      AverageVolume(prior, volumeLookback))
  }

  /** A confirmation bar: the indicator values as they stood when bar `i` closed. */
  function BarAt(symbol: string, candles: seq<Candle>, i: nat, vwap: Option<real>, fast: Count, slow: Count,
                 intervalMinutes: int, startedAt: Time, endedAt: Time, source: Option<Time>, receivedAt: Time, completed: bool)
    : CompletedMarketBar
    requires i < |candles|
  {
    CompletedMarketBar(symbol, Some(candles[i].close), vwap,
                       Ema(Closes(candles)[..i + 1], fast), Ema(Closes(candles)[..i + 1], slow),
                       Some(intervalMinutes), Some(startedAt), Some(endedAt), source, Some(receivedAt), Some(completed))
  }

  function First(length: nat, count: Count): nat {
    if count <= length then length - count else 0
  }

  // ----------------------------------------------------------- backtest path

  datatype FeatureConfig = FeatureConfig(intervalMinutes: int, fast: Count, slow: Count,
                                         lookback: Count, volumeLookback: Count, confirmations: Count)

  /** The confirmation bars of the backtest path. */
  function BacktestBars(bars: seq<RawBar>, cfg: FeatureConfig): seq<CompletedMarketBar> {
    var first := First(|bars|, cfg.confirmations);
    seq(|bars| - first, j requires 0 <= j < |bars| - first => BacktestBar(bars, first + j, cfg))
  }

  function BacktestBar(bars: seq<RawBar>, i: nat, cfg: FeatureConfig): CompletedMarketBar
    requires i < |bars|
  {
    var candles := RawCandles(bars);
    BarAt(bars[i].symbol, candles, i, Vwap(candles[..i + 1]), cfg.fast, cfg.slow, cfg.intervalMinutes,
          bars[i].startedAt, bars[i].endedAt, bars[i].sourceUpdatedAt, bars[i].receivedAt, bars[i].completed)
  }

  function BacktestSnapshot(bars: seq<RawBar>, cfg: FeatureConfig): UnderlyingSignalSnapshot
    requires bars != []
  {
    var candles := RawCandles(bars);
    SnapshotAt(bars[|bars| - 1].symbol, candles, Vwap(candles), cfg.fast, cfg.slow, cfg.lookback, cfg.volumeLookback)
  }

  /** The signal record of the newest bar, from slices of the bars before it. */
  method LatestSignal(symbol: string, candles: seq<Candle>, vwap: Option<real>, fast: Option<real>, slow: Option<real>,
                      cfg: FeatureConfig) returns (signal: UnderlyingSignalSnapshot)
    requires candles != []
    requires fast == Ema(Closes(candles), cfg.fast) && slow == Ema(Closes(candles), cfg.slow)
    ensures signal == SnapshotAt(symbol, candles, vwap, cfg.fast, cfg.slow, cfg.lookback, cfg.volumeLookback)
  {
    hide Ema, Closes, MaxHigh, MinLow, Volume, LastN;
    var latest := |candles| - 1;
    var prior := candles[..latest];
    var breakoutSlice := LastN(prior, cfg.lookback);
    var volumeSlice := LastN(prior, cfg.volumeLookback);
    var breakoutHigh := if |breakoutSlice| == cfg.lookback then Some(MaxHigh(breakoutSlice)) else None;
    var breakdownLow := if |breakoutSlice| == cfg.lookback then Some(MinLow(breakoutSlice)) else None;
    var averageVolume := if |volumeSlice| == cfg.volumeLookback
                         then Some(Volume(volumeSlice) as real / cfg.volumeLookback as real) else None;
    signal := UnderlyingSignalSnapshot(symbol, Some(candles[latest].close), vwap, fast, slow,
                                       breakoutHigh, breakdownLow, Some(candles[latest].volume), averageVolume);
  }

  /** The newest confirmation bars, from the finished indicator series. */
  method ConfirmationBars(bars: seq<RawBar>, vwaps: seq<Option<real>>, fast: seq<Option<real>>, slow: seq<Option<real>>,
                          cfg: FeatureConfig) returns (completed: seq<CompletedMarketBar>)
    requires |vwaps| == |fast| == |slow| == |bars|
    requires forall i :: 0 <= i < |bars| ==> vwaps[i] == Vwap(RawCandles(bars)[..i + 1])
    requires forall i :: 0 <= i < |bars| ==> fast[i] == Ema(Closes(RawCandles(bars))[..i + 1], cfg.fast)
    requires forall i :: 0 <= i < |bars| ==> slow[i] == Ema(Closes(RawCandles(bars))[..i + 1], cfg.slow)
    ensures completed == BacktestBars(bars, cfg)
  {
    hide Ema, Closes, Vwap;
    completed := [];
    var first := First(|bars|, cfg.confirmations);
    for index := first to |bars|
      invariant |completed| == index - first
      invariant forall j :: 0 <= j < |completed| ==> completed[j] == BacktestBar(bars, first + j, cfg)
    {
      var raw := bars[index];
      completed := completed + [CompletedMarketBar(
        raw.symbol, Some(raw.candle.close), vwaps[index], fast[index], slow[index],
        Some(cfg.intervalMinutes), Some(raw.startedAt), Some(raw.endedAt),
        raw.sourceUpdatedAt, Some(raw.receivedAt), Some(raw.completed))];
    }
  }

  method BuildLocalFeatures(bars: seq<RawBar>, cfg: FeatureConfig)
    returns (r: Result<(seq<CompletedMarketBar>, UnderlyingSignalSnapshot), RawFault>)
    ensures r.Success? <==> RawBarsSound(bars, cfg.intervalMinutes)
    ensures r.Success? ==> r.value == (BacktestBars(bars, cfg), BacktestSnapshot(bars, cfg))
  {
    var fault := ValidateRawBars(bars, cfg.intervalMinutes);
    if fault.Some? {
      return Failure(fault.value);
    }
    var candles := RawCandles(bars);
    var closes := Closes(candles);
    assert |closes| == |candles| == |bars|;
    assert candles[..|bars|] == candles && closes[..|bars|] == closes;
    hide RawCandles, Closes, Ema, Vwap, RawBarsSound, SnapshotAt, BacktestBars;
    var fast := EmaSeries(closes, cfg.fast);
    var slow := EmaSeries(closes, cfg.slow);
    var vwaps := CumulativeVwap(candles);
    var latest := |bars| - 1;
    var signal := LatestSignal(bars[latest].symbol, candles, vwaps[latest], fast.value[latest], slow.value[latest], cfg);
    var completed := ConfirmationBars(bars, vwaps, fast.value, slow.value, cfg);
    return Success((completed, signal));
  }

  // --------------------------------------------------------------- live path

  /** The calendar day of a bar, in the offset it was stamped with. */
  function SessionDay(bar: Bar): int {
    (bar.beginsAt + bar.utcOffset) / DAY
  }

  /** The bars of one session, in order. */
  function OfDay(bars: seq<Bar>, day: int): seq<Bar> {
    Filter(bars, (bar: Bar) => SessionDay(bar) == day)
  }

  /** Average price over the newest bar's own session. */
  function SessionVwap(bars: seq<Bar>): Option<real> {
    if bars == [] then None else Vwap(Candles(OfDay(bars, SessionDay(bars[|bars| - 1]))))
  }

  /** Two bars are of one session exactly if their local times lie in the same 24 hours from midnight. */
  lemma SessionDayIs(bar: Bar)
    ensures SessionDay(bar) * 86_400_000_000 <= bar.beginsAt + bar.utcOffset < (SessionDay(bar) + 1) * 86_400_000_000
  {
  }

  lemma OfDayConcat(a: seq<Bar>, b: seq<Bar>, day: int)
    ensures OfDay(a + b, day) == OfDay(a, day) + OfDay(b, day)
  {
    FilterConcat(a, b, (bar: Bar) => SessionDay(bar) == day);
  }

  lemma OfDayNone(bars: seq<Bar>, day: int)
    requires forall bar :: bar in bars ==> SessionDay(bar) != day
    ensures OfDay(bars, day) == []
  {
    FilterNone(bars, (bar: Bar) => SessionDay(bar) == day);
  }

  lemma OfDayAll(bars: seq<Bar>, day: int)
    requires forall bar :: bar in bars ==> SessionDay(bar) == day
    ensures OfDay(bars, day) == bars
  {
    FilterAll(bars, (bar: Bar) => SessionDay(bar) == day);
  }

  /** A bar of another session than the newest one's makes no difference, wherever it stands. */
  lemma OtherSessionsAreIgnored(front: seq<Bar>, other: Bar, back: seq<Bar>)
    requires back != [] && SessionDay(other) != SessionDay(back[|back| - 1])
    ensures SessionVwap(front + [other] + back) == SessionVwap(front + back)
  {
    hide SessionDay, OfDay;
    var day := SessionDay(back[|back| - 1]);
    OfDayNone([other], day);
    OfDayConcat(front, [other], day);
    OfDayConcat(front + [other], back, day);
    OfDayConcat(front, back, day);
    var with, without := front + [other] + back, front + back;
    assert with[|with| - 1] == back[|back| - 1] && without[|without| - 1] == back[|back| - 1];
    assert OfDay(with, day) == OfDay(without, day);
  }

  /** The newest bar's session begins at position `k`: none of it before, nothing else behind. */
  predicate BeginsSession(bars: seq<Bar>, k: nat) {
    k < |bars| && forall i :: 0 <= i < |bars| ==> (SessionDay(bars[i]) == SessionDay(bars[|bars| - 1]) <==> k <= i)
  }

  /** However many sessions a window has, the price is that of the newest one alone. */
  lemma OwnSessionOnly(bars: seq<Bar>, k: nat)
    requires BeginsSession(bars, k)
    ensures SessionVwap(bars) == Vwap(Candles(bars[k..]))
  {
    hide SessionDay, OfDay;
    var day := SessionDay(bars[|bars| - 1]);
    OfDayNone(bars[..k], day);
    OfDayAll(bars[k..], day);
    OfDayConcat(bars[..k], bars[k..], day);
    assert bars == bars[..k] + bars[k..];
    assert OfDay(bars, day) == bars[k..];
  }

  /** An average price by its weights: there is one exactly if shares were traded. */
  ghost predicate Weighs(candles: seq<Candle>, vwap: Option<real>) {
    && (vwap.Some? <==> 0.0 < Sum(Shares(candles)))
    && (vwap.Some? ==> 3.0 * vwap.value * Sum(Shares(candles)) == Sum(ThriceTraded(candles)))
  }

  ghost predicate WeighsSession(bars: seq<Bar>, vwap: Option<real>) {
    forall k: nat :: BeginsSession(bars, k) ==> Weighs(Candles(bars[k..]), vwap)
  }

  lemma SessionVwapWeighs(bars: seq<Bar>)
    requires bars != []
    ensures WeighsSession(bars, SessionVwap(bars))
  {
    hide SessionDay, SessionVwap, Vwap, Weighs;
    forall k: nat | BeginsSession(bars, k) ensures Weighs(Candles(bars[k..]), SessionVwap(bars)) {
      OwnSessionOnly(bars, k);
      CandlesWeigh(Candles(bars[k..]));
    }
  }

  lemma CandlesWeigh(candles: seq<Candle>)
    ensures Weighs(candles, Vwap(candles))
  {
    VwapIsWeighted(candles);
    hide Vwap, Shares, ThriceTraded, Sum;
  }

  datatype Insufficiency =
    | NO_BARS | INSUFFICIENT_BREAKOUT_LOOKBACK | INSUFFICIENT_VOLUME_LOOKBACK | INSUFFICIENT_EMA_HISTORY | NO_SESSION_VWAP

  datatype FeatureSet = FeatureSet(
    barCount: nat, close: Option<real>, vwap: Option<real>, emaFast: Option<real>, emaSlow: Option<real>,
    breakoutHigh: Option<real>, breakdownLow: Option<real>, currentVolume: Option<int>, averageVolume: Option<real>,
    volumeRatio: Option<real>, newestBarBeginsAt: Option<int>, insufficient: seq<Insufficiency>)

  /** The signal's inputs, read from a feature record. */
  function SnapshotOf(symbol: string, f: FeatureSet): UnderlyingSignalSnapshot {
    UnderlyingSignalSnapshot(symbol, f.close, f.vwap, f.emaFast, f.emaSlow, f.breakoutHigh, f.breakdownLow,
                             f.currentVolume, f.averageVolume)
  }

  function LiveSnapshot(symbol: string, bars: seq<Bar>, lookback: Count, volumeLookback: Count): UnderlyingSignalSnapshot
    requires bars != []
  {
    SnapshotAt(symbol, Candles(bars), SessionVwap(bars), EMA_FAST_PERIODS, EMA_SLOW_PERIODS, lookback, volumeLookback)
  }

  /** One code for each group of values that stayed unknown, in order. */
  function Unfilled(f: FeatureSet): seq<Insufficiency> {
    (if f.breakoutHigh.None? then [INSUFFICIENT_BREAKOUT_LOOKBACK] else [])
    + (if f.averageVolume.None? then [INSUFFICIENT_VOLUME_LOOKBACK] else [])
    + (if f.emaFast.None? || f.emaSlow.None? then [INSUFFICIENT_EMA_HISTORY] else [])
    + (if f.vwap.None? then [NO_SESSION_VWAP] else [])
  }

  /** A lookback below one selects from the front; it stops the path where that leaves no bar. */
  datatype FeatureError = EMPTY_BREAKOUT_WINDOW | EMPTY_VOLUME_WINDOW

  predicate EmptyWindow(prior: seq<Candle>, lookback: int) {
    lookback <= |prior| && LastN(prior, lookback) == []
  }

  function Prior(bars: seq<Bar>): seq<Candle>
    requires bars != []
  {
    Candles(bars)[..|bars| - 1]
  }

  /** The signal's inputs for lookbacks of any sign. */
  function WindowSnapshot(symbol: string, bars: seq<Bar>, lookback: int, volumeLookback: int): UnderlyingSignalSnapshot
    requires bars != [] && !EmptyWindow(Prior(bars), lookback) && !EmptyWindow(Prior(bars), volumeLookback)
  {
    var closes := Closes(Candles(bars));
    UnderlyingSignalSnapshot(
      symbol, Some(bars[|bars| - 1].candle.close), SessionVwap(bars), Ema(closes, EMA_FAST_PERIODS), Ema(closes, EMA_SLOW_PERIODS),
      HighOf(Prior(bars), lookback), LowOf(Prior(bars), lookback), Some(bars[|bars| - 1].candle.volume),
      AverageOf(Prior(bars), volumeLookback))
  }

  function HighOf(prior: seq<Candle>, lookback: int): Option<real>
    requires !EmptyWindow(prior, lookback)
  {
    if lookback <= |prior| then Some(MaxHigh(LastN(prior, lookback))) else None
  }

  function LowOf(prior: seq<Candle>, lookback: int): Option<real>
    requires !EmptyWindow(prior, lookback)
  {
    if lookback <= |prior| then Some(MinLow(LastN(prior, lookback))) else None
  }

  function AverageOf(prior: seq<Candle>, lookback: int): Option<real>
    requires !EmptyWindow(prior, lookback)
  {
    if lookback <= |prior| then Some(Volume(LastN(prior, lookback)) as real / |LastN(prior, lookback)| as real) else None
  }

  /** For lookbacks of at least one the window is never empty, and both paths mean the same inputs. */
  lemma PositiveLookbacks(symbol: string, bars: seq<Bar>, lookback: Count, volumeLookback: Count)
    requires bars != []
    ensures !EmptyWindow(Prior(bars), lookback) && !EmptyWindow(Prior(bars), volumeLookback)
    ensures WindowSnapshot(symbol, bars, lookback, volumeLookback) == LiveSnapshot(symbol, bars, lookback, volumeLookback)
  {
    hide Ema, Closes, LastN, MaxHigh, MinLow, Volume, SessionVwap;
  }

  /** The greatest high of the bars at positions `from` to `to`. */
  ghost predicate HighOver(bars: seq<Bar>, from: nat, to: nat, high: real)
    requires to <= |bars|
  {
    && (forall i :: from <= i < to ==> bars[i].candle.high <= high)
    && exists i :: from <= i < to && bars[i].candle.high == high
  }

  ghost predicate LowOver(bars: seq<Bar>, from: nat, to: nat, low: real)
    requires to <= |bars|
  {
    && (forall i :: from <= i < to ==> low <= bars[i].candle.low)
    && exists i :: from <= i < to && bars[i].candle.low == low
  }

  function VolumesOver(bars: seq<Bar>, from: nat, to: nat): seq<real>
    requires from <= to <= |bars|
  {
    seq(to - from, i requires 0 <= i < to - from => bars[from + i].candle.volume as real)
  }

  /** The windows, by the positions of the bars themselves: the `lookback` bars right before the newest one. */
  ghost predicate ReadsWindows(bars: seq<Bar>, lookback: Count, volumeLookback: Count,
                               high: Option<real>, low: Option<real>, average: Option<real>)
    requires bars != []
  {
    var n := |bars| - 1;
    && (high.Some? <==> lookback <= n) && (low.Some? <==> lookback <= n) && (average.Some? <==> volumeLookback <= n)
    && (lookback <= n ==> HighOver(bars, n - lookback, n, high.value) && LowOver(bars, n - lookback, n, low.value))
    && (volumeLookback <= n ==> average.value * volumeLookback as real == Sum(VolumesOver(bars, n - volumeLookback, n)))
  }

  lemma WindowAt(bars: seq<Bar>, lookback: Count)
    requires bars != [] && lookback <= |bars| - 1
    ensures var n, w := |bars| - 1, LastN(Prior(bars), lookback);
            |w| == lookback && forall k :: 0 <= k < lookback ==> w[k] == bars[n - lookback + k].candle
  {
    LastNAt(Prior(bars), lookback);
    hide LastN;
  }

  lemma ExtremesOver(bars: seq<Bar>, lookback: Count)
    requires bars != [] && lookback <= |bars| - 1
    ensures var n, w := |bars| - 1, LastN(Prior(bars), lookback);
            w != [] && HighOver(bars, n - lookback, n, MaxHigh(w)) && LowOver(bars, n - lookback, n, MinLow(w))
  {
    hide LastN, Prior;
    WindowAt(bars, lookback);
    var n, w := |bars| - 1, LastN(Prior(bars), lookback);
    var high, low := MaxHigh(w), MinLow(w);
    forall i | n - lookback <= i < n ensures bars[i].candle.high <= high && low <= bars[i].candle.low {
      assert w[i - (n - lookback)] == bars[i].candle;
    }
    var h :| 0 <= h < |w| && w[h].high == high;
    assert bars[n - lookback + h].candle.high == high;
    var l :| 0 <= l < |w| && w[l].low == low;
    assert bars[n - lookback + l].candle.low == low;
  }

  lemma VolumeOver(bars: seq<Bar>, lookback: Count)
    requires bars != [] && lookback <= |bars| - 1
    ensures var n, w := |bars| - 1, LastN(Prior(bars), lookback);
            |w| == lookback && Volume(w) as real / lookback as real * lookback as real == Sum(VolumesOver(bars, n - lookback, n))
  {
    hide LastN, Prior;
    WindowAt(bars, lookback);
    var n, w := |bars| - 1, LastN(Prior(bars), lookback);
    assert Shares(w) == VolumesOver(bars, n - lookback, n);
    TotalsAreSums(w);
    TimesBack(Volume(w) as real, lookback as real);
    hide Volume, Shares, VolumesOver;
  }

  lemma WindowsRead(bars: seq<Bar>, lookback: Count, volumeLookback: Count)
    requires bars != [] && !EmptyWindow(Prior(bars), lookback) && !EmptyWindow(Prior(bars), volumeLookback)
    ensures ReadsWindows(bars, lookback, volumeLookback, HighOf(Prior(bars), lookback), LowOf(Prior(bars), lookback),
                         AverageOf(Prior(bars), volumeLookback))
  {
    hide LastN, HighOver, LowOver, VolumesOver, EmptyWindow;
    assert |Prior(bars)| == |bars| - 1;
    hide Prior;
    if lookback <= |bars| - 1 {
      ExtremesOver(bars, lookback);
    }
    if volumeLookback <= |bars| - 1 {
      VolumeOver(bars, volumeLookback);
    }
  }

  /** What the inputs are, read off the bars: nothing here is said through the functions that compute them. */
  ghost predicate ReadsOff(bars: seq<Bar>, lookback: Count, volumeLookback: Count, f: FeatureSet)
    requires bars != []
  {
    var newest := bars[|bars| - 1].candle;
    && f.close == Some(newest.close) && f.currentVolume == Some(newest.volume) && WeighsSession(bars, f.vwap)
    && ReadsWindows(bars, lookback, volumeLookback, f.breakoutHigh, f.breakdownLow, f.averageVolume)
    && (f.volumeRatio.Some? <==> f.averageVolume.Some? && 0.0 < f.averageVolume.value)
    && (f.volumeRatio.Some? ==> f.volumeRatio.value * f.averageVolume.value == newest.volume as real)
    && f.emaFast == Ema(Closes(Candles(bars)), 9) && f.emaSlow == Ema(Closes(Candles(bars)), 20)
  }

  lemma FeaturesRead(bars: seq<Bar>, lookback: Count, volumeLookback: Count, f: FeatureSet)
    requires bars != [] && !EmptyWindow(Prior(bars), lookback) && !EmptyWindow(Prior(bars), volumeLookback)
    requires SnapshotOf("", f) == WindowSnapshot("", bars, lookback, volumeLookback)
    requires f.volumeRatio == VolumeRatio(bars[|bars| - 1].candle.volume, f.averageVolume)
    ensures ReadsOff(bars, lookback, volumeLookback, f)
  {
    hide Prior, EmptyWindow, HighOf, LowOf, AverageOf, WeighsSession, ReadsWindows, Ema, SessionVwap;
    SessionVwapWeighs(bars);
    WindowsRead(bars, lookback, volumeLookback);
    if f.averageVolume.Some? && 0.0 < f.averageVolume.value {
      TimesBack(bars[|bars| - 1].candle.volume as real, f.averageVolume.value);
    }
  }

  method DeriveFeatures(bars: seq<Bar>, lookback: int, volumeLookback: int) returns (r: Result<FeatureSet, FeatureError>)
    ensures r.Failure? <==> bars != [] && (EmptyWindow(Prior(bars), lookback) || EmptyWindow(Prior(bars), volumeLookback))
    ensures r.Failure? ==> r.error == if EmptyWindow(Prior(bars), lookback) then EMPTY_BREAKOUT_WINDOW else EMPTY_VOLUME_WINDOW
    ensures r.Success? && bars == [] ==>
              r.value.insufficient == [NO_BARS]
              && SnapshotOf("", r.value) == UnderlyingSignalSnapshot("", None, None, None, None, None, None, None, None)
    ensures r.Success? && bars != [] ==> SnapshotOf("", r.value) == WindowSnapshot("", bars, lookback, volumeLookback)
    ensures r.Success? && bars != [] ==> r.value.insufficient == Unfilled(r.value)
    ensures r.Success? && bars != [] ==> r.value.volumeRatio == VolumeRatio(bars[|bars| - 1].candle.volume, r.value.averageVolume)
    ensures r.Success? && bars != [] && 1 <= lookback && 1 <= volumeLookback ==> ReadsOff(bars, lookback, volumeLookback, r.value)
    ensures r.Success? ==> r.value.barCount == |bars|
    ensures r.Success? ==> r.value.newestBarBeginsAt == if bars == [] then None else Some(bars[|bars| - 1].beginsAt)
  {
    var features := FeatureSet(|bars|, None, None, None, None, None, None, None, None, None, None, []);
    if bars == [] {
      features := features.(insufficient := features.insufficient + [NO_BARS]);
      return Success(features);
    }
    hide Ema, Closes, LastN, SessionVwap, VolumeRatio, HighOf, LowOf, AverageOf, EmptyWindow, ReadsOff;
    var candles := Candles(bars);
    var newest := bars[|bars| - 1];
    features := features.(close := Some(newest.candle.close), currentVolume := Some(newest.candle.volume),
                          newestBarBeginsAt := Some(newest.beginsAt));
    var windowed := WindowFeatures(features, candles[..|bars| - 1], newest.candle.volume, lookback, volumeLookback);
    if windowed.Failure? {
      return Failure(windowed.error);
    }
    features := AverageFeatures(windowed.value, Closes(candles));
    features := features.(vwap := SessionVwap(bars));
    if features.vwap.None? {
      features := features.(insufficient := features.insufficient + [NO_SESSION_VWAP]);
    }
    WindowCodes(Prior(bars), lookback, volumeLookback);
    if 1 <= lookback && 1 <= volumeLookback {
      FeaturesRead(bars, lookback, volumeLookback, features);
    }
    return Success(features);
  }

  lemma WindowCodes(prior: seq<Candle>, lookback: int, volumeLookback: int)
    requires !EmptyWindow(prior, lookback) && !EmptyWindow(prior, volumeLookback)
    ensures HighOf(prior, lookback).None? <==> |prior| < lookback
    ensures AverageOf(prior, volumeLookback).None? <==> |prior| < volumeLookback
  {
  }

  /** The two moving averages. */
  method AverageFeatures(initial: FeatureSet, closes: seq<real>) returns (features: FeatureSet)
    ensures features == initial.(
      emaFast := Ema(closes, EMA_FAST_PERIODS), emaSlow := Ema(closes, EMA_SLOW_PERIODS),
      insufficient := initial.insufficient + (if |closes| < EMA_FAST_PERIODS || |closes| < EMA_SLOW_PERIODS
                                              then [INSUFFICIENT_EMA_HISTORY] else []))
  {
    hide Ema;
    var emaFast := ExponentialMovingAverage(closes, EMA_FAST_PERIODS);
    var emaSlow := ExponentialMovingAverage(closes, EMA_SLOW_PERIODS);
    features := initial.(emaFast := emaFast, emaSlow := emaSlow);
    if emaFast.None? || emaSlow.None? {
      features := features.(insufficient := features.insufficient + [INSUFFICIENT_EMA_HISTORY]);
    }
  }

  /** The features read off the bars before the newest one. */
  method WindowFeatures(initial: FeatureSet, prior: seq<Candle>, newestVolume: int, lookback: int, volumeLookback: int)
    returns (r: Result<FeatureSet, FeatureError>)
    requires initial.breakoutHigh.None? && initial.breakdownLow.None? && initial.averageVolume.None?
    requires initial.volumeRatio.None? && initial.insufficient == []
    ensures r.Failure? <==> EmptyWindow(prior, lookback) || EmptyWindow(prior, volumeLookback)
    ensures r.Failure? ==> r.error == if EmptyWindow(prior, lookback) then EMPTY_BREAKOUT_WINDOW else EMPTY_VOLUME_WINDOW
    ensures r.Success? ==> r.value == initial.(
      breakoutHigh := HighOf(prior, lookback),
      breakdownLow := LowOf(prior, lookback),
      averageVolume := AverageOf(prior, volumeLookback),
      volumeRatio := VolumeRatio(newestVolume, AverageOf(prior, volumeLookback)),
      insufficient := (if |prior| < lookback then [INSUFFICIENT_BREAKOUT_LOOKBACK] else [])
                      + (if |prior| < volumeLookback then [INSUFFICIENT_VOLUME_LOOKBACK] else []))
  {
    hide LastN, MaxHigh, MinLow, Volume;
    var features := initial;
    if |prior| < lookback {
      features := features.(insufficient := features.insufficient + [INSUFFICIENT_BREAKOUT_LOOKBACK]);
    } else {
      var window := LastN(prior, lookback);
      if window == [] {
        return Failure(EMPTY_BREAKOUT_WINDOW);
      }
      features := features.(breakoutHigh := Some(MaxHigh(window)), breakdownLow := Some(MinLow(window)));
    }
    if |prior| < volumeLookback {
      features := features.(insufficient := features.insufficient + [INSUFFICIENT_VOLUME_LOOKBACK]);
    } else {
      var window := LastN(prior, volumeLookback);
      if window == [] {
        return Failure(EMPTY_VOLUME_WINDOW);
      }
      var average := Volume(window) as real / |window| as real;
      features := features.(averageVolume := Some(average));
      if average > 0.0 {
        features := features.(volumeRatio := Some(newestVolume as real / average));
      }
    }
    return Success(features);
  }

  function LiveBar(bars: seq<Bar>, i: nat, receivedAt: int, intervalMinutes: int): CompletedMarketBar
    requires i < |bars|
  {
    BarAt(bars[i].symbol, Candles(bars), i, SessionVwap(bars[..i + 1]), EMA_FAST_PERIODS, EMA_SLOW_PERIODS,
          intervalMinutes, Aware(bars[i].beginsAt), Aware(bars[i].beginsAt + intervalMinutes * MINUTE),
          None, Aware(receivedAt), true)
  }

  /** The confirmation bars of the live path. */
  function LiveBars(bars: seq<Bar>, receivedAt: int, intervalMinutes: int, count: Count): seq<CompletedMarketBar> {
    var first := First(|bars|, count);
    seq(|bars| - first, j requires 0 <= j < |bars| - first => LiveBar(bars, first + j, receivedAt, intervalMinutes))
  }

  lemma PrefixCloses(bars: seq<Bar>, i: nat)
    requires i < |bars|
    ensures Closes(Candles(bars[..i + 1])) == Closes(Candles(bars))[..i + 1]
  {
  }

  /** Bar `index` with the indicator values recomputed from the history up to it. */
  method RollingBar(bars: seq<Bar>, index: nat, receivedAt: int, intervalMinutes: int) returns (built: CompletedMarketBar)
    requires index < |bars|
    ensures built == LiveBar(bars, index, receivedAt, intervalMinutes)
  {
    var window := bars[..index + 1];
    var closes := Closes(Candles(window));
    PrefixCloses(bars, index);
    hide Ema, SessionVwap, Closes;
    var bar := bars[index];
    var emaFast := ExponentialMovingAverage(closes, EMA_FAST_PERIODS);
    var emaSlow := ExponentialMovingAverage(closes, EMA_SLOW_PERIODS);
    built := CompletedMarketBar(
      bar.symbol, Some(bar.candle.close), SessionVwap(window), emaFast, emaSlow, Some(intervalMinutes),
      Some(Aware(bar.beginsAt)), Some(Aware(bar.beginsAt + intervalMinutes * MINUTE)), None,
      Some(Aware(receivedAt)), Some(true));
  }

  /** What a rolling bar is, read off the bars up to position `p`. */
  ghost predicate ReadsBar(bars: seq<Bar>, p: nat, receivedAt: int, intervalMinutes: int, b: CompletedMarketBar)
    requires p < |bars|
  {
    && b.symbol == bars[p].symbol && b.close == Some(bars[p].candle.close) && WeighsSession(bars[..p + 1], b.vwap)
    && b.emaFast == Ema(Closes(Candles(bars[..p + 1])), 9) && b.emaSlow == Ema(Closes(Candles(bars[..p + 1])), 20)
    && b.intervalMinutes == Some(intervalMinutes) && b.completed == Some(true) && b.sourceUpdatedAt == None
    && b.startedAt == Some(Aware(bars[p].beginsAt)) && b.endedAt == Some(Aware(bars[p].beginsAt + intervalMinutes * 60_000_000))
    && b.receivedAt == Some(Aware(receivedAt))
  }

  lemma LiveBarReads(bars: seq<Bar>, p: nat, receivedAt: int, intervalMinutes: int)
    requires p < |bars|
    ensures ReadsBar(bars, p, receivedAt, intervalMinutes, LiveBar(bars, p, receivedAt, intervalMinutes))
  {
    SessionVwapWeighs(bars[..p + 1]);
    PrefixCloses(bars, p);
    hide Ema, SessionVwap, WeighsSession, Closes;
  }

  method RollingIndicatorBars(bars: seq<Bar>, receivedAt: int, intervalMinutes: int, count: Count)
    returns (built: seq<CompletedMarketBar>)
    ensures built == LiveBars(bars, receivedAt, intervalMinutes, count)
    ensures |built| == (if count <= |bars| then count else |bars|)
            && forall j :: 0 <= j < |built| ==> ReadsBar(bars, |bars| - |built| + j, receivedAt, intervalMinutes, built[j])
  {
    hide LiveBar, ReadsBar;
    built := [];
    var startIndex := First(|bars|, count);
    for index := startIndex to |bars|
      invariant |built| == index - startIndex
      invariant forall j :: 0 <= j < |built| ==> built[j] == LiveBar(bars, startIndex + j, receivedAt, intervalMinutes)
      invariant forall j :: 0 <= j < |built| ==> ReadsBar(bars, startIndex + j, receivedAt, intervalMinutes, built[j])
    {
      LiveBarReads(bars, index, receivedAt, intervalMinutes);
      var bar := RollingBar(bars, index, receivedAt, intervalMinutes);
      built := built + [bar];
    }
  }

  // ------------------------------------------------------- the paths agree

  /** The same prices, recorded once for the backtest and once for the live path. */
  ghost predicate SameHistory(raw: seq<RawBar>, live: seq<Bar>) {
    && |raw| == |live|
    && forall i :: 0 <= i < |raw| ==>
         && raw[i].symbol == live[i].symbol && raw[i].candle == live[i].candle
         && raw[i].startedAt == Aware(live[i].beginsAt)
  }

  ghost predicate SingleSession(bars: seq<Bar>) {
    forall i, j :: 0 <= i < |bars| && 0 <= j < |bars| ==> SessionDay(bars[i]) == SessionDay(bars[j])
  }

  /** Within one session the recomputed average price is the cumulative one. */
  lemma SessionVwapIsCumulative(bars: seq<Bar>, i: nat)
    requires SingleSession(bars) && i < |bars|
    ensures SessionVwap(bars[..i + 1]) == Vwap(Candles(bars)[..i + 1])
  {
    var window := bars[..i + 1];
    OfDayAll(window, SessionDay(window[i]));
    assert Candles(window) == Candles(bars)[..i + 1];
  }

  /**
    On one session and with the live periods, every confirmation bar and the newest
    bar carry the same values on both paths.
   */
  lemma PathsAgree(raw: seq<RawBar>, live: seq<Bar>, cfg: FeatureConfig, receivedAt: int, symbol: string)
    requires SameHistory(raw, live) && SingleSession(live) && raw != []
    requires cfg.fast == EMA_FAST_PERIODS && cfg.slow == EMA_SLOW_PERIODS && symbol == raw[|raw| - 1].symbol
    ensures BacktestSnapshot(raw, cfg) == LiveSnapshot(symbol, live, cfg.lookback, cfg.volumeLookback)
    ensures var back, now := BacktestBars(raw, cfg), LiveBars(live, receivedAt, cfg.intervalMinutes, cfg.confirmations);
            && |back| == |now|
            && forall j :: 0 <= j < |back| ==>
                 now[j] == AsLive(back[j], live, |live| - |now| + j, receivedAt, cfg)
  {
    assert RawCandles(raw) == Candles(live);
    forall i | 0 <= i < |live|
      ensures LiveBar(live, i, receivedAt, cfg.intervalMinutes) == AsLive(BacktestBar(raw, i, cfg), live, i, receivedAt, cfg) {
      BarsAgree(raw, live, cfg, receivedAt, i);
    }
    SessionVwapIsCumulative(live, |live| - 1);
    assert live[..|live| - 1 + 1] == live && Candles(live)[..|live| - 1 + 1] == Candles(live);
    hide RawCandles, Candles, SnapshotAt, Vwap, SessionVwap, LiveBar, BacktestBar;
  }

  /** A backtest bar with the live path's provenance. */
  function AsLive(bar: CompletedMarketBar, live: seq<Bar>, i: nat, receivedAt: int, cfg: FeatureConfig): CompletedMarketBar
    requires i < |live|
  {
    bar.(endedAt := Some(Aware(live[i].beginsAt + cfg.intervalMinutes * MINUTE)), sourceUpdatedAt := None,
         receivedAt := Some(Aware(receivedAt)), completed := Some(true))
  }

  lemma BarsAgree(raw: seq<RawBar>, live: seq<Bar>, cfg: FeatureConfig, receivedAt: int, i: nat)
    requires SameHistory(raw, live) && SingleSession(live) && i < |live|
    requires cfg.fast == EMA_FAST_PERIODS && cfg.slow == EMA_SLOW_PERIODS
    ensures LiveBar(live, i, receivedAt, cfg.intervalMinutes) == AsLive(BacktestBar(raw, i, cfg), live, i, receivedAt, cfg)
  {
    assert RawCandles(raw) == Candles(live);
    SessionVwapIsCumulative(live, i);
    hide RawCandles, Candles, Closes, Ema, Vwap, SessionVwap;
  }

  /** The confirmation bars of all reference symbols, concatenated as the evaluators receive them. */
  function BacktestReference(histories: seq<seq<RawBar>>, cfg: FeatureConfig): seq<CompletedMarketBar> {
    if histories == [] then []
    else BacktestReference(histories[..|histories| - 1], cfg) + BacktestBars(histories[|histories| - 1], cfg)
  }

  function LiveReference(histories: seq<seq<Bar>>, receivedAt: int, cfg: FeatureConfig): seq<CompletedMarketBar> {
    if histories == [] then []
    else LiveReference(histories[..|histories| - 1], receivedAt, cfg)
         + LiveBars(histories[|histories| - 1], receivedAt, cfg.intervalMinutes, cfg.confirmations)
  }

  ghost predicate SameHistories(raw: seq<seq<RawBar>>, live: seq<seq<Bar>>) {
    && |raw| == |live|
    && forall k :: 0 <= k < |raw| ==> SameHistory(raw[k], live[k]) && SingleSession(live[k])
  }

  lemma HistoryBarsRelated(raw: seq<RawBar>, live: seq<Bar>, cfg: FeatureConfig, receivedAt: int)
    requires SameHistory(raw, live) && SingleSession(live)
    requires cfg.fast == EMA_FAST_PERIODS && cfg.slow == EMA_SLOW_PERIODS
    ensures Related(BacktestBars(raw, cfg), LiveBars(live, receivedAt, cfg.intervalMinutes, cfg.confirmations), false)
  {
    if raw != [] {
      PathsAgree(raw, live, cfg, receivedAt, raw[|raw| - 1].symbol);
      hide BacktestBars, LiveBars, SameHistory, SingleSession;
    }
  }

  lemma {:induction false} ReferenceBarsAgree(raw: seq<seq<RawBar>>, live: seq<seq<Bar>>, cfg: FeatureConfig, receivedAt: int)
    requires SameHistories(raw, live) && cfg.fast == EMA_FAST_PERIODS && cfg.slow == EMA_SLOW_PERIODS
    ensures Related(BacktestReference(raw, cfg), LiveReference(live, receivedAt, cfg), false)
  {
    if raw != [] {
      var r, l := raw[|raw| - 1], live[|live| - 1];
      ReferenceBarsAgree(raw[..|raw| - 1], live[..|live| - 1], cfg, receivedAt);
      HistoryBarsRelated(r, l, cfg, receivedAt);
      hide BacktestBars, LiveBars, Related;
      RelatedConcat(BacktestReference(raw[..|raw| - 1], cfg), LiveReference(live[..|live| - 1], receivedAt, cfg),
                    BacktestBars(r, cfg), LiveBars(l, receivedAt, cfg.intervalMinutes, cfg.confirmations), false);
    }
  }

  /**
    The backtest and the live path reach the same regime, for the same reasons, and
    the same call, put or no trade, on the same single-session prices.
   */
  lemma SameDecision(rawReferences: seq<seq<RawBar>>, liveReferences: seq<seq<Bar>>, raw: seq<RawBar>, live: seq<Bar>,
                     symbols: seq<string>, cfg: FeatureConfig, receivedAt: int, minimumVolumeRatio: real)
    requires SameHistories(rawReferences, liveReferences)
    requires SameHistory(raw, live) && SingleSession(live) && raw != []
    requires cfg.fast == EMA_FAST_PERIODS && cfg.slow == EMA_SLOW_PERIODS
    ensures var backRegime := RegimeOf(BacktestReference(rawReferences, cfg), symbols, cfg.confirmations);
            var liveRegime := RegimeOf(LiveReference(liveReferences, receivedAt, cfg), symbols, cfg.confirmations);
            && backRegime == liveRegime
            && EvaluateUnderlyingSignal(BacktestSnapshot(raw, cfg), backRegime.regime, minimumVolumeRatio)
               == EvaluateUnderlyingSignal(LiveSnapshot(raw[|raw| - 1].symbol, live, cfg.lookback, cfg.volumeLookback),
                                           liveRegime.regime, minimumVolumeRatio)
  {
    ReferenceBarsAgree(rawReferences, liveReferences, cfg, receivedAt);
    RegimeRelated(BacktestReference(rawReferences, cfg), LiveReference(liveReferences, receivedAt, cfg), symbols, cfg.confirmations, false);
    PathsAgree(raw, live, cfg, receivedAt, raw[|raw| - 1].symbol);
  }

  /** Nor on the live path. */
  lemma NoLiveLookahead(bars: seq<Bar>, more: seq<Bar>, i: nat, receivedAt: int, intervalMinutes: int)
    requires i < |bars|
    ensures LiveBar(bars + more, i, receivedAt, intervalMinutes) == LiveBar(bars, i, receivedAt, intervalMinutes)
  {
    assert (bars + more)[..i + 1] == bars[..i + 1];
    assert Closes(Candles(bars + more))[..i + 1] == Closes(Candles(bars))[..i + 1];
  }

  /** Nothing a later bar says can change the indicator values of an earlier one. */
  lemma NoLookahead(bars: seq<RawBar>, more: seq<RawBar>, i: nat, cfg: FeatureConfig)
    requires i < |bars|
    ensures BacktestBar(bars + more, i, cfg) == BacktestBar(bars, i, cfg)
  {
    assert RawCandles(bars + more)[..i + 1] == RawCandles(bars)[..i + 1];
    assert Closes(RawCandles(bars + more))[..i + 1] == Closes(RawCandles(bars))[..i + 1];
  }

  // ------------------------------------------------ what the values are read off

  /** The closes that averages are taken over are those of the bars, in order. */
  lemma ClosesAreRead(bars: seq<Bar>, raw: seq<RawBar>)
    ensures |Closes(Candles(bars))| == |bars| && forall i :: 0 <= i < |bars| ==> Closes(Candles(bars))[i] == bars[i].candle.close
    ensures |Closes(RawCandles(raw))| == |raw| && forall i :: 0 <= i < |raw| ==> Closes(RawCandles(raw))[i] == raw[i].candle.close
  {
  }

  /** The backtest path yields its newest bars, as many as confirmations are asked for, each with its own provenance. */
  lemma BacktestBarsRead(bars: seq<RawBar>, cfg: FeatureConfig, j: nat)
    requires j < |BacktestBars(bars, cfg)|
    ensures |BacktestBars(bars, cfg)| == if |bars| < cfg.confirmations then |bars| else cfg.confirmations
    ensures var i := |bars| - |BacktestBars(bars, cfg)| + j;
            var b := BacktestBars(bars, cfg)[j];
            && b.symbol == bars[i].symbol && b.close == Some(bars[i].candle.close) && b.intervalMinutes == Some(cfg.intervalMinutes)
            && b.startedAt == Some(bars[i].startedAt) && b.endedAt == Some(bars[i].endedAt) && b.receivedAt == Some(bars[i].receivedAt)
            && b.sourceUpdatedAt == bars[i].sourceUpdatedAt && b.completed == Some(bars[i].completed)
            && Weighs(RawCandles(bars)[..i + 1], b.vwap)
            && b.emaFast == Ema(Closes(RawCandles(bars))[..i + 1], cfg.fast) && b.emaSlow == Ema(Closes(RawCandles(bars))[..i + 1], cfg.slow)
  {
    var i := |bars| - |BacktestBars(bars, cfg)| + j;
    hide Ema, Vwap, Weighs, Closes;
    assert i == First(|bars|, cfg.confirmations) + j;
    assert BacktestBars(bars, cfg)[j] == BacktestBar(bars, i, cfg);
    CandlesWeigh(RawCandles(bars)[..i + 1]);
  }

  /** A code is given exactly for a group of values of which one stayed unknown. */
  lemma UnfilledIff(f: FeatureSet, code: Insufficiency)
    ensures code in Unfilled(f) <==>
              || (code == INSUFFICIENT_BREAKOUT_LOOKBACK && f.breakoutHigh.None?)
              || (code == INSUFFICIENT_VOLUME_LOOKBACK && f.averageVolume.None?)
              || (code == INSUFFICIENT_EMA_HISTORY && (f.emaFast.None? || f.emaSlow.None?))
              || (code == NO_SESSION_VWAP && f.vwap.None?)
  {
  }
}
