/**
  The decision depends on the shape of the price history, not on its unit or
  origin: an increasing affine change of all prices changes nothing, and a
  decreasing one (a mirror, with highs and lows exchanged) swaps the two sides.
 */
module Symmetry {
  import opened Common
  import opened Indicators
  import opened Regime
  import opened Features

  /** The change of price scale `p -> a * p + b`. */
  datatype Scale = Scale(a: real, b: real)

  predicate Proper(s: Scale) {
    s.a != 0.0
  }

  predicate Mirrors(s: Scale) {
    s.a < 0.0
  }

  function Image(s: Scale, x: real): real {
    s.a * x + s.b
  }

  function ImageOf(s: Scale, x: Option<real>): Option<real> {
    if x.None? then None else Some(Image(s, x.value))
  }

  function ImageCandle(s: Scale, c: Candle): Candle {
    if Mirrors(s) then Candle(Image(s, c.open), Image(s, c.low), Image(s, c.high), Image(s, c.close), c.volume)
    else Candle(Image(s, c.open), Image(s, c.high), Image(s, c.low), Image(s, c.close), c.volume)
  }

  function ImageCandles(s: Scale, candles: seq<Candle>): seq<Candle> {
    seq(|candles|, i requires 0 <= i < |candles| => ImageCandle(s, candles[i]))
  }

  function ImageValues(s: Scale, values: seq<real>): seq<real> {
    seq(|values|, i requires 0 <= i < |values| => Image(s, values[i]))
  }

  // -------------------------------------------------------------- arithmetic

  lemma ImageOrder(s: Scale, x: real, y: real)
    requires Proper(s)
    ensures if Mirrors(s) then (x < y <==> Image(s, y) < Image(s, x)) else (x < y <==> Image(s, x) < Image(s, y))
    ensures Image(s, x) == Image(s, y) <==> x == y
  {
    var d := y - x;
    assert Image(s, y) - Image(s, x) == s.a * d;
    SignOfProduct(s.a, d);
  }

  lemma SignOfProduct(a: real, d: real)
    requires a != 0.0
    ensures a > 0.0 ==> (a * d > 0.0 <==> d > 0.0)
    ensures a < 0.0 ==> (a * d > 0.0 <==> d < 0.0)
    ensures a * d == 0.0 <==> d == 0.0
  {
    if d > 0.0 { PositiveProduct(if a > 0.0 then a else -a, d); }
    if d < 0.0 { PositiveProduct(if a > 0.0 then a else -a, -d); }
    assert (-a) * d == -(a * d) && a * (-d) == -(a * d) && (-a) * (-d) == a * d;
  }

  lemma PositiveProduct(x: real, y: real)
    requires x > 0.0 && y > 0.0
    ensures x * y > 0.0
  {
  }

  lemma SmoothImage(s: Scale, previous: real, value: real, period: int)
    requires 1 <= period
    ensures Smooth(Image(s, previous), Image(s, value), period) == Image(s, Smooth(previous, value, period))
  {
    SmoothIdentity(s.a, s.b, previous, value, Alpha(period));
  }

  lemma SmoothIdentity(a: real, b: real, p: real, v: real, alpha: real)
    ensures ((a * v + b) - (a * p + b)) * alpha + (a * p + b) == a * ((v - p) * alpha + p) + b
  {
    var d := v - p;
    assert (a * v + b) - (a * p + b) == a * d;
    assert (a * d) * alpha == a * (d * alpha);
    assert a * (d * alpha + p) == a * (d * alpha) + a * p;
  }

  lemma QuotientImage(s: Scale, total: real, image: real, n: real)
    requires n != 0.0 && image == s.a * total + s.b * n
    ensures image / n == Image(s, total / n)
  {
    var q := total / n;
    assert total == q * n;
    assert image == (s.a * q + s.b) * n;
  }

  lemma ImageCandlesStep(s: Scale, candles: seq<Candle>)
    requires candles != []
    ensures var image, n := ImageCandles(s, candles), |candles| - 1;
            |image| == n + 1 && image[..n] == ImageCandles(s, candles[..n]) && image[n] == ImageCandle(s, candles[n])
  {
    hide ImageCandle;
  }

  lemma ImageValuesStep(s: Scale, values: seq<real>)
    requires values != []
    ensures var image, n := ImageValues(s, values), |values| - 1;
            |image| == n + 1 && image[..n] == ImageValues(s, values[..n]) && image[n] == Image(s, values[n])
  {
    hide Image;
  }

  // -------------------------------------------------------------- indicators

  lemma {:induction false} SumImage(s: Scale, values: seq<real>)
    ensures Sum(ImageValues(s, values)) == s.a * Sum(values) + s.b * |values| as real
  {
    if values != [] {
      var front := values[..|values| - 1];
      ImageValuesStep(s, values);
      SumImage(s, front);
      SumImageStep(s, Sum(front), values[|values| - 1], |front| as real);
      hide ImageValues, Image;
    }
  }

  lemma SumImageStep(s: Scale, total: real, x: real, n: real)
    ensures s.a * total + s.b * n + Image(s, x) == s.a * (total + x) + s.b * (n + 1.0)
  {
  }

  lemma {:induction false} EmaImage(s: Scale, values: seq<real>, period: int)
    requires 1 <= period
    ensures Ema(ImageValues(s, values), period) == ImageOf(s, Ema(values, period))
  {
    var image := ImageValues(s, values);
    assert |image| == |values|;
    if |values| == period {
      SeedImage(s, values);
    } else if period < |values| {
      var front := values[..|values| - 1];
      ImageValuesStep(s, values);
      EmaImage(s, front, period);
      SmoothImage(s, Ema(front, period).value, values[|values| - 1], period);
      hide Smooth, Image, ImageValues;
    }
  }

  lemma SeedImage(s: Scale, values: seq<real>)
    requires values != []
    ensures Sum(ImageValues(s, values)) / |values| as real == Image(s, Sum(values) / |values| as real)
  {
    SumImage(s, values);
    hide Sum, ImageValues, Image;
    QuotientImage(s, Sum(values), Sum(ImageValues(s, values)), |values| as real);
  }

  lemma ImageCloses(s: Scale, candles: seq<Candle>)
    ensures Closes(ImageCandles(s, candles)) == ImageValues(s, Closes(candles))
  {
    hide Image;
  }

  lemma TypicalImage(s: Scale, c: Candle)
    ensures Typical(ImageCandle(s, c)) == s.a * Typical(c) + s.b
    ensures ImageCandle(s, c).volume == c.volume
  {
    assert s.a * (c.high + c.low + c.close) == s.a * c.high + s.a * c.low + s.a * c.close;
  }

  lemma Spread(a: real, b: real, t: real, v: real)
    ensures (a * t + b) * v == a * (t * v) + b * v
  {
  }

  lemma TradedImage(s: Scale, c: Candle)
    ensures Traded(ImageCandle(s, c)) == s.a * Traded(c) + s.b * c.volume as real
  {
    TypicalImage(s, c);
    hide Typical, ImageCandle;
    Spread(s.a, s.b, Typical(c), c.volume as real);
  }

  lemma TotalsStep(candles: seq<Candle>)
    requires candles != []
    ensures var front, last := candles[..|candles| - 1], candles[|candles| - 1];
            Turnover(candles) == Turnover(front) + Traded(last) && Volume(candles) == Volume(front) + last.volume
  {
  }

  /** `image` is where the scale takes a total traded over a volume. */
  predicate Carries(s: Scale, total: real, volume: int, image: real) {
    image == s.a * total + s.b * volume as real
  }

  lemma {:induction false} TurnoverCarries(s: Scale, candles: seq<Candle>)
    ensures Volume(ImageCandles(s, candles)) == Volume(candles)
    ensures Carries(s, Turnover(candles), Volume(candles), Turnover(ImageCandles(s, candles)))
  {
    if candles != [] {
      hide Image, ImageCandles, ImageCandle, Typical, Traded, Turnover, Volume, Carries;
      var image := ImageCandles(s, candles);
      var front, last := candles[..|candles| - 1], candles[|candles| - 1];
      ImageCandlesStep(s, candles);
      TotalsStep(candles);
      TotalsStep(image);
      TurnoverCarries(s, front);
      TypicalImage(s, last);
      TradedCarries(s, last);
      CarriesSum(s, Turnover(front), Volume(front), Turnover(ImageCandles(s, front)),
                 Traded(last), last.volume, Traded(ImageCandle(s, last)));
    }
  }

  lemma TradedCarries(s: Scale, c: Candle)
    ensures Carries(s, Traded(c), c.volume, Traded(ImageCandle(s, c)))
  {
    TradedImage(s, c);
    hide Traded, ImageCandle;
  }

  lemma CarriesSum(s: Scale, total: real, m: int, totalImage: real, traded: real, n: int, tradedImage: real)
    requires Carries(s, total, m, totalImage) && Carries(s, traded, n, tradedImage)
    ensures Carries(s, total + traded, m + n, totalImage + tradedImage)
  {
    assert (m + n) as real == m as real + n as real;
  }

  lemma TurnoverImage(s: Scale, candles: seq<Candle>)
    ensures Volume(ImageCandles(s, candles)) == Volume(candles)
    ensures Turnover(ImageCandles(s, candles)) == s.a * Turnover(candles) + s.b * Volume(candles) as real
  {
    TurnoverCarries(s, candles);
    hide Turnover, Volume, ImageCandles;
  }

  lemma VwapImage(s: Scale, candles: seq<Candle>)
    ensures Vwap(ImageCandles(s, candles)) == ImageOf(s, Vwap(candles))
  {
    hide Turnover, Volume, ImageCandles, Image;
    TurnoverImage(s, candles);
    if 0 < Volume(candles) {
      QuotientImage(s, Turnover(candles), Turnover(ImageCandles(s, candles)), Volume(candles) as real);
    }
  }

  /** Extremes go to extremes; a mirror exchanges the highest high and the lowest low. */
  lemma {:induction false} ExtremesImage(s: Scale, candles: seq<Candle>)
    requires Proper(s) && candles != []
    ensures MaxHigh(ImageCandles(s, candles)) == Image(s, if Mirrors(s) then MinLow(candles) else MaxHigh(candles))
    ensures MinLow(ImageCandles(s, candles)) == Image(s, if Mirrors(s) then MaxHigh(candles) else MinLow(candles))
  {
    var n := |candles| - 1;
    ImageCandlesStep(s, candles);
    if n > 0 {
      var front := candles[..n];
      ExtremesImage(s, front);
      ImageOrder(s, MaxHigh(front), candles[n].high);
      ImageOrder(s, candles[n].low, MinLow(front));
    }
    hide Image, ImageCandles;
  }

  // ---------------------------------------------------------------- decision

  function ImageBars(s: Scale, bars: seq<Bar>): seq<Bar> {
    seq(|bars|, i requires 0 <= i < |bars| => bars[i].(candle := ImageCandle(s, bars[i].candle)))
  }

  lemma CandlesImage(s: Scale, bars: seq<Bar>)
    ensures Candles(ImageBars(s, bars)) == ImageCandles(s, Candles(bars))
  {
  }

  lemma {:induction false} SameDayImage(s: Scale, bars: seq<Bar>, day: int)
    ensures OfDay(ImageBars(s, bars), day) == ImageBars(s, OfDay(bars, day))
  {
    if bars != [] {
      var front := bars[..|bars| - 1];
      SameDayImage(s, front, day);
      ImageBarsStep(s, bars);
      var own := if SessionDay(bars[|front|]) == day then [bars[|front|]] else [];
      ImageBarsConcat(s, OfDay(front, day), own);
      hide ImageBars, ImageCandle, SessionDay;
    }
  }

  lemma ImageBarsStep(s: Scale, bars: seq<Bar>)
    requires bars != []
    ensures var image, n := ImageBars(s, bars), |bars| - 1;
            && |image| == n + 1 && image[..n] == ImageBars(s, bars[..n])
            && [image[n]] == ImageBars(s, [bars[n]]) && SessionDay(image[n]) == SessionDay(bars[n])
  {
    hide ImageCandle;
  }

  lemma ImageBarsConcat(s: Scale, a: seq<Bar>, b: seq<Bar>)
    ensures ImageBars(s, a + b) == ImageBars(s, a) + ImageBars(s, b)
    ensures ImageBars(s, []) == []
  {
    hide ImageCandle;
  }

  lemma SessionVwapImage(s: Scale, bars: seq<Bar>)
    ensures SessionVwap(ImageBars(s, bars)) == ImageOf(s, SessionVwap(bars))
  {
    if bars != [] {
      var day := SessionDay(bars[|bars| - 1]);
      var sameDay := OfDay(bars, day);
      assert SessionDay(ImageBars(s, bars)[|bars| - 1]) == day;
      SameDayImage(s, bars, day);
      CandlesImage(s, sameDay);
      VwapImage(s, Candles(sameDay));
    }
  }

  function ImageBar(s: Scale, bar: CompletedMarketBar): CompletedMarketBar {
    bar.(close := ImageOf(s, bar.close), vwap := ImageOf(s, bar.vwap),
         emaFast := ImageOf(s, bar.emaFast), emaSlow := ImageOf(s, bar.emaSlow))
  }

  lemma BarDirectionImage(s: Scale, bar: CompletedMarketBar)
    requires Proper(s)
    ensures BarDirection(ImageBar(s, bar)) == FlipDirection(BarDirection(bar), Mirrors(s))
  {
    if BarDirection(bar).Some? {
      ImageOrder(s, bar.close.value, bar.vwap.value);
      ImageOrder(s, bar.vwap.value, bar.close.value);
      ImageOrder(s, bar.emaFast.value, bar.emaSlow.value);
      ImageOrder(s, bar.emaSlow.value, bar.emaFast.value);
      hide Image;
    }
  }

  lemma LiveBarImage(s: Scale, bars: seq<Bar>, i: nat, receivedAt: int, interval: int)
    requires i < |bars|
    ensures LiveBar(ImageBars(s, bars), i, receivedAt, interval) == ImageBar(s, LiveBar(bars, i, receivedAt, interval))
  {
    var candles := Candles(bars);
    CandlesImage(s, bars);
    ImageCloses(s, candles);
    var closes := Closes(candles)[..i + 1];
    assert ImageValues(s, Closes(candles))[..i + 1] == ImageValues(s, closes);
    EmaImage(s, closes, EMA_FAST_PERIODS);
    EmaImage(s, closes, EMA_SLOW_PERIODS);
    assert ImageBars(s, bars)[..i + 1] == ImageBars(s, bars[..i + 1]);
    SessionVwapImage(s, bars[..i + 1]);
    hide Ema, SessionVwap, Closes, Image, ImageValues;
  }

  lemma LiveBarsRelated(s: Scale, bars: seq<Bar>, receivedAt: int, interval: int, count: Count)
    requires Proper(s)
    ensures Related(LiveBars(bars, receivedAt, interval, count), LiveBars(ImageBars(s, bars), receivedAt, interval, count), Mirrors(s))
  {
    forall i | 0 <= i < |bars|
      ensures var x, y := LiveBar(bars, i, receivedAt, interval), LiveBar(ImageBars(s, bars), i, receivedAt, interval);
              x.symbol == y.symbol && BarDirection(y) == FlipDirection(BarDirection(x), Mirrors(s))
    {
      LiveBarImage(s, bars, i, receivedAt, interval);
      BarDirectionImage(s, LiveBar(bars, i, receivedAt, interval));
    }
    hide LiveBar, BarDirection, FlipDirection;
  }

  function ImageHistories(s: Scale, histories: seq<seq<Bar>>): seq<seq<Bar>> {
    seq(|histories|, i requires 0 <= i < |histories| => ImageBars(s, histories[i]))
  }

  lemma {:induction false} LiveReferenceRelated(s: Scale, histories: seq<seq<Bar>>, receivedAt: int, cfg: FeatureConfig)
    requires Proper(s)
    ensures Related(LiveReference(histories, receivedAt, cfg), LiveReference(ImageHistories(s, histories), receivedAt, cfg), Mirrors(s))
  {
    if histories != [] {
      var front, last := histories[..|histories| - 1], histories[|histories| - 1];
      LiveReferenceRelated(s, front, receivedAt, cfg);
      assert ImageHistories(s, histories)[..|front|] == ImageHistories(s, front);
      assert ImageHistories(s, histories)[|front|] == ImageBars(s, last);
      LiveBarsRelated(s, last, receivedAt, cfg.intervalMinutes, cfg.confirmations);
      hide Related, LiveBars, ImageHistories;
      RelatedConcat(LiveReference(front, receivedAt, cfg), LiveReference(ImageHistories(s, front), receivedAt, cfg),
                    LiveBars(last, receivedAt, cfg.intervalMinutes, cfg.confirmations),
                    LiveBars(ImageBars(s, last), receivedAt, cfg.intervalMinutes, cfg.confirmations), Mirrors(s));
    }
  }

  /** The signal's inputs under a change of scale; a mirror exchanges the two ends of the range. */
  function ImageSnapshot(s: Scale, x: UnderlyingSignalSnapshot): UnderlyingSignalSnapshot {
    UnderlyingSignalSnapshot(
      x.symbol, ImageOf(s, x.close), ImageOf(s, x.vwap), ImageOf(s, x.emaFast), ImageOf(s, x.emaSlow),
      ImageOf(s, if Mirrors(s) then x.breakdownLow else x.breakoutHigh),
      ImageOf(s, if Mirrors(s) then x.breakoutHigh else x.breakdownLow), x.currentVolume, x.averageVolume)
  }

  lemma LiveSnapshotImage(s: Scale, symbol: string, bars: seq<Bar>, lookback: Count, volumeLookback: Count)
    requires Proper(s) && bars != []
    ensures LiveSnapshot(symbol, ImageBars(s, bars), lookback, volumeLookback)
            == ImageSnapshot(s, LiveSnapshot(symbol, bars, lookback, volumeLookback))
  {
    var candles := Candles(bars);
    CandlesImage(s, bars);
    ImageCloses(s, candles);
    EmaImage(s, Closes(candles), EMA_FAST_PERIODS);
    EmaImage(s, Closes(candles), EMA_SLOW_PERIODS);
    SessionVwapImage(s, bars);
    ImageCandlesStep(s, candles);
    assert candles[|candles| - 1].volume == ImageCandle(s, candles[|candles| - 1]).volume;
    assert Image(s, candles[|candles| - 1].close) == ImageCandle(s, candles[|candles| - 1]).close;
    var prior := candles[..|candles| - 1];
    WindowImage(s, prior, lookback);
    WindowImage(s, prior, volumeLookback);
    assert |ImageCandles(s, prior)| == |prior|;
    hide Ema, SessionVwap, Closes, Image, ImageValues, MaxHigh, MinLow, Volume, LastN, ImageCandles, ImageCandle, Candles, ImageBars;
  }

  /** What the window before the newest bar contributes. */
  lemma WindowImage(s: Scale, prior: seq<Candle>, n: Count)
    requires Proper(s)
    ensures n <= |prior| ==>
              var w, image := LastN(prior, n), LastN(ImageCandles(s, prior), n);
              && Volume(image) == Volume(w)
              && MaxHigh(image) == Image(s, if Mirrors(s) then MinLow(w) else MaxHigh(w))
              && MinLow(image) == Image(s, if Mirrors(s) then MaxHigh(w) else MinLow(w))
  {
    if n <= |prior| {
      var w := LastN(prior, n);
      assert LastN(ImageCandles(s, prior), n) == ImageCandles(s, w);
      hide LastN, ImageCandles, Image, MaxHigh, MinLow, Volume;
      ExtremesImage(s, w);
      TurnoverImage(s, w);
    }
  }

  function FlipSignal(d: SignalDirection, mirrored: bool): SignalDirection {
    if !mirrored || d == NO_SIGNAL then d else if d == CALL then PUT else CALL
  }

  lemma SignalImage(s: Scale, x: UnderlyingSignalSnapshot, regime: MarketRegime, minimumVolumeRatio: real)
    requires Proper(s)
    ensures EvaluateUnderlyingSignal(ImageSnapshot(s, x), Flip(regime, Mirrors(s)), minimumVolumeRatio).direction
            == FlipSignal(EvaluateUnderlyingSignal(x, regime, minimumVolumeRatio).direction, Mirrors(s))
  {
    var y := ImageSnapshot(s, x);
    if Known(x) {
      ImageOrder(s, x.close.value, x.vwap.value);
      ImageOrder(s, x.vwap.value, x.close.value);
      ImageOrder(s, x.emaFast.value, x.emaSlow.value);
      ImageOrder(s, x.emaSlow.value, x.emaFast.value);
      ImageOrder(s, x.breakoutHigh.value, x.close.value);
      ImageOrder(s, x.close.value, x.breakdownLow.value);
    }
    SignalIff(x, regime, minimumVolumeRatio, true);
    SignalIff(x, regime, minimumVolumeRatio, false);
    SignalIff(y, Flip(regime, Mirrors(s)), minimumVolumeRatio, true);
    SignalIff(y, Flip(regime, Mirrors(s)), minimumVolumeRatio, false);
    hide EvaluateUnderlyingSignal, Image;
  }

  /**
    The whole decision under `p -> a * p + b`: unchanged for a > 0, and for a < 0
    the bullish and bearish regimes, and calls and puts, change places while no
    trade stays no trade.
   */
  lemma DecisionSymmetry(s: Scale, references: seq<seq<Bar>>, bars: seq<Bar>, symbol: string, symbols: seq<string>,
                         cfg: FeatureConfig, receivedAt: int, minimumVolumeRatio: real)
    requires Proper(s) && bars != []
    ensures var regime := RegimeOf(LiveReference(references, receivedAt, cfg), symbols, cfg.confirmations);
            var imageRegime := RegimeOf(LiveReference(ImageHistories(s, references), receivedAt, cfg), symbols, cfg.confirmations);
            var signal := EvaluateUnderlyingSignal(
                            LiveSnapshot(symbol, bars, cfg.lookback, cfg.volumeLookback), regime.regime, minimumVolumeRatio);
            var imageSignal := EvaluateUnderlyingSignal(
                             LiveSnapshot(symbol, ImageBars(s, bars), cfg.lookback, cfg.volumeLookback), imageRegime.regime, minimumVolumeRatio);
            && imageRegime.regime == Flip(regime.regime, Mirrors(s)) && imageRegime.reasons == regime.reasons
            && imageSignal.direction == FlipSignal(signal.direction, Mirrors(s))
  {
    var a, b := LiveReference(references, receivedAt, cfg), LiveReference(ImageHistories(s, references), receivedAt, cfg);
    LiveReferenceRelated(s, references, receivedAt, cfg);
    RegimeRelated(a, b, symbols, cfg.confirmations, Mirrors(s));
    LiveSnapshotImage(s, symbol, bars, cfg.lookback, cfg.volumeLookback);
    hide LiveReference, RegimeOf, LiveSnapshot, ImageSnapshot, ImageBars, EvaluateUnderlyingSignal;
    SignalImage(s, LiveSnapshot(symbol, bars, cfg.lookback, cfg.volumeLookback),
                RegimeOf(a, symbols, cfg.confirmations).regime, minimumVolumeRatio);
  }
}
