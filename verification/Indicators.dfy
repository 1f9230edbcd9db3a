/**
  Price candles and the indicators computed from them. Each indicator is defined
  on the history up to and including one bar; the loops below compute the same
  values with running totals.
 */
module Indicators {
  import opened Common

  datatype Candle = Candle(open: real, high: real, low: real, close: real, volume: int)

  predicate ValidCandle(c: Candle) {
    && c.low <= c.open <= c.high && c.low <= c.close <= c.high && 0 <= c.volume
  }

  function Closes(candles: seq<Candle>): seq<real> {
    seq(|candles|, i requires 0 <= i < |candles| => candles[i].close)
  }

  function Typical(c: Candle): real {
    (c.high + c.low + c.close) / 3.0
  }

  /** The money that changed hands in one bar, at its typical price. */
  function Traded(c: Candle): real {
    Typical(c) * c.volume as real
  }

  // ------------------------------------------------- values at one history

  function Alpha(period: int): (r: real)
    requires 1 <= period
    ensures 0.0 < r <= 1.0
  {
    2.0 / (period + 1) as real
  }

  function Smooth(previous: real, value: real, period: int): real
    requires 1 <= period
  {
    (value - previous) * Alpha(period) + previous
  }

  /** Moving average of a history: the mean of the first `period` values, then smoothed. */
  function Ema(values: seq<real>, period: int): (r: Option<real>)
    requires 1 <= period
    ensures r.Some? <==> period <= |values|
  {
    if |values| < period then None
    else if |values| == period then Some(Sum(values) / period as real)
    else
      var previous := Ema(values[..|values| - 1], period).value;
      Some(Smooth(previous, values[|values| - 1], period))
  }

  lemma EmaStep(values: seq<real>, i: nat, period: int)
    requires 1 <= period <= i < |values|
    ensures Ema(values[..i + 1], period) == Some(Smooth(Ema(values[..i], period).value, values[i], period))
  {
    assert values[..i + 1][..i] == values[..i];
    hide Smooth;
  }

  /** The first average of a history is the mean of its values. */
  lemma EmaSeed(values: seq<real>)
    requires values != []
    ensures Ema(values, |values|).Some? && Ema(values, |values|).value * |values| as real == Sum(values)
  {
    hide Sum;
    TimesBack(Sum(values), |values| as real);
  }

  /** Each later one gives its newest value twice the weight of one in `period + 1`, and the average before it the rest. */
  lemma EmaNext(values: seq<real>, period: int)
    requires 1 <= period < |values|
    ensures var n := |values| - 1;
            Ema(values, period).value * (period + 1) as real == 2.0 * values[n] + (period - 1) as real * Ema(values[..n], period).value
  {
    SmoothWeights(Ema(values[..|values| - 1], period).value, values[|values| - 1], period);
    hide Smooth;
  }

  lemma SmoothWeights(previous: real, value: real, period: int)
    requires 1 <= period
    ensures Smooth(previous, value, period) * (period + 1) as real == 2.0 * value + (period - 1) as real * previous
  {
    var n := (period + 1) as real;
    TimesBack(2.0, n);
    Weighted(previous, value, Alpha(period), n);
  }

  lemma Weighted(previous: real, value: real, alpha: real, n: real)
    requires alpha * n == 2.0
    ensures ((value - previous) * alpha + previous) * n == 2.0 * value + (n - 2.0) * previous
  {
    Associate(value - previous, alpha, n);
    Raised((value - previous) * alpha, previous, value, n);
  }

  lemma Raised(rise: real, previous: real, value: real, n: real)
    requires rise * n == (value - previous) * 2.0
    ensures (rise + previous) * n == 2.0 * value + (n - 2.0) * previous
  {
  }

  lemma Associate(x: real, y: real, z: real)
    ensures (x * y) * z == x * (y * z)
  {
  }

  lemma TimesBack(x: real, n: real)
    requires n != 0.0
    ensures (x / n) * n == x
  {
  }

  function Turnover(candles: seq<Candle>): real {
    if candles == [] then 0.0
    else Turnover(candles[..|candles| - 1]) + Traded(candles[|candles| - 1])
  }

  function Volume(candles: seq<Candle>): int {
    if candles == [] then 0
    else Volume(candles[..|candles| - 1]) + candles[|candles| - 1].volume
  }

  function Vwap(candles: seq<Candle>): Option<real> {
    if Volume(candles) <= 0 then None else Some(Turnover(candles) / Volume(candles) as real)
  }

  function Shares(candles: seq<Candle>): seq<real> {
    seq(|candles|, i requires 0 <= i < |candles| => candles[i].volume as real)
  }

  /** Three times the money of a bar, at the mean of its high, low and close. */
  function Thrice(c: Candle): real {
    (c.high + c.low + c.close) * c.volume as real
  }

  function ThriceTraded(candles: seq<Candle>): seq<real> {
    seq(|candles|, i requires 0 <= i < |candles| => Thrice(candles[i]))
  }

  lemma {:induction false} TotalsAreSums(candles: seq<Candle>)
    ensures Volume(candles) as real == Sum(Shares(candles)) && 3.0 * Turnover(candles) == Sum(ThriceTraded(candles))
  {
    hide Thrice, Traded;
    if candles != [] {
      var front, last := candles[..|candles| - 1], candles[|candles| - 1];
      TotalsAreSums(front);
      var shares, thrice := Shares(candles), ThriceTraded(candles);
      assert shares[..|shares| - 1] == Shares(front) && thrice[..|thrice| - 1] == ThriceTraded(front);
      TradedThrice(last);
      hide Shares, ThriceTraded;
    }
  }

  lemma TradedThrice(c: Candle)
    ensures 3.0 * Traded(c) == Thrice(c)
  {
    var thrice := c.high + c.low + c.close;
    TimesBack(thrice, 3.0);
    assert Typical(c) * 3.0 == thrice;
    Associate(3.0, Typical(c), c.volume as real);
  }

  /** The average price is what was traded, each bar at the mean of its high, low and close, over the shares. */
  lemma VwapIsWeighted(candles: seq<Candle>)
    ensures Vwap(candles).Some? <==> 0.0 < Sum(Shares(candles))
    ensures Vwap(candles).Some? ==> 3.0 * Vwap(candles).value * Sum(Shares(candles)) == Sum(ThriceTraded(candles))
  {
    TotalsAreSums(candles);
    hide Turnover, Volume, Shares, ThriceTraded, Sum;
    if 0 < Volume(candles) {
      TimesBack(Turnover(candles), Volume(candles) as real);
    }
  }

  function MaxHigh(candles: seq<Candle>): (r: real)
    requires candles != []
    ensures exists i :: 0 <= i < |candles| && candles[i].high == r
    ensures forall i :: 0 <= i < |candles| ==> candles[i].high <= r
  {
    var last := candles[|candles| - 1].high;
    if |candles| == 1 then last
    else
      var rest := MaxHigh(candles[..|candles| - 1]);
      if rest < last then last else rest
  }

  function MinLow(candles: seq<Candle>): (r: real)
    requires candles != []
    ensures exists i :: 0 <= i < |candles| && candles[i].low == r
    ensures forall i :: 0 <= i < |candles| ==> r <= candles[i].low
  {
    var last := candles[|candles| - 1].low;
    if |candles| == 1 then last
    else
      var rest := MinLow(candles[..|candles| - 1]);
      if last < rest then last else rest
  }

  // --------------------------------------------------------------- the loops

  method ExponentialMovingAverage(closes: seq<real>, periods: int) returns (r: Option<real>)
    ensures r == if periods <= 0 then None else Ema(closes, periods)
    ensures r.Some? <==> 0 < periods <= |closes|
    ensures 0 < periods == |closes| ==> r.value * periods as real == Sum(closes)
    ensures 0 < periods < |closes| ==>
              r.value * (periods + 1) as real
              == 2.0 * closes[|closes| - 1] + (periods - 1) as real * Ema(closes[..|closes| - 1], periods).value
  {
    if periods <= 0 || |closes| < periods {
      return None;
    }
    hide Smooth, Sum;
    var ema := Sum(closes[..periods]) / periods as real;
    var i := periods;
    while i < |closes|
      invariant periods <= i <= |closes|
      invariant Ema(closes[..i], periods) == Some(ema)
    {
      EmaStep(closes, i, periods);
      ema := Smooth(ema, closes[i], periods);
      i := i + 1;
    }
    assert closes[..i] == closes;
    if periods == |closes| {
      EmaSeed(closes);
    } else {
      EmaNext(closes, periods);
    }
    return Some(ema);
  }

  /** The whole series, written into a preallocated list. */
  method EmaSeries(values: seq<real>, period: int) returns (r: Result<seq<Option<real>>, string>)
    ensures r.Failure? <==> period <= 0
    ensures r.Success? ==> |r.value| == |values|
                           && forall i :: 0 <= i < |values| ==> r.value[i] == Ema(values[..i + 1], period)
    ensures r.Success? ==> Averages(values, period, r.value)
  {
    if period <= 0 {
      return Failure("EMA_PERIOD_INVALID");
    }
    var result := new Option<real>[|values|](_ => None);
    if |values| < period {
      EmasAreAverages(values, period, result[..]);
      return Success(result[..]);
    }
    hide Smooth;
    var current := Sum(values[..period]) / period as real;
    result[period - 1] := Some(current);
    var index := period;
    while index < |values|
      invariant period <= index <= |values|
      invariant Ema(values[..index], period) == Some(current)
      invariant forall i :: 0 <= i < index ==> result[i] == Ema(values[..i + 1], period)
    {
      EmaStep(values, index, period);
      current := Smooth(current, values[index], period);
      result[index] := Some(current);
      index := index + 1;
    }
    EmasAreAverages(values, period, result[..]);
    return Success(result[..]);
  }

  /**
    A series of moving averages, by weights: none before the first `period` values, then
    their mean, and from there each new value counts 2 in `period + 1`.
   */
  predicate Averages(values: seq<real>, period: int, series: seq<Option<real>>) {
    && |series| == |values| && 1 <= period
    && forall i :: 0 <= i < |values| ==> AverageStep(values, period, series, i)
  }

  predicate AverageStep(values: seq<real>, period: int, series: seq<Option<real>>, i: nat)
    requires |series| == |values| && 1 <= period && i < |values|
  {
    if i + 1 < period then series[i] == None
    else if i + 1 == period then series[i].Some? && series[i].value * period as real == Sum(values[..period])
    else series[i].Some? && series[i - 1].Some?
         && series[i].value * (period + 1) as real == 2.0 * values[i] + (period - 1) as real * series[i - 1].value
  }

  lemma EmasAreAverages(values: seq<real>, period: int, series: seq<Option<real>>)
    requires 1 <= period && |series| == |values|
    requires forall i :: 0 <= i < |values| ==> series[i] == Ema(values[..i + 1], period)
    ensures Averages(values, period, series)
  {
    hide Ema, Sum;
    forall i | 0 <= i < |values| ensures AverageStep(values, period, series, i) {
      if i + 1 == period {
        EmaSeed(values[..period]);
      } else if period <= i {
        EmaNext(values[..i + 1], period);
        assert values[..i + 1][..i] == values[..i] && series[i - 1] == Ema(values[..i], period);
      }
    }
  }

  /** The weights determine the averages. */
  lemma {:induction false} AveragesAreUnique(values: seq<real>, period: int, a: seq<Option<real>>, b: seq<Option<real>>, i: nat)
    requires Averages(values, period, a) && Averages(values, period, b) && i < |values|
    ensures a[i] == b[i]
  {
    assert AverageStep(values, period, a, i) && AverageStep(values, period, b, i);
    if period <= i {
      AveragesAreUnique(values, period, a, b, i - 1);
      OneQuotient(a[i].value, b[i].value, (period + 1) as real);
    } else if i + 1 == period {
      OneQuotient(a[i].value, b[i].value, period as real);
    }
    hide Sum;
  }

  lemma OneQuotient(x: real, y: real, n: real)
    requires n != 0.0 && x * n == y * n
    ensures x == y
  {
    Quotient(x, n);
    Quotient(y, n);
  }

  lemma Quotient(x: real, n: real)
    requires n != 0.0
    ensures (x * n) / n == x
  {
  }

  /** Running totals give at each bar the average price of the history ending there. */
  method CumulativeVwap(candles: seq<Candle>) returns (result: seq<Option<real>>)
    ensures |result| == |candles|
    ensures forall i :: 0 <= i < |candles| ==> result[i] == Vwap(candles[..i + 1])
  {
    var cumulativeValue, cumulativeVolume := 0.0, 0;
    result := [];
    for i := 0 to |candles|
      invariant |result| == i
      invariant cumulativeValue == Turnover(candles[..i]) && cumulativeVolume == Volume(candles[..i])
      invariant forall j :: 0 <= j < i ==> result[j] == Vwap(candles[..j + 1])
    {
      assert candles[..i + 1][..i] == candles[..i];
      var typical := (candles[i].high + candles[i].low + candles[i].close) / 3.0;
      assert typical * candles[i].volume as real == Traded(candles[i]);
      cumulativeValue := cumulativeValue + typical * candles[i].volume as real;
      cumulativeVolume := cumulativeVolume + candles[i].volume;
      result := result + [if cumulativeVolume > 0 then Some(cumulativeValue / cumulativeVolume as real) else None];
    }
  }

  // ------------------------------------------------------------------ bounds

  lemma TimesMonotone(x: real, y: real, k: real)
    requires x <= y && 0.0 <= k
    ensures x * k <= y * k
  {
  }

  lemma ProductNonneg(x: real, k: real)
    requires 0.0 <= x && 0.0 <= k
    ensures 0.0 <= x * k
  {
  }

  lemma Rising(x: real, y: real, alpha: real)
    requires x <= y && 0.0 <= alpha <= 1.0
    ensures x <= (y - x) * alpha + x <= y
  {
    ProductNonneg(y - x, alpha);
    ProductNonneg(y - x, 1.0 - alpha);
    assert (y - x) * (1.0 - alpha) == (y - x) - (y - x) * alpha;
  }

  lemma Falling(x: real, y: real, alpha: real)
    requires y <= x && 0.0 <= alpha <= 1.0
    ensures y <= (y - x) * alpha + x <= x
  {
    ProductNonneg(x - y, alpha);
    ProductNonneg(x - y, 1.0 - alpha);
    assert (x - y) * (1.0 - alpha) == (x - y) + (y - x) * alpha;
    assert (x - y) * alpha == -((y - x) * alpha);
  }

  lemma SmoothRising(previous: real, value: real, period: int)
    requires 1 <= period && previous <= value
    ensures previous <= Smooth(previous, value, period) <= value
  {
    Rising(previous, value, Alpha(period));
  }

  lemma SmoothFalling(previous: real, value: real, period: int)
    requires 1 <= period && value <= previous
    ensures value <= Smooth(previous, value, period) <= previous
  {
    Falling(previous, value, Alpha(period));
  }

  lemma SmoothBounds(lo: real, hi: real, previous: real, value: real, period: int)
    requires 1 <= period && lo <= previous <= hi && lo <= value <= hi
    ensures lo <= Smooth(previous, value, period) <= hi
  {
    hide Smooth;
    if previous <= value {
      SmoothRising(previous, value, period);
    } else {
      SmoothFalling(previous, value, period);
    }
  }

  lemma {:induction false} SumBounds(s: seq<real>, lo: real, hi: real)
    requires forall i :: 0 <= i < |s| ==> lo <= s[i] <= hi
    ensures lo * |s| as real <= Sum(s) <= hi * |s| as real
  {
    if s != [] {
      SumBounds(s[..|s| - 1], lo, hi);
      Distribute(lo, |s| - 1, 1);
      Distribute(hi, |s| - 1, 1);
    }
  }

  lemma ScaledOrder(x: real, y: real, n: real)
    requires 0.0 < n && x <= y
    ensures x / n <= y / n
  {
  }

  lemma Cancel(x: real, n: real)
    requires 0.0 < n
    ensures (x * n) / n == x
  {
  }

  lemma QuotientBounds(x: real, n: real, lo: real, hi: real)
    requires 0.0 < n && lo * n <= x <= hi * n
    ensures lo <= x / n <= hi
  {
    ScaledOrder(lo * n, x, n);
    ScaledOrder(x, hi * n, n);
    Cancel(lo, n);
    Cancel(hi, n);
  }

  /** The moving average of a history never leaves the range of its closes. */
  lemma {:induction false} EmaBounds(values: seq<real>, period: int, lo: real, hi: real)
    requires 1 <= period <= |values|
    requires forall i :: 0 <= i < |values| ==> lo <= values[i] <= hi
    ensures lo <= Ema(values, period).value <= hi
  {
    hide Smooth, Sum;
    if |values| == period {
      SumBounds(values, lo, hi);
      QuotientBounds(Sum(values), period as real, lo, hi);
    } else {
      EmaBounds(values[..|values| - 1], period, lo, hi);
      SmoothBounds(lo, hi, Ema(values[..|values| - 1], period).value, values[|values| - 1], period);
    }
  }

  lemma CandleBounds(c: Candle, lo: real, hi: real)
    requires ValidCandle(c) && lo <= c.low && c.high <= hi
    ensures lo * c.volume as real <= Traded(c) <= hi * c.volume as real
  {
    TimesMonotone(lo, Typical(c), c.volume as real);
    TimesMonotone(Typical(c), hi, c.volume as real);
  }

  lemma Distribute(k: real, m: int, n: int)
    ensures k * (m + n) as real == k * m as real + k * n as real
  {
    assert (m + n) as real == m as real + n as real;
  }

  lemma {:induction false} TurnoverBounds(candles: seq<Candle>, lo: real, hi: real)
    requires forall i :: 0 <= i < |candles| ==> ValidCandle(candles[i]) && lo <= candles[i].low && candles[i].high <= hi
    ensures 0 <= Volume(candles)
    ensures lo * Volume(candles) as real <= Turnover(candles) <= hi * Volume(candles) as real
  {
    hide Traded;
    if candles != [] {
      var front, last := candles[..|candles| - 1], candles[|candles| - 1];
      TurnoverBounds(front, lo, hi);
      CandleBounds(last, lo, hi);
      hide ValidCandle;
      Distribute(lo, Volume(front), last.volume);
      Distribute(hi, Volume(front), last.volume);
    }
  }

  /** The average price of valid bars lies between the lowest low and the highest high. */
  lemma VwapBounds(candles: seq<Candle>)
    requires forall i :: 0 <= i < |candles| ==> ValidCandle(candles[i])
    requires 0 < Volume(candles)
    ensures candles != [] && Vwap(candles).Some?
    ensures MinLow(candles) <= Vwap(candles).value <= MaxHigh(candles)
  {
    assert candles != [];
    VwapWithin(candles, MinLow(candles), MaxHigh(candles));
  }

  lemma VwapWithin(candles: seq<Candle>, lo: real, hi: real)
    requires forall i :: 0 <= i < |candles| ==> ValidCandle(candles[i]) && lo <= candles[i].low && candles[i].high <= hi
    requires 0 < Volume(candles)
    ensures lo <= Vwap(candles).value <= hi
  {
    hide Turnover, Volume, ValidCandle;
    TurnoverBounds(candles, lo, hi);
    QuotientBounds(Turnover(candles), Volume(candles) as real, lo, hi);
  }
}
