/** Results over a series of trades: net, gross, drawdown and the chronological split. */
module Performance {
  import opened Common

  datatype Trade = Trade(timestamp: int, net: real)

  // ------------------------------------------------------------- net results

  function Net(trades: seq<Trade>): seq<real> {
    seq(|trades|, i requires 0 <= i < |trades| => trades[i].net)
  }

  /** Stable insertion: after every trade that is no later. */
  function Insert(trades: seq<Trade>, t: Trade): (r: seq<Trade>)
    ensures multiset(r) == multiset(trades) + multiset{t} && |r| == |trades| + 1
  {
    if trades == [] || trades[|trades| - 1].timestamp <= t.timestamp then trades + [t]
    else
      assert trades == trades[..|trades| - 1] + [trades[|trades| - 1]];
      Insert(trades[..|trades| - 1], t) + [trades[|trades| - 1]]
  }

  /** Python's stable sort by timestamp. */
  function Chronological(trades: seq<Trade>): (r: seq<Trade>)
    ensures multiset(r) == multiset(trades) && |r| == |trades|
  {
    if trades == [] then []
    else
      assert trades == trades[..|trades| - 1] + [trades[|trades| - 1]];
      Insert(Chronological(trades[..|trades| - 1]), trades[|trades| - 1])
  }

  ghost predicate Ordered(trades: seq<Trade>) {
    forall i, j :: 0 <= i < j < |trades| ==> trades[i].timestamp <= trades[j].timestamp
  }

  lemma {:induction false} InsertOrdered(trades: seq<Trade>, t: Trade)
    requires Ordered(trades)
    ensures Ordered(Insert(trades, t))
  {
    if trades != [] && t.timestamp < trades[|trades| - 1].timestamp {
      var front, last := trades[..|trades| - 1], trades[|trades| - 1];
      InsertOrdered(front, t);
      var r := Insert(front, t);
      forall i | 0 <= i < |r| ensures r[i].timestamp <= last.timestamp {
        assert r[i] in multiset(front) + multiset{t};
        if r[i] != t {
          assert r[i] in front;
        }
      }
    }
  }

  lemma {:induction false} ChronologicalOrdered(trades: seq<Trade>)
    ensures Ordered(Chronological(trades))
  {
    if trades != [] {
      ChronologicalOrdered(trades[..|trades| - 1]);
      InsertOrdered(Chronological(trades[..|trades| - 1]), trades[|trades| - 1]);
    }
  }

  /** The trades of one moment, in their order. */
  function At(trades: seq<Trade>, time: int): seq<Trade> {
    Filter(trades, (t: Trade) => t.timestamp == time)
  }

  lemma AtStep(trades: seq<Trade>, t: Trade, time: int)
    ensures At(trades + [t], time) == if t.timestamp == time then At(trades, time) + [t] else At(trades, time)
  {
    FilterConcat(trades, [t], (x: Trade) => x.timestamp == time);
  }

  lemma {:induction false} InsertAt(trades: seq<Trade>, t: Trade, time: int)
    requires Ordered(trades)
    ensures At(Insert(trades, t), time) == At(trades + [t], time)
  {
    hide At;
    if trades != [] && t.timestamp < trades[|trades| - 1].timestamp {
      var front, last := trades[..|trades| - 1], trades[|trades| - 1];
      assert trades == front + [last];
      InsertAt(front, t, time);
      AtStep(Insert(front, t), last, time);
      AtStep(front, t, time);
      AtStep(front, last, time);
      AtStep(trades, t, time);
    }
  }

  /** Sorting is stable: trades of one moment keep their order. */
  lemma {:induction false} ChronologicalIsStable(trades: seq<Trade>, time: int)
    ensures At(Chronological(trades), time) == At(trades, time)
  {
    if trades != [] {
      hide At, Insert;
      var front, last := trades[..|trades| - 1], trades[|trades| - 1];
      assert trades == front + [last];
      ChronologicalIsStable(front, time);
      ChronologicalOrdered(front);
      InsertAt(Chronological(front), last, time);
      AtStep(Chronological(front), last, time);
      AtStep(front, last, time);
    }
  }

  lemma {:induction false} NetOfInsert(trades: seq<Trade>, t: Trade)
    ensures Sum(Net(Insert(trades, t))) == Sum(Net(trades)) + t.net
  {
    if trades == [] || trades[|trades| - 1].timestamp <= t.timestamp {
      assert Net(trades + [t])[..|trades|] == Net(trades);
    } else {
      var front, last := trades[..|trades| - 1], trades[|trades| - 1];
      NetOfInsert(front, t);
      var r := Insert(front, t);
      assert Net(r + [last])[..|r|] == Net(r);
      assert Net(trades)[..|trades| - 1] == Net(front);
    }
  }

  /** Sorting moves no money. */
  lemma {:induction false} NetOfChronological(trades: seq<Trade>)
    ensures Sum(Net(Chronological(trades))) == Sum(Net(trades))
  {
    if trades != [] {
      hide Insert, Net, Sum;
      NetOfChronological(trades[..|trades| - 1]);
      NetOfInsert(Chronological(trades[..|trades| - 1]), trades[|trades| - 1]);
      NetStep(trades);
    }
  }

  lemma NetStep(trades: seq<Trade>)
    requires trades != []
    ensures Sum(Net(trades)) == Sum(Net(trades[..|trades| - 1])) + trades[|trades| - 1].net
  {
    assert Net(trades)[..|trades| - 1] == Net(trades[..|trades| - 1]);
  }

  function Gains(values: seq<real>): seq<real> {
    Filter(values, (v: real) => v > 0.0)
  }

  function Losses(values: seq<real>): seq<real> {
    Filter(values, (v: real) => v < 0.0)
  }

  function GrossProfit(values: seq<real>): real {
    Sum(Gains(values))
  }

  function GrossLoss(values: seq<real>): real {
    -Sum(Losses(values))
  }

  lemma GainsStep(values: seq<real>)
    requires values != []
    ensures var n := |values| - 1;
            && Gains(values) == (if values[n] > 0.0 then Gains(values[..n]) + [values[n]] else Gains(values[..n]))
            && Losses(values) == (if values[n] < 0.0 then Losses(values[..n]) + [values[n]] else Losses(values[..n]))
  {
  }

  lemma SumAppend(values: seq<real>, v: real)
    ensures Sum(values + [v]) == Sum(values) + v
  {
    assert (values + [v])[..|values|] == values;
  }

  /** Gross profit less gross loss is the net result, and both are never negative. */
  lemma {:induction false} GrossNet(values: seq<real>)
    ensures GrossProfit(values) - GrossLoss(values) == Sum(values)
    ensures 0.0 <= GrossProfit(values) && 0.0 <= GrossLoss(values)
  {
    hide Gains, Losses;
    if values == [] {
      NoneSplit();
    } else {
      var front, last := values[..|values| - 1], values[|values| - 1];
      GrossNet(front);
      GainsStep(values);
      SumAppend(Gains(front), last);
      SumAppend(Losses(front), last);
    }
  }

  lemma NoneSplit()
    ensures Gains([]) == [] && Losses([]) == []
  {
  }

  // ---------------------------------------------------------------- drawdown

  /** Equity gained after the first `i` results. */
  function Equity(values: seq<real>, i: nat): real
    requires i <= |values|
  {
    Sum(values[..i])
  }

  /** `d` is the deepest fall of equity from any earlier level. */
  ghost predicate IsDrawdown(values: seq<real>, d: real) {
    && (forall i, j :: 0 <= i <= j <= |values| ==> Equity(values, i) - Equity(values, j) <= d)
    && exists i, j :: 0 <= i <= j <= |values| && Equity(values, i) - Equity(values, j) == d
  }

  /** The drawdown is a property of the results alone: two computations of it agree. */
  lemma DrawdownIsDetermined(values: seq<real>, d1: real, d2: real)
    requires IsDrawdown(values, d1) && IsDrawdown(values, d2)
    ensures d1 == d2 && 0.0 <= d1
  {
    var i1, j1 :| 0 <= i1 <= j1 <= |values| && Equity(values, i1) - Equity(values, j1) == d1;
    var i2, j2 :| 0 <= i2 <= j2 <= |values| && Equity(values, i2) - Equity(values, j2) == d2;
    assert d1 <= d2 && d2 <= d1;
    assert Equity(values, 0) - Equity(values, 0) <= d1;
  }

  /** `p` is the highest equity among the first `n` results. */
  ghost predicate IsPeak(values: seq<real>, n: nat, p: real)
    requires n <= |values|
  {
    && (forall i :: 0 <= i <= n ==> Equity(values, i) <= p)
    && exists i :: 0 <= i <= n && Equity(values, i) == p
  }

  /** The drawdown of the first `n` results. */
  ghost predicate IsDrawdownOf(values: seq<real>, n: nat, d: real)
    requires n <= |values|
  {
    && (forall i, j :: 0 <= i <= j <= n ==> Equity(values, i) - Equity(values, j) <= d)
    && exists i, j :: 0 <= i <= j <= n && Equity(values, i) - Equity(values, j) == d
  }

  function Max(a: real, b: real): real {
    if a < b then b else a
  }

  lemma PeakStep(values: seq<real>, n: nat, p: real)
    requires n < |values| && IsPeak(values, n, p)
    ensures IsPeak(values, n + 1, Max(p, Equity(values, n + 1)))
  {
    hide Equity;
    var e := Equity(values, n + 1);
    var i :| 0 <= i <= n && Equity(values, i) == p;
    assert Equity(values, if p < e then n + 1 else i) == Max(p, e);
  }

  lemma DrawdownStep(values: seq<real>, n: nat, peak: real, d: real)
    requires n < |values| && IsPeak(values, n + 1, peak) && IsDrawdownOf(values, n, d)
    ensures IsDrawdownOf(values, n + 1, Max(d, peak - Equity(values, n + 1)))
  {
    hide Equity;
    var e := Equity(values, n + 1);
    var deepest := Max(d, peak - e);
    forall i, j | 0 <= i <= j <= n + 1 ensures Equity(values, i) - Equity(values, j) <= deepest {
      assert Equity(values, i) <= peak;
    }
    if d < peak - e {
      var i :| 0 <= i <= n + 1 && Equity(values, i) == peak;
      assert Equity(values, i) - Equity(values, n + 1) == deepest;
    } else {
      var i, j :| 0 <= i <= j <= n && Equity(values, i) - Equity(values, j) == d;
      assert Equity(values, i) - Equity(values, j) == deepest;
    }
  }

  lemma FirstPeak(values: seq<real>)
    ensures IsPeak(values, 0, 0.0) && IsDrawdownOf(values, 0, 0.0)
  {
    assert Equity(values, 0) == 0.0;
  }

  /** The running-peak loop: one pass finds the deepest fall, whatever the starting capital. */
  method MaximumDrawdown(values: seq<real>, startingCapital: real) returns (drawdown: real)
    ensures IsDrawdown(values, drawdown)
  {
    hide Equity, IsPeak, IsDrawdownOf;
    var equity, peak := startingCapital, startingCapital;
    drawdown := 0.0;
    FirstPeak(values);
    for i := 0 to |values|
      invariant equity == startingCapital + Equity(values, i)
      invariant IsPeak(values, i, peak - startingCapital) && IsDrawdownOf(values, i, drawdown)
    {
      PeakStep(values, i, peak - startingCapital);
      EquityStep(values, i);
      DrawdownStep(values, i, Max(peak - startingCapital, Equity(values, i + 1)), drawdown);
      equity := equity + values[i];
      peak := Max(peak, equity);
      drawdown := Max(drawdown, peak - equity);
    }
    WholeDrawdown(values, drawdown);
  }

  lemma EquityStep(values: seq<real>, i: nat)
    requires i < |values|
    ensures Equity(values, i + 1) == Equity(values, i) + values[i] && Equity(values, 0) == 0.0
  {
    SumStep(values, i);
  }

  lemma WholeDrawdown(values: seq<real>, d: real)
    ensures IsDrawdownOf(values, |values|, d) ==> IsDrawdown(values, d)
    ensures Equity(values, 0) == 0.0
  {
  }

  // ------------------------------------------------------------- performance

  datatype Summary = Summary(
    trades: nat, net: real, expectancy: Option<real>, winRate: Option<real>, profitFactor: Option<real>, drawdown: real)

  function ProfitFactor(values: seq<real>): Option<real> {
    if 0.0 < GrossLoss(values) then Some(GrossProfit(values) / GrossLoss(values)) else None
  }

  /** Judges the trades in time order. */
  method SummarizePerformance(trades: seq<Trade>) returns (s: Summary)
    ensures s.trades == |trades| && s.net == Sum(Net(trades))
    ensures IsDrawdown(Net(Chronological(trades)), s.drawdown)
    ensures s.profitFactor == ProfitFactor(Net(Chronological(trades)))
    ensures trades == [] ==> s.expectancy.None? && s.winRate.None?
    ensures trades != [] ==>
              && s.expectancy.Some? && s.expectancy.value * |trades| as real == s.net
              && s.winRate == Some(|Gains(Net(Chronological(trades)))| as real / |trades| as real)
  {
    var ordered := Chronological(trades);
    var values := Net(ordered);
    NetOfChronological(trades);
    hide Chronological, Sum, Gains, Losses, IsDrawdown;
    if ordered == [] {
      assert trades == [] && values == [];
      NothingTraded();
      return Summary(0, 0.0, None, None, None, 0.0);
    }
    var net := Sum(values);
    var wins, losses := Gains(values), Losses(values);
    var drawdown := MaximumDrawdown(values, 0.0);
    var factor := if 0.0 < -Sum(losses) then Some(Sum(wins) / -Sum(losses)) else None;
    s := Summary(|values|, net, Some(net / |values| as real), Some(|wins| as real / |values| as real), factor, drawdown);
  }

  lemma NothingTraded()
    ensures Sum([]) == 0.0 && Net([]) == [] && IsDrawdown([], 0.0) && ProfitFactor([]) == None
  {
    NoneSplit();
    FirstPeak([]);
    WholeDrawdown([], 0.0);
    hide Gains, Losses, IsDrawdown;
  }

  datatype SplitError = InvalidTrainingFraction | InvalidValidationFraction

  function Portion(n: nat, fraction: real): real {
    n as real * fraction
  }

  /** How many of `n` a fraction takes: rounded down. */
  function Share(n: nat, fraction: real): int {
    Portion(n, fraction).Floor
  }

  lemma PortionsBelow(n: nat, training: real, validation: real)
    requires 0.0 < training && 0.0 < validation && training + validation < 1.0
    ensures 0.0 <= Portion(n, training) && 0.0 <= Portion(n, validation)
    ensures if n == 0 then Portion(n, training) + Portion(n, validation) == 0.0
            else Portion(n, training) + Portion(n, validation) < n as real
  {
    var m, rest := n as real, 1.0 - training - validation;
    Distributes(m, training, validation);
    ProductSign(m, training);
    ProductSign(m, validation);
    ProductSign(m, rest);
  }

  lemma Distributes(m: real, a: real, b: real)
    ensures m * (1.0 - a - b) == m - m * a - m * b
  {
  }

  lemma ProductSign(m: real, x: real)
    requires 0.0 <= m && 0.0 < x
    ensures m == 0.0 ==> m * x == 0.0
    ensures 0.0 < m ==> 0.0 < m * x
  {
  }

  lemma ShareWithin(n: nat, training: real, validation: real)
    requires 0.0 < training && 0.0 < validation && training + validation < 1.0
    ensures 0 <= Share(n, training) && 0 <= Share(n, validation) && Share(n, training) + Share(n, validation) <= n
    ensures n > 0 ==> Share(n, training) + Share(n, validation) < n
  {
    hide Portion;
    PortionsBelow(n, training, validation);
    if n > 0 {
      FloorSum(Portion(n, training), Portion(n, validation), n);
    }
  }

  lemma FloorSum(x: real, y: real, n: nat)
    requires x + y < n as real
    ensures x.Floor + y.Floor < n
  {
    assert x.Floor as real + y.Floor as real < n as real;
  }

  /**
    Training, validation and test sets in time order: together exactly the given
    trades, none in two of them, and nothing tested is earlier than what was trained on.
   */
  method ChronologicalSplit(trades: seq<Trade>, training: real, validation: real)
    returns (r: Result<(seq<Trade>, seq<Trade>, seq<Trade>), SplitError>)
    ensures r.Success? <==> 0.0 < training < 1.0 && 0.0 < validation && training + validation < 1.0
    ensures r.Failure? ==> (r.error == InvalidTrainingFraction <==> !(0.0 < training < 1.0))
    ensures r.Success? ==>
              var (train, validate, test) := r.value;
              && train + validate + test == Chronological(trades) && Ordered(train + validate + test)
              && |train| == Share(|trades|, training) && |validate| == Share(|trades|, validation)
              && (trades != [] ==> test != [])
  {
    var ordered := Chronological(trades);
    ChronologicalOrdered(trades);
    if !(0.0 < training < 1.0) {
      return Failure(InvalidTrainingFraction);
    }
    if validation <= 0.0 || training + validation >= 1.0 {
      return Failure(InvalidValidationFraction);
    }
    ShareWithin(|ordered|, training, validation);
    hide Share, Chronological;
    var trainEnd := Share(|ordered|, training);
    var validationEnd := trainEnd + Share(|ordered|, validation);
    var train, validate, test := ordered[..trainEnd], ordered[trainEnd..validationEnd], ordered[validationEnd..];
    assert train + validate + test == ordered;
    return Success((train, validate, test));
  }
}
