/** Market regime from confirmed reference bars, and the breakout signal of one symbol. */
module Regime {
  import opened Common

  datatype MarketRegime = BULLISH | BEARISH | NO_TRADE

  datatype CompletedMarketBar = CompletedMarketBar(
    symbol: string, close: Option<real>, vwap: Option<real>, emaFast: Option<real>, emaSlow: Option<real>,
    intervalMinutes: Option<int>, startedAt: Option<Time>, endedAt: Option<Time>,
    sourceUpdatedAt: Option<Time>, receivedAt: Option<Time>, completed: Option<bool>)

  datatype RegimeReason =
    | ConfirmationBarsMissing(symbol: string)
    | IndicatorUnknown(symbol: string)
    | IndicatorsNotAligned(symbol: string)
    | DirectionNotConfirmed(symbol: string)
    | ReferenceSymbolsDisagree

  datatype RegimeDecision = RegimeDecision(regime: MarketRegime, reasons: seq<RegimeReason>)

  function BarDirection(bar: CompletedMarketBar): Option<MarketRegime> {
    if bar.close.None? || bar.vwap.None? || bar.emaFast.None? || bar.emaSlow.None? then None
    else if bar.close.value > bar.vwap.value && bar.emaFast.value > bar.emaSlow.value then Some(BULLISH)
    else if bar.close.value < bar.vwap.value && bar.emaFast.value < bar.emaSlow.value then Some(BEARISH)
    else Some(NO_TRADE)
  }

  function BarsOf(bars: seq<CompletedMarketBar>, symbol: string): seq<CompletedMarketBar> {
    Filter(bars, (b: CompletedMarketBar) => b.symbol == symbol)
  }

  function Directions(bars: seq<CompletedMarketBar>): seq<Option<MarketRegime>> {
    seq(|bars|, i requires 0 <= i < |bars| => BarDirection(bars[i]))
  }

  /** What a symbol's selected bar directions amount to. */
  function Judge(symbol: string, directions: seq<Option<MarketRegime>>): Result<MarketRegime, RegimeReason> {
    if None in directions then Failure(IndicatorUnknown(symbol))
    else if Some(NO_TRADE) in directions then Failure(IndicatorsNotAligned(symbol))
    else if directions == [] || exists d :: d in directions && d != directions[0]
      then Failure(DirectionNotConfirmed(symbol))
    else Success(directions[0].value)
  }

  /** What the confirmation bars of one reference symbol say. */
  function Verdict(bars: seq<CompletedMarketBar>, symbol: string, confirmations: int): Result<MarketRegime, RegimeReason> {
    var own := BarsOf(bars, symbol);
    if |own| < confirmations then Failure(ConfirmationBarsMissing(symbol))
    else Judge(symbol, Directions(LastN(own, confirmations)))
  }

  /** The refusals of the reference symbols, in order. */
  function Refusals(bars: seq<CompletedMarketBar>, symbols: seq<string>, confirmations: int): seq<RegimeReason> {
    if symbols == [] then []
    else
      var last := Verdict(bars, symbols[|symbols| - 1], confirmations);
      Refusals(bars, symbols[..|symbols| - 1], confirmations) + (if last.Failure? then [last.error] else [])
  }

  function Confirmed(bars: seq<CompletedMarketBar>, symbols: seq<string>, confirmations: int): seq<MarketRegime> {
    if symbols == [] then []
    else
      var last := Verdict(bars, symbols[|symbols| - 1], confirmations);
      Confirmed(bars, symbols[..|symbols| - 1], confirmations) + (if last.Success? then [last.value] else [])
  }

  function RegimeOf(bars: seq<CompletedMarketBar>, symbols: seq<string>, confirmations: int): RegimeDecision {
    var reasons := Refusals(bars, symbols, confirmations);
    var directions := Confirmed(bars, symbols, confirmations);
    if reasons != [] then RegimeDecision(NO_TRADE, reasons)
    else if directions == [] || exists d :: d in directions && d != directions[0]
      then RegimeDecision(NO_TRADE, [ReferenceSymbolsDisagree])
    else RegimeDecision(directions[0], [])
  }

  method GroupBySymbol(bars: seq<CompletedMarketBar>, symbols: seq<string>)
    returns (grouped: map<string, seq<CompletedMarketBar>>)
    ensures forall symbol :: symbol in grouped <==> symbol in symbols
    ensures forall symbol :: symbol in grouped ==> grouped[symbol] == BarsOf(bars, symbol)
  {
    hide BarsOf;
    grouped := map symbol | symbol in symbols :: [];
    forall symbol ensures BarsOf(bars[..0], symbol) == [] {
      NoBarsOf(bars, symbol);
    }
    for i := 0 to |bars|
      invariant forall symbol :: symbol in grouped <==> symbol in symbols
      invariant forall symbol :: symbol in grouped ==> grouped[symbol] == BarsOf(bars[..i], symbol)
    {
      var bar := bars[i];
      forall symbol ensures BarsOf(bars[..i + 1], symbol)
                            == if bar.symbol == symbol then BarsOf(bars[..i], symbol) + [bar] else BarsOf(bars[..i], symbol) {
        BarsOfNext(bars, i, symbol);
      }
      if bar.symbol in grouped {
        grouped := grouped[bar.symbol := grouped[bar.symbol] + [bar]];
      }
    }
    assert bars[..|bars|] == bars;
  }

  method DetermineMarketRegime(bars: seq<CompletedMarketBar>, referenceSymbols: seq<string>, confirmationBars: int)
    returns (decision: RegimeDecision)
    ensures decision == RegimeOf(bars, referenceSymbols, confirmationBars)
  {
    hide BarsOf, Directions;
    var grouped := GroupBySymbol(bars, referenceSymbols);
    var reasons: seq<RegimeReason> := [];
    var directions: seq<MarketRegime> := [];
    for i := 0 to |referenceSymbols|
      invariant reasons == Refusals(bars, referenceSymbols[..i], confirmationBars)
      invariant directions == Confirmed(bars, referenceSymbols[..i], confirmationBars)
    {
      var symbol := referenceSymbols[i];
      assert referenceSymbols[..i + 1][..i] == referenceSymbols[..i];
      var symbolBars := grouped[symbol];
      if |symbolBars| < confirmationBars {
        reasons := reasons + [ConfirmationBarsMissing(symbol)];
        continue;
      }
      var selected := Directions(LastN(symbolBars, confirmationBars));
      if None in selected {
        reasons := reasons + [IndicatorUnknown(symbol)];
        continue;
      }
      if Some(NO_TRADE) in selected {
        reasons := reasons + [IndicatorsNotAligned(symbol)];
        continue;
      }
      DedupSingleton(selected);
      if |Dedup(selected)| != 1 {
        reasons := reasons + [DirectionNotConfirmed(symbol)];
        continue;
      }
      directions := directions + [selected[0].value];
    }
    assert referenceSymbols[..|referenceSymbols|] == referenceSymbols;
    ConfirmedPlusRefused(bars, referenceSymbols, confirmationBars);
    DedupSingleton(directions);
    if reasons != [] {
      return RegimeDecision(NO_TRADE, reasons);
    }
    if |directions| != |referenceSymbols| || |Dedup(directions)| != 1 {
      return RegimeDecision(NO_TRADE, [ReferenceSymbolsDisagree]);
    }
    return RegimeDecision(directions[0], []);
  }

  lemma NoBarsOf(bars: seq<CompletedMarketBar>, symbol: string)
    ensures BarsOf(bars[..0], symbol) == []
  {
  }

  lemma BarsOfNext(bars: seq<CompletedMarketBar>, i: nat, symbol: string)
    requires i < |bars|
    ensures BarsOf(bars[..i + 1], symbol)
            == if bars[i].symbol == symbol then BarsOf(bars[..i], symbol) + [bars[i]] else BarsOf(bars[..i], symbol)
  {
    BarsOfStep(bars[..i + 1], symbol);
    assert bars[..i + 1][..i] == bars[..i];
    hide BarsOf;
  }

  /** One distinct value means: not empty, and everything equals the first element. */
  lemma DedupSingleton<T(!new)>(s: seq<T>)
    ensures |Dedup(s)| == 1 <==> s != [] && forall d :: d in s ==> d == s[0]
  {
    var distinct := Dedup(s);
    if s != [] {
      assert s[0] in distinct;
      if |distinct| > 1 {
        assert distinct[0] in s && distinct[1] in s;
      }
      if |distinct| == 1 {
        forall d | d in s ensures d == s[0] { assert d in distinct; }
      }
    }
  }

  lemma {:induction false} ConfirmedPlusRefused(bars: seq<CompletedMarketBar>, symbols: seq<string>, confirmations: int)
    ensures |Confirmed(bars, symbols, confirmations)| + |Refusals(bars, symbols, confirmations)| == |symbols|
  {
    if symbols != [] {
      ConfirmedPlusRefused(bars, symbols[..|symbols| - 1], confirmations);
    }
  }

  lemma {:induction false} NoRefusals(bars: seq<CompletedMarketBar>, symbols: seq<string>, confirmations: int)
    ensures Refusals(bars, symbols, confirmations) == []
            <==> forall s :: s in symbols ==> Verdict(bars, s, confirmations).Success?
  {
    hide Verdict;
    if symbols != [] {
      var front, last := symbols[..|symbols| - 1], symbols[|symbols| - 1];
      NoRefusals(bars, front, confirmations);
      assert symbols == front + [last];
    }
  }

  lemma {:induction false} ConfirmedMember(bars: seq<CompletedMarketBar>, symbols: seq<string>, confirmations: int, d: MarketRegime)
    ensures d in Confirmed(bars, symbols, confirmations)
            <==> exists s :: s in symbols && Verdict(bars, s, confirmations) == Success(d)
  {
    hide Verdict;
    if symbols != [] {
      var front, last := symbols[..|symbols| - 1], symbols[|symbols| - 1];
      ConfirmedMember(bars, front, confirmations, d);
      assert symbols == front + [last];
      assert last in symbols;
      if d in Confirmed(bars, front, confirmations) {
        var s :| s in front && Verdict(bars, s, confirmations) == Success(d);
        assert s in symbols;
      }
    }
  }

  /** A bar points one way when both its price and its averages do. */
  predicate Points(bar: CompletedMarketBar, up: bool) {
    && bar.close.Some? && bar.vwap.Some? && bar.emaFast.Some? && bar.emaSlow.Some?
    && (if up then bar.close.value > bar.vwap.value && bar.emaFast.value > bar.emaSlow.value
        else bar.close.value < bar.vwap.value && bar.emaFast.value < bar.emaSlow.value)
  }

  /** A reference symbol has its confirmation bars and they all point one way. */
  ghost predicate Aligned(bars: seq<CompletedMarketBar>, symbol: string, confirmations: int, up: bool) {
    && confirmations <= |BarsOf(bars, symbol)|
    && forall b :: b in LastN(BarsOf(bars, symbol), confirmations) ==> Points(b, up)
  }

  /**
    The regime is directional exactly when there is a reference symbol, every one
    has its confirmation bars, and each of these bars points the same way.
   */
  lemma RegimeIff(bars: seq<CompletedMarketBar>, symbols: seq<string>, confirmations: int, up: bool)
    requires 1 <= confirmations
    ensures RegimeOf(bars, symbols, confirmations).regime == (if up then BULLISH else BEARISH)
            <==> symbols != [] && forall s :: s in symbols ==> Aligned(bars, s, confirmations, up)
  {
    hide Verdict, Aligned;
    var way := if up then BULLISH else BEARISH;
    NoRefusals(bars, symbols, confirmations);
    forall d ensures d in Confirmed(bars, symbols, confirmations)
                     <==> exists s :: s in symbols && Verdict(bars, s, confirmations) == Success(d) {
      ConfirmedMember(bars, symbols, confirmations, d);
    }
    hide Confirmed, Refusals;
    ConfirmedPlusRefused(bars, symbols, confirmations);
    forall s ensures Verdict(bars, s, confirmations) == Success(way) <==> Aligned(bars, s, confirmations, up) {
      VerdictIff(bars, s, confirmations, up);
    }
    var directions := Confirmed(bars, symbols, confirmations);
    if symbols != [] && Refusals(bars, symbols, confirmations) == [] {
      assert symbols[0] in symbols;
      assert directions[0] in directions;
    }
    forall s ensures Verdict(bars, s, confirmations) != Success(NO_TRADE) {
      VerdictDirectional(bars, s, confirmations);
    }
  }

  /** The selected bars of a reference symbol have every indicator. */
  predicate Informative(bar: CompletedMarketBar) {
    bar.close.Some? && bar.vwap.Some? && bar.emaFast.Some? && bar.emaSlow.Some?
  }

  /** What stands against one reference symbol, each cause on its own terms. */
  ghost predicate Refuses(bars: seq<CompletedMarketBar>, symbol: string, confirmations: int, r: RegimeReason) {
    if |BarsOf(bars, symbol)| < confirmations then r == ConfirmationBarsMissing(symbol)
    else
      var selected := LastN(BarsOf(bars, symbol), confirmations);
      if exists b :: b in selected && !Informative(b) then r == IndicatorUnknown(symbol)
      else if exists b :: b in selected && !Points(b, true) && !Points(b, false) then r == IndicatorsNotAligned(symbol)
      else r == DirectionNotConfirmed(symbol) && (exists b :: b in selected && Points(b, true)) && exists b :: b in selected && Points(b, false)
  }

  lemma VerdictRefuses(bars: seq<CompletedMarketBar>, symbol: string, confirmations: int, r: RegimeReason)
    requires 1 <= confirmations
    ensures Verdict(bars, symbol, confirmations) == Failure(r) <==> Refuses(bars, symbol, confirmations, r)
  {
    hide BarsOf, BarDirection, Points, Informative;
    if confirmations <= |BarsOf(bars, symbol)| {
      var selected := LastN(BarsOf(bars, symbol), confirmations);
      forall i | 0 <= i < |selected|
        ensures Directions(selected)[i] == None <==> !Informative(selected[i])
        ensures Directions(selected)[i] == Some(BULLISH) <==> Points(selected[i], true)
        ensures Directions(selected)[i] == Some(BEARISH) <==> Points(selected[i], false)
      {
        DirectionIs(selected[i]);
      }
      JudgeRefuses(symbol, selected, Directions(selected), r);
    }
  }

  lemma DirectionIs(bar: CompletedMarketBar)
    ensures BarDirection(bar) == None <==> !Informative(bar)
    ensures BarDirection(bar) == Some(BULLISH) <==> Points(bar, true)
    ensures BarDirection(bar) == Some(BEARISH) <==> Points(bar, false)
  {
  }

  lemma JudgeRefuses(symbol: string, selected: seq<CompletedMarketBar>, d: seq<Option<MarketRegime>>, r: RegimeReason)
    requires |d| == |selected| > 0
    requires forall i :: 0 <= i < |d| ==>
               && (d[i] == None <==> !Informative(selected[i])) && (d[i] == Some(BULLISH) <==> Points(selected[i], true))
               && (d[i] == Some(BEARISH) <==> Points(selected[i], false))
    ensures Judge(symbol, d) == Failure(r) <==>
              if exists b :: b in selected && !Informative(b) then r == IndicatorUnknown(symbol)
              else if exists b :: b in selected && !Points(b, true) && !Points(b, false) then r == IndicatorsNotAligned(symbol)
              else r == DirectionNotConfirmed(symbol) && (exists b :: b in selected && Points(b, true))
                   && exists b :: b in selected && Points(b, false)
  {
    hide Informative, Points;
    InBoth(d, selected, None, (b: CompletedMarketBar) => !Informative(b));
    if None !in d {
      forall i | 0 <= i < |d| ensures d[i] in [Some(NO_TRADE), Some(BULLISH), Some(BEARISH)] {
        assert d[i] in d;
        assert d[i].value == NO_TRADE || d[i].value == BULLISH || d[i].value == BEARISH;
      }
      InBoth(d, selected, Some(NO_TRADE), (b: CompletedMarketBar) => !Points(b, true) && !Points(b, false));
      InBoth(d, selected, Some(BULLISH), (b: CompletedMarketBar) => Points(b, true));
      InBoth(d, selected, Some(BEARISH), (b: CompletedMarketBar) => Points(b, false));
      if Some(NO_TRADE) !in d {
        TwoWays(d);
      }
    }
  }

  lemma InBoth(d: seq<Option<MarketRegime>>, selected: seq<CompletedMarketBar>, v: Option<MarketRegime>, p: CompletedMarketBar -> bool)
    requires |d| == |selected| && forall i :: 0 <= i < |d| ==> (d[i] == v <==> p(selected[i]))
    ensures v in d <==> exists b :: b in selected && p(b)
  {
    if b :| b in selected && p(b) {
      var i :| 0 <= i < |selected| && selected[i] == b;
      assert d[i] in d;
    }
    if v in d {
      var i :| 0 <= i < |d| && d[i] == v;
      assert selected[i] in selected;
    }
  }

  lemma TwoWays(d: seq<Option<MarketRegime>>)
    requires d != [] && None !in d && Some(NO_TRADE) !in d
    ensures (exists x :: x in d && x != d[0]) <==> Some(BULLISH) in d && Some(BEARISH) in d
  {
    assert d[0] in d;
    forall x | x in d ensures x == Some(BULLISH) || x == Some(BEARISH) {
      assert x.Some? && x.value != NO_TRADE;
    }
  }

  /**
    A day without a direction says why: the refusal of every reference symbol that
    refuses, or that the confirmed symbols disagree (or that there is none).
   */
  lemma RegimeReasons(bars: seq<CompletedMarketBar>, symbols: seq<string>, confirmations: int, r: RegimeReason)
    requires 1 <= confirmations
    ensures r in RegimeOf(bars, symbols, confirmations).reasons <==>
              || (exists s :: s in symbols && Refuses(bars, s, confirmations, r))
              || (&& r == ReferenceSymbolsDisagree && (forall s, q :: s in symbols ==> !Refuses(bars, s, confirmations, q))
                  && (symbols == []
                      || (&& (exists s :: s in symbols && Aligned(bars, s, confirmations, true))
                          && exists s :: s in symbols && Aligned(bars, s, confirmations, false))))
  {
    hide Verdict, Refuses, Aligned;
    forall s, q ensures Verdict(bars, s, confirmations) == Failure(q) <==> Refuses(bars, s, confirmations, q) {
      VerdictRefuses(bars, s, confirmations, q);
    }
    forall s, up: bool ensures Verdict(bars, s, confirmations) == Success(if up then BULLISH else BEARISH) <==> Aligned(bars, s, confirmations, up) {
      VerdictIff(bars, s, confirmations, up);
    }
    RefusalMember(bars, symbols, confirmations, r);
    NoRefusals(bars, symbols, confirmations);
    if Refusals(bars, symbols, confirmations) == [] {
      Disagreement(bars, symbols, confirmations);
    }
  }

  lemma Disagreement(bars: seq<CompletedMarketBar>, symbols: seq<string>, confirmations: int)
    requires 1 <= confirmations && Refusals(bars, symbols, confirmations) == []
    ensures var disagree := RegimeDecision(NO_TRADE, [ReferenceSymbolsDisagree]);
            var d := RegimeOf(bars, symbols, confirmations);
            && (d == disagree || d.reasons == [])
            && (d == disagree <==>
                  (symbols == []
                   || (&& (exists s :: s in symbols && Aligned(bars, s, confirmations, true))
                       && exists s :: s in symbols && Aligned(bars, s, confirmations, false))))
  {
    hide Verdict, Aligned;
    var directions := Confirmed(bars, symbols, confirmations);
    forall way ensures way in directions <==> exists s :: s in symbols && Verdict(bars, s, confirmations) == Success(way) {
      ConfirmedMember(bars, symbols, confirmations, way);
    }
    forall s ensures Verdict(bars, s, confirmations) != Success(NO_TRADE) {
      VerdictDirectional(bars, s, confirmations);
    }
    forall s, up: bool ensures Verdict(bars, s, confirmations) == Success(if up then BULLISH else BEARISH) <==> Aligned(bars, s, confirmations, up) {
      VerdictIff(bars, s, confirmations, up);
    }
    ConfirmedPlusRefused(bars, symbols, confirmations);
    hide Confirmed, Refusals;
    assert BULLISH in directions <==> exists s :: s in symbols && Aligned(bars, s, confirmations, true);
    assert BEARISH in directions <==> exists s :: s in symbols && Aligned(bars, s, confirmations, false);
    if directions != [] {
      assert directions[0] in directions;
    }
  }

  lemma {:induction false} RefusalMember(bars: seq<CompletedMarketBar>, symbols: seq<string>, confirmations: int, r: RegimeReason)
    ensures r in Refusals(bars, symbols, confirmations) <==> exists s :: s in symbols && Verdict(bars, s, confirmations) == Failure(r)
  {
    hide Verdict;
    if symbols != [] {
      var front, last := symbols[..|symbols| - 1], symbols[|symbols| - 1];
      RefusalMember(bars, front, confirmations, r);
      assert symbols == front + [last];
      assert last in symbols;
      if r in Refusals(bars, front, confirmations) {
        var s :| s in front && Verdict(bars, s, confirmations) == Failure(r);
        assert s in symbols;
      }
    }
  }

  lemma VerdictDirectional(bars: seq<CompletedMarketBar>, s: string, confirmations: int)
    ensures Verdict(bars, s, confirmations) != Success(NO_TRADE)
  {
    var directions := Directions(LastN(BarsOf(bars, s), confirmations));
    if directions != [] { assert directions[0] in directions; }
  }

  lemma JudgeIff(symbol: string, directions: seq<Option<MarketRegime>>, way: MarketRegime)
    requires way != NO_TRADE
    ensures Judge(symbol, directions) == Success(way)
            <==> directions != [] && forall i :: 0 <= i < |directions| ==> directions[i] == Some(way)
  {
    if directions != [] { assert directions[0] in directions; }
    if Judge(symbol, directions) == Success(way) {
      forall i | 0 <= i < |directions| ensures directions[i] == Some(way) {
        assert directions[i] in directions;
      }
    }
  }

  lemma PointsIff(bar: CompletedMarketBar, up: bool)
    ensures BarDirection(bar) == Some(if up then BULLISH else BEARISH) <==> Points(bar, up)
  {
  }

  lemma VerdictIff(bars: seq<CompletedMarketBar>, s: string, confirmations: int, up: bool)
    requires 1 <= confirmations
    ensures Verdict(bars, s, confirmations) == Success(if up then BULLISH else BEARISH)
            <==> Aligned(bars, s, confirmations, up)
  {
    hide Judge, BarsOf, BarDirection, Points;
    var selected := LastN(BarsOf(bars, s), confirmations);
    var directions := Directions(selected);
    var way := if up then BULLISH else BEARISH;
    JudgeIff(s, directions, way);
    forall i | 0 <= i < |selected| ensures directions[i] == Some(way) <==> Points(selected[i], up) {
      PointsIff(selected[i], up);
    }
    hide Directions;
    assert forall i :: 0 <= i < |selected| ==> selected[i] in selected;
    assert forall b :: b in selected ==> exists i :: 0 <= i < |selected| && selected[i] == b;
  }

  // ------------------------------------------- what the regime depends on

  function Flip(r: MarketRegime, mirrored: bool): MarketRegime {
    if !mirrored || r == NO_TRADE then r else if r == BULLISH then BEARISH else BULLISH
  }

  function FlipDirection(r: Option<MarketRegime>, mirrored: bool): Option<MarketRegime> {
    if r.None? then None else Some(Flip(r.value, mirrored))
  }

  /** Bar by bar the same symbols, with the same directions or all directions reversed. */
  ghost predicate Related(a: seq<CompletedMarketBar>, b: seq<CompletedMarketBar>, mirrored: bool) {
    && |a| == |b|
    && forall i :: 0 <= i < |a| ==>
         a[i].symbol == b[i].symbol && BarDirection(b[i]) == FlipDirection(BarDirection(a[i]), mirrored)
  }

  lemma RelatedConcat(a1: seq<CompletedMarketBar>, b1: seq<CompletedMarketBar>, a2: seq<CompletedMarketBar>,
                      b2: seq<CompletedMarketBar>, mirrored: bool)
    requires Related(a1, b1, mirrored) && Related(a2, b2, mirrored)
    ensures Related(a1 + a2, b1 + b2, mirrored)
  {
    hide BarDirection;
  }

  lemma RelatedEnds(a: seq<CompletedMarketBar>, b: seq<CompletedMarketBar>, mirrored: bool)
    requires Related(a, b, mirrored) && a != []
    ensures a[|a| - 1].symbol == b[|b| - 1].symbol
    ensures Related(a[..|a| - 1], b[..|b| - 1], mirrored) && Related([a[|a| - 1]], [b[|b| - 1]], mirrored)
  {
    hide BarDirection;
  }

  lemma {:induction false} RelatedBarsOf(a: seq<CompletedMarketBar>, b: seq<CompletedMarketBar>, symbol: string, mirrored: bool)
    requires Related(a, b, mirrored)
    ensures Related(BarsOf(a, symbol), BarsOf(b, symbol), mirrored)
  {
    if a == [] {
      assert b == [];
    } else {
      BarsOfStep(a, symbol);
      BarsOfStep(b, symbol);
      RelatedEnds(a, b, mirrored);
      RelatedBarsOf(a[..|a| - 1], b[..|b| - 1], symbol, mirrored);
      var own := a[|a| - 1].symbol == symbol;
      var la, lb := if own then [a[|a| - 1]] else [], if own then [b[|b| - 1]] else [];
      assert Related(la, lb, mirrored);
      hide BarsOf, Related;
      RelatedConcat(BarsOf(a[..|a| - 1], symbol), BarsOf(b[..|b| - 1], symbol), la, lb, mirrored);
    }
  }

  lemma BarsOfStep(bars: seq<CompletedMarketBar>, symbol: string)
    requires bars != []
    ensures var last := bars[|bars| - 1];
            BarsOf(bars, symbol) == BarsOf(bars[..|bars| - 1], symbol) + (if last.symbol == symbol then [last] else [])
  {
  }

  lemma RelatedVerdict(a: seq<CompletedMarketBar>, b: seq<CompletedMarketBar>, symbol: string, n: int, mirrored: bool)
    requires Related(a, b, mirrored)
    ensures Verdict(b, symbol, n) == (if Verdict(a, symbol, n).Failure? then Verdict(a, symbol, n)
                                      else Success(Flip(Verdict(a, symbol, n).value, mirrored)))
  {
    RelatedBarsOf(a, b, symbol, mirrored);
    hide BarDirection, BarsOf;
    var sa, sb := LastN(BarsOf(a, symbol), n), LastN(BarsOf(b, symbol), n);
    assert Related(sa, sb, mirrored);
    FlippedJudgement(symbol, Directions(sa), Directions(sb), mirrored);
  }

  lemma FlippedJudgement(symbol: string, da: seq<Option<MarketRegime>>, db: seq<Option<MarketRegime>>, mirrored: bool)
    requires |da| == |db| && forall i :: 0 <= i < |da| ==> db[i] == FlipDirection(da[i], mirrored)
    ensures Judge(symbol, db) == (if Judge(symbol, da).Failure? then Judge(symbol, da)
                                  else Success(Flip(Judge(symbol, da).value, mirrored)))
  {
    forall d ensures d in da <==> FlipDirection(d, mirrored) in db {
      if d in da {
        var i :| 0 <= i < |da| && da[i] == d;
        assert db[i] in db;
      }
      if FlipDirection(d, mirrored) in db {
        var i :| 0 <= i < |db| && db[i] == FlipDirection(d, mirrored);
        assert da[i] in da;
      }
    }
    assert None in da <==> FlipDirection(None, mirrored) in db;
    assert Some(NO_TRADE) in da <==> FlipDirection(Some(NO_TRADE), mirrored) in db;
    if d :| d in db && d != db[0] {
      var i :| 0 <= i < |db| && db[i] == d;
      assert da[i] in da && da[i] != da[0];
    }
  }

  /** Reversing every bar reverses the regime; equal directions give the equal regime. */
  lemma RegimeRelated(a: seq<CompletedMarketBar>, b: seq<CompletedMarketBar>, symbols: seq<string>, n: int, mirrored: bool)
    requires Related(a, b, mirrored)
    ensures RegimeOf(b, symbols, n)
            == RegimeDecision(Flip(RegimeOf(a, symbols, n).regime, mirrored), RegimeOf(a, symbols, n).reasons)
  {
    RelatedConfirmed(a, b, symbols, n, mirrored);
    hide Refusals, Confirmed, Related;
    var ca, cb := Confirmed(a, symbols, n), Confirmed(b, symbols, n);
    if d :| d in cb && d != cb[0] {
      var i :| 0 <= i < |cb| && cb[i] == d;
      assert ca[i] in ca && ca[i] != ca[0];
    }
    if d :| d in ca && d != ca[0] {
      var i :| 0 <= i < |ca| && ca[i] == d;
      assert cb[i] in cb && cb[i] != cb[0];
    }
  }

  lemma {:induction false} RelatedConfirmed(a: seq<CompletedMarketBar>, b: seq<CompletedMarketBar>, symbols: seq<string>,
                                            n: int, mirrored: bool)
    requires Related(a, b, mirrored)
    ensures Refusals(b, symbols, n) == Refusals(a, symbols, n)
    ensures var ca, cb := Confirmed(a, symbols, n), Confirmed(b, symbols, n);
            |ca| == |cb| && forall i :: 0 <= i < |ca| ==> cb[i] == Flip(ca[i], mirrored)
  {
    hide Verdict, Related;
    if symbols != [] {
      RelatedConfirmed(a, b, symbols[..|symbols| - 1], n, mirrored);
      RelatedVerdict(a, b, symbols[|symbols| - 1], n, mirrored);
    }
  }

  // ------------------------------------------------------------------ signal

  datatype SignalDirection = CALL | PUT | NO_SIGNAL

  datatype UnderlyingSignalSnapshot = UnderlyingSignalSnapshot(
    symbol: string, close: Option<real>, vwap: Option<real>, emaFast: Option<real>, emaSlow: Option<real>,
    breakoutHigh: Option<real>, breakdownLow: Option<real>, currentVolume: Option<int>, averageVolume: Option<real>)

  datatype SignalReason =
    | CLOSE_UNKNOWN | VWAP_UNKNOWN | EMA_FAST_UNKNOWN | EMA_SLOW_UNKNOWN
    | BREAKOUT_HIGH_UNKNOWN | BREAKDOWN_LOW_UNKNOWN | CURRENT_VOLUME_UNKNOWN | AVERAGE_VOLUME_UNKNOWN
    | INVALID_VOLUME_DATA | VOLUME_CONFIRMATION_FAILED | MARKET_REGIME_NOT_DIRECTIONAL
    | PRICE_NOT_ABOVE_VWAP | BULLISH_EMA_ALIGNMENT_FAILED | SIX_BAR_BREAKOUT_FAILED
    | PRICE_NOT_BELOW_VWAP | BEARISH_EMA_ALIGNMENT_FAILED | SIX_BAR_BREAKDOWN_FAILED

  datatype SignalDecision = SignalDecision(direction: SignalDirection, reasons: seq<SignalReason>, volumeRatio: Option<real>)

  function Unknown<T>(value: Option<T>, code: SignalReason): (r: seq<SignalReason>)
    ensures forall c :: c in r <==> value.None? && c == code
  {
    if value.None? then [code] else []
  }

  function Missing(s: UnderlyingSignalSnapshot): seq<SignalReason> {
    Unknown(s.close, CLOSE_UNKNOWN) + Unknown(s.vwap, VWAP_UNKNOWN)
    + Unknown(s.emaFast, EMA_FAST_UNKNOWN) + Unknown(s.emaSlow, EMA_SLOW_UNKNOWN)
    + Unknown(s.breakoutHigh, BREAKOUT_HIGH_UNKNOWN) + Unknown(s.breakdownLow, BREAKDOWN_LOW_UNKNOWN)
    + Unknown(s.currentVolume, CURRENT_VOLUME_UNKNOWN) + Unknown(s.averageVolume, AVERAGE_VOLUME_UNKNOWN)
  }

  predicate Known(s: UnderlyingSignalSnapshot) {
    && s.close.Some? && s.vwap.Some? && s.emaFast.Some? && s.emaSlow.Some?
    && s.breakoutHigh.Some? && s.breakdownLow.Some? && s.currentVolume.Some? && s.averageVolume.Some?
  }

  function EvaluateUnderlyingSignal(s: UnderlyingSignalSnapshot, regime: MarketRegime, minimumVolumeRatio: real): SignalDecision {
    var missing := Missing(s);
    if missing != [] then SignalDecision(NO_SIGNAL, missing, None)
    else if s.averageVolume.value <= 0.0 || s.currentVolume.value < 0 then
      SignalDecision(NO_SIGNAL, [INVALID_VOLUME_DATA], None)
    else
      var ratio := s.currentVolume.value as real / s.averageVolume.value;
      if ratio < minimumVolumeRatio then SignalDecision(NO_SIGNAL, [VOLUME_CONFIRMATION_FAILED], Some(ratio))
      else
        match regime
        case BULLISH =>
          var reasons := (if s.close.value <= s.vwap.value then [PRICE_NOT_ABOVE_VWAP] else [])
                         + (if s.emaFast.value <= s.emaSlow.value then [BULLISH_EMA_ALIGNMENT_FAILED] else [])
                         + (if s.close.value <= s.breakoutHigh.value then [SIX_BAR_BREAKOUT_FAILED] else []);
          SignalDecision(if reasons != [] then NO_SIGNAL else CALL, reasons, Some(ratio))
        case BEARISH =>
          var reasons := (if s.close.value >= s.vwap.value then [PRICE_NOT_BELOW_VWAP] else [])
                         + (if s.emaFast.value >= s.emaSlow.value then [BEARISH_EMA_ALIGNMENT_FAILED] else [])
                         + (if s.close.value >= s.breakdownLow.value then [SIX_BAR_BREAKDOWN_FAILED] else []);
          SignalDecision(if reasons != [] then NO_SIGNAL else PUT, reasons, Some(ratio))
        case NO_TRADE => SignalDecision(NO_SIGNAL, [MARKET_REGIME_NOT_DIRECTIONAL], Some(ratio))
  }

  /** A call (put) is signalled exactly on a volume-confirmed close beyond the range, with the market. */
  lemma SignalIff(s: UnderlyingSignalSnapshot, regime: MarketRegime, minimumVolumeRatio: real, up: bool)
    ensures EvaluateUnderlyingSignal(s, regime, minimumVolumeRatio).direction == (if up then CALL else PUT)
            <==> && Known(s) && regime == (if up then BULLISH else BEARISH)
                 && 0.0 < s.averageVolume.value && 0 <= s.currentVolume.value
                 && minimumVolumeRatio <= s.currentVolume.value as real / s.averageVolume.value
                 && (if up then s.vwap.value < s.close.value && s.emaSlow.value < s.emaFast.value
                                && s.breakoutHigh.value < s.close.value
                     else s.close.value < s.vwap.value && s.emaFast.value < s.emaSlow.value
                          && s.close.value < s.breakdownLow.value)
  {
  }

  /** An input that the signal lacks. */
  predicate Lacks(s: UnderlyingSignalSnapshot, r: SignalReason) {
    || (r == CLOSE_UNKNOWN && s.close.None?) || (r == VWAP_UNKNOWN && s.vwap.None?)
    || (r == EMA_FAST_UNKNOWN && s.emaFast.None?) || (r == EMA_SLOW_UNKNOWN && s.emaSlow.None?)
    || (r == BREAKOUT_HIGH_UNKNOWN && s.breakoutHigh.None?) || (r == BREAKDOWN_LOW_UNKNOWN && s.breakdownLow.None?)
    || (r == CURRENT_VOLUME_UNKNOWN && s.currentVolume.None?) || (r == AVERAGE_VOLUME_UNKNOWN && s.averageVolume.None?)
  }

  /** A condition of the market's direction that the symbol fails. */
  predicate Opposes(s: UnderlyingSignalSnapshot, regime: MarketRegime, r: SignalReason)
    requires Known(s)
  {
    match regime
    case NO_TRADE => r == MARKET_REGIME_NOT_DIRECTIONAL
    case BULLISH =>
      || (r == PRICE_NOT_ABOVE_VWAP && s.close.value <= s.vwap.value)
      || (r == BULLISH_EMA_ALIGNMENT_FAILED && s.emaFast.value <= s.emaSlow.value)
      || (r == SIX_BAR_BREAKOUT_FAILED && s.close.value <= s.breakoutHigh.value)
    case BEARISH =>
      || (r == PRICE_NOT_BELOW_VWAP && s.vwap.value <= s.close.value)
      || (r == BEARISH_EMA_ALIGNMENT_FAILED && s.emaSlow.value <= s.emaFast.value)
      || (r == SIX_BAR_BREAKDOWN_FAILED && s.breakdownLow.value <= s.close.value)
  }

  /** What stands against a signal, stage by stage: unknown inputs, unusable volume, too little of it, then the direction. */
  predicate Withholds(s: UnderlyingSignalSnapshot, regime: MarketRegime, minimumVolumeRatio: real, r: SignalReason) {
    if !Known(s) then Lacks(s, r)
    else if s.currentVolume.value < 0 || s.averageVolume.value <= 0.0 then r == INVALID_VOLUME_DATA
    else if s.currentVolume.value as real < minimumVolumeRatio * s.averageVolume.value then r == VOLUME_CONFIRMATION_FAILED
    else Opposes(s, regime, r)
  }

  /** A reason is given exactly when it stands against the signal; the ratio is reported from usable volumes on. */
  lemma SignalReasons(s: UnderlyingSignalSnapshot, regime: MarketRegime, minimumVolumeRatio: real, r: SignalReason)
    ensures var d := EvaluateUnderlyingSignal(s, regime, minimumVolumeRatio);
            && (r in d.reasons <==> Withholds(s, regime, minimumVolumeRatio, r))
            && (d.volumeRatio.Some? <==> Known(s) && 0 <= s.currentVolume.value && 0.0 < s.averageVolume.value)
            && (d.volumeRatio.Some? ==> d.volumeRatio.value * s.averageVolume.value == s.currentVolume.value as real)
  {
    hide Missing, Lacks, Opposes, EvaluateUnderlyingSignal;
    MissingIff(s, r);
    if !Known(s) || s.averageVolume.value <= 0.0 || s.currentVolume.value < 0 {
      UnusableInputs(s, regime, minimumVolumeRatio);
    } else {
      RatioIff(s.currentVolume.value as real, s.averageVolume.value, minimumVolumeRatio);
      UsableInputs(s, regime, minimumVolumeRatio);
      if minimumVolumeRatio <= s.currentVolume.value as real / s.averageVolume.value {
        OpposesIff(s, regime, minimumVolumeRatio, r);
      }
    }
  }

  lemma UnusableInputs(s: UnderlyingSignalSnapshot, regime: MarketRegime, minimumVolumeRatio: real)
    requires !Known(s) || s.averageVolume.value <= 0.0 || s.currentVolume.value < 0
    ensures EvaluateUnderlyingSignal(s, regime, minimumVolumeRatio)
            == SignalDecision(NO_SIGNAL, if Known(s) then [INVALID_VOLUME_DATA] else Missing(s), None)
  {
    MissingLength(s);
    hide Missing;
  }

  lemma UsableInputs(s: UnderlyingSignalSnapshot, regime: MarketRegime, minimumVolumeRatio: real)
    requires Known(s) && 0 <= s.currentVolume.value && 0.0 < s.averageVolume.value
    ensures var d, ratio := EvaluateUnderlyingSignal(s, regime, minimumVolumeRatio), s.currentVolume.value as real / s.averageVolume.value;
            d.volumeRatio == Some(ratio) && (ratio < minimumVolumeRatio ==> d.reasons == [VOLUME_CONFIRMATION_FAILED])
  {
    MissingLength(s);
    hide Missing;
  }

  lemma OpposesIff(s: UnderlyingSignalSnapshot, regime: MarketRegime, minimumVolumeRatio: real, r: SignalReason)
    requires Known(s) && 0 <= s.currentVolume.value && 0.0 < s.averageVolume.value
    requires minimumVolumeRatio <= s.currentVolume.value as real / s.averageVolume.value
    ensures r in EvaluateUnderlyingSignal(s, regime, minimumVolumeRatio).reasons <==> Opposes(s, regime, r)
  {
    MissingLength(s);
    hide Missing;
    var reasons := EvaluateUnderlyingSignal(s, regime, minimumVolumeRatio).reasons;
    match regime
    case BULLISH =>
      assert reasons == (if s.close.value <= s.vwap.value then [PRICE_NOT_ABOVE_VWAP] else [])
                        + (if s.emaFast.value <= s.emaSlow.value then [BULLISH_EMA_ALIGNMENT_FAILED] else [])
                        + (if s.close.value <= s.breakoutHigh.value then [SIX_BAR_BREAKOUT_FAILED] else []);
    case BEARISH =>
      assert reasons == (if s.close.value >= s.vwap.value then [PRICE_NOT_BELOW_VWAP] else [])
                        + (if s.emaFast.value >= s.emaSlow.value then [BEARISH_EMA_ALIGNMENT_FAILED] else [])
                        + (if s.close.value >= s.breakdownLow.value then [SIX_BAR_BREAKDOWN_FAILED] else []);
    case NO_TRADE =>
  }

  lemma MissingIff(s: UnderlyingSignalSnapshot, r: SignalReason)
    ensures Missing(s) == [] <==> Known(s)
    ensures r in Missing(s) <==> Lacks(s, r)
    ensures Known(s) ==> !Lacks(s, r)
  {
    hide Unknown;
    var first := Unknown(s.close, CLOSE_UNKNOWN) + Unknown(s.vwap, VWAP_UNKNOWN)
                 + Unknown(s.emaFast, EMA_FAST_UNKNOWN) + Unknown(s.emaSlow, EMA_SLOW_UNKNOWN);
    var second := Unknown(s.breakoutHigh, BREAKOUT_HIGH_UNKNOWN) + Unknown(s.breakdownLow, BREAKDOWN_LOW_UNKNOWN)
                  + Unknown(s.currentVolume, CURRENT_VOLUME_UNKNOWN) + Unknown(s.averageVolume, AVERAGE_VOLUME_UNKNOWN);
    assert Missing(s) == first + second;
    MissingLength(s);
  }

  lemma MissingLength(s: UnderlyingSignalSnapshot)
    ensures Missing(s) == [] <==> Known(s)
  {
  }

  lemma RatioIff(volume: real, average: real, bound: real)
    requires 0.0 < average
    ensures volume / average * average == volume
    ensures volume / average < bound <==> volume < bound * average
  {
    var ratio := volume / average;
    assert ratio * average == volume;
    if ratio < bound {
      LessTimes(ratio, bound, average);
    } else if bound < ratio {
      LessTimes(bound, ratio, average);
    }
  }

  lemma LessTimes(x: real, y: real, scale: real)
    requires x < y && 0.0 < scale
    ensures x * scale < y * scale
  {
  }
}
