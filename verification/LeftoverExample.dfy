/**
  A concrete run of the shipped configuration, strategy policy and example snapshot
  in pilot mode: it enters, fails on a stale quote, and is left with both a limit
  and a fill.
 */
module LeftoverExample {
  import opened Common
  import opened Regime
  import opened BarSet
  import opened SafetyConfig
  import opened TradeManagement
  import opened SessionLog
  import opened SampleGate
  import opened ShadowRunner
  import opened ShadowSession
  import Risk = OpeningRisk
  import P = ShadowPipeline

  // -------------------------------------------------------------- the inputs

  /** The day number of 2026-07-17, and an instant of that day. */
  const FRIDAY := 20_651

  function Friday(hour: int, minute: int, second: int): int {
    FRIDAY * DAY + hour * 60 * MINUTE + minute * MINUTE + second * SECOND
  }

  const CONFIG := Config(
    Some(1), Some("READ_ONLY"), Some(300.0), Some(300.0), Some(5), Some(75.0), Some(100.0), Some(120.0), Some(1), Some(1),
    Some(1), Some(225.0), Some(3.0), Some(7.0), Some(21.0),
    Some(FrictionModel(Some(0.15), Some(0.10), Some(1.0), Some(0.01))), {"LONG_CALL", "LONG_PUT"},
    Some(false), Some(false), Some(false), Some(false), Some(false), Some(false), Some(false), Some(false),
    Some("America/New_York"), Some(30), Some(90), Some(30), Some(15), Some(false), Some(false), Some(true),
    Some(1), Some(false), Some(false), Some(false), Some(false), Some(true))

  const POLICY := P.Policy(
    Some("DESIGN"), 5, ["SPY", "QQQ"], 2, Some(true), Some(10), Some(420), 1.50, 10, 0.30, 0.30, 0.65, 3, 0.05, 500, 500)

  const SETTINGS := P.Settings(CONFIG, POLICY, true, false)

  function ReferenceBar(symbol: string, close: real, average: real, minute: int): CompletedMarketBar {
    CompletedMarketBar(symbol, Some(close), Some(average), Some(average + 1.0), Some(average), Some(5),
                       Some(Aware(Friday(14, minute - 5, 0))), Some(Aware(Friday(14, minute, 0))), Some(Aware(Friday(14, minute, 1))),
                       Some(Aware(Friday(14, minute, 2))), Some(true))
  }

  const BARS := [ReferenceBar("SPY", 101.0, 100.0, 50), ReferenceBar("SPY", 102.0, 100.0, 55),
                 ReferenceBar("QQQ", 201.0, 200.0, 50), ReferenceBar("QQQ", 202.0, 200.0, 55)]

  const UNDERLYING := UnderlyingSignalSnapshot(
    "SOFI", Some(17.60), Some(17.30), Some(17.50), Some(17.35), Some(17.55), Some(17.00), Some(1800), Some(1000.0))

  const OPTION := P.OptionCandidate(
    "SOFI", Risk.CALL_OPTION, Some(17.5), FRIDAY + 7, Some(0.47), Some(0.48), Some(0.47), Some(Aware(Friday(14, 59, 59))),
    Some(6500), Some(5300), Some(FRIDAY + 12), Some(Aware(Friday(15, 0, 0))), Some("e3345530-8e0e-42f2-b2ff-cf5cac20d675"))

  const ACCOUNT := Risk.Account(
    Some("cash"), Some(300.0), Some(300.0), Some(0), Some(0), Some(0), Some(0), Some(0), Some(0), Some(300.0), Some(0.0))

  const CLOCK := Risk.Clock(Aware(Friday(15, 0, 0)), 0, -4 * 60 * MINUTE)

  const SNAPSHOT := P.Snapshot(BARS, UNDERLYING, OPTION, ACCOUNT, CLOCK, Some(0), Some(true), Some(true), Some(false))

  const DECISION := P.Decision(P.SIMULATED_ENTRY, [P.PILOT_NOT_STRATEGY_EVIDENCE], Some(BULLISH), CALL, Some(0.47), Some(47.0), false)

  /** Start, the example snapshot, a stale quote, and a quote at 0.46. */
  const OPS := [
    StartOp(Friday(14, 59, 0)),
    DecisionOp("example-2026-07-17T15:00:00Z", Some(Aware(Friday(14, 59, 59))), Aware(Friday(15, 0, 0)), SNAPSHOT, Success(DECISION),
               Friday(15, 0, 1), Friday(15, 0, 2)),
    EntryOp("quote-1", Some(Aware(Friday(15, 0, 3))), Aware(Friday(15, 0, 20)), Some(0.48), false, Friday(15, 0, 21)),
    EntryOp("quote-2", Some(Aware(Friday(15, 0, 30))), Aware(Friday(15, 0, 31)), Some(0.46), false, Friday(15, 0, 32))]

  const ORDER := P.OrderOf(SNAPSHOT, SETTINGS, 0.47)

  // ------------------------------------------------------------ the decision

  lemma ConfigIsSafe()
    ensures Safe(ShadowConfig(CONFIG))
  {
    var c := ShadowConfig(CONFIG);
    SafeIsGroups(c);
    hide Safe;
    assert Holds(CapitalChecks(c)) && Holds(PremiumChecks(c)) && Holds(RiskChecks(c)) && Holds(TradeChecks(c));
    assert Holds(SwitchChecks(c)) && Holds(ConductChecks(c)) && Holds(SessionChecks(c)) && Holds(AccountChecks(c)) && Holds(StageChecks(c));
  }

  lemma BarsAreSound()
    ensures forall c :: !P.BarsFaulty(SNAPSHOT, POLICY, c)
  {
    assert BarSetSound(BARS, Friday(15, 0, 0), 5, 420) by {
      assert BARS[0].symbol == BARS[1].symbol && BARS[2].symbol == BARS[3].symbol;
      assert BARS[0].symbol[0] == 'S' && BARS[2].symbol[0] == 'Q';
    }
    NoReasonsIff(BARS, Friday(15, 0, 0), 5, 420, 0);
    hide Reported, BarSetSound;
  }

  lemma MarketIsBullish()
    ensures P.MarketOf(SNAPSHOT, POLICY).regime == BULLISH
  {
    assert forall b :: b in BARS ==> Points(b, true);
    BarsOfEach();
    RegimeIff(BARS, ["SPY", "QQQ"], 2, true);
  }

  lemma BarsOfEach()
    ensures |BarsOf(BARS, "SPY")| == 2 && |BarsOf(BARS, "QQQ")| == 2
  {
    hide BarsOf;
    NoBarsOf(BARS, "SPY");
    NoBarsOf(BARS, "QQQ");
    AddsOne(0);
    AddsOne(1);
    AddsOne(2);
    AddsOne(3);
    assert BARS[..4] == BARS;
  }

  lemma AddsOne(i: nat)
    requires i < 4
    ensures |BarsOf(BARS[..i + 1], "SPY")| == |BarsOf(BARS[..i], "SPY")| + (if i < 2 then 1 else 0)
    ensures |BarsOf(BARS[..i + 1], "QQQ")| == |BarsOf(BARS[..i], "QQQ")| + (if i < 2 then 0 else 1)
  {
    hide BarsOf;
    BarsOfNext(BARS, i, "SPY");
    BarsOfNext(BARS, i, "QQQ");
  }

  lemma SignalIsCall()
    ensures P.SignalOf(SNAPSHOT, POLICY).direction == CALL
  {
    MarketIsBullish();
    SignalIff(UNDERLYING, BULLISH, 1.50, true);
  }

  lemma LimitIs()
    ensures P.LimitOf(SNAPSHOT) == Some(0.47)
  {
    assert (0.4775 / 0.01).Floor == 47;
  }

  lemma NothingObjected()
    ensures !P.ZeroPrice(SNAPSHOT) && forall c :: !P.Objects(c, SNAPSHOT, POLICY)
  {
    SignalIsCall();
    ReceiptIsFine();
    ContractIsFine();
    QuoteIsFine();
    hide P.SignalOf, P.ObjectsToReceipt, P.ObjectsToContract, P.ObjectsToQuote;
  }

  lemma ReceiptIsFine()
    ensures forall c :: !P.ObjectsToReceipt(c, SNAPSHOT, POLICY)
  {
  }

  lemma ContractIsFine()
    ensures !P.ZeroPrice(SNAPSHOT) && forall c :: !P.ObjectsToContract(c, SNAPSHOT, POLICY)
  {
    assert P.StrikeDistance(SNAPSHOT) < 0.30;
    assert OPTION.instrumentId.value[0] == 'e';
  }

  lemma QuoteIsFine()
    ensures forall c :: !P.ObjectsToQuote(c, SNAPSHOT, POLICY)
  {
    EntryLimitIsFloor(0.47, 0.48, TICK);
    DayIsFriday();
    hide CalculateEntryLimit, Risk.MarketDay;
  }

  lemma DayIsFriday()
    ensures Risk.MarketDay(CLOCK) == FRIDAY
  {
  }

  lemma IdentityIsFine()
    ensures forall v :: !Risk.ViolatesIdentity(v, ORDER) && !Risk.ViolatesMode(v, ORDER)
  {
    ConfigIsSafe();
    assert ORDER.intent.instrumentId.value[0] == 'e';
    hide ValidateSafetyConfig;
  }

  lemma AccountIsFine()
    ensures forall v :: !Risk.ViolatesAccount(v, ORDER) && !Risk.ViolatesLimits(v, ORDER) && !Risk.ViolatesPositions(v, ORDER)
  {
  }

  lemma ShapeIsFine()
    ensures forall v :: !Risk.ViolatesShape(v, ORDER)
  {
  }

  lemma PremiumIsFine()
    ensures forall v :: !Risk.ViolatesPremium(v, ORDER)
  {
  }

  lemma MarketIsFine()
    ensures forall v :: !Risk.ViolatesQuote(v, ORDER) && !Risk.ViolatesFreshness(v, ORDER) && !Risk.ViolatesLiquidity(v, ORDER)
  {
    DayIsFriday();
    hide Risk.MarketDay;
    assert Risk.RelativeSpread(ORDER.intent) < 0.05;
  }

  lemma NothingViolated()
    ensures forall v :: !Risk.Violates(v, ORDER)
  {
    hide Risk.ViolatesIdentity, Risk.ViolatesMode, Risk.ViolatesAccount, Risk.ViolatesLimits, Risk.ViolatesPositions;
    hide Risk.ViolatesShape, Risk.ViolatesPremium, Risk.ViolatesQuote, Risk.ViolatesFreshness, Risk.ViolatesLiquidity;
    IdentityIsFine();
    AccountIsFine();
    ShapeIsFine();
    PremiumIsFine();
    MarketIsFine();
  }

  /** The pipeline's decision on the example snapshot is a pilot entry at 47 cents. */
  lemma ExampleEnters()
    ensures P.Conforms(SNAPSHOT, SETTINGS, DECISION)
  {
    BarsAreSound();
    MarketIsBullish();
    SignalIsCall();
    LimitIs();
    NothingObjected();
    NothingViolated();
    hide P.BarsFaulty, P.MarketOf, P.SignalOf, P.LimitOf, P.Objects, P.ZeroPrice, Risk.Violates;
  }

  // ----------------------------------------------------------------- the run

  const LINES := [
    Event(1, Friday(14, 59, 0), Started(true)),
    Event(2, Friday(15, 0, 1), Recorded(DECISION, "SOFI")),
    Event(3, Friday(15, 0, 2), Working(0.47, "SOFI")),
    Event(4, Friday(15, 0, 21), SessionLog.Failed(OfSample(STALE_SAMPLE, ENTRY_QUOTE_CHANNEL, "quote-1")))]

  /** The session after its first line, with its limit working, and failed with the limit left over. */
  const STARTED := Session(Run(OBSERVING, LINES[..1], None, None, None), Samples([], [], []))
  const WORKING := Session(Run(ENTRY_PENDING, LINES[..3], Some(0.47), None, None), Samples(DECIDED, [], []))
  const FAILED := Session(Run(ERROR, LINES, Some(0.47), None, None), Samples(DECIDED, [], []))

  const DECIDED := [Sample("example-2026-07-17T15:00:00Z", Friday(14, 59, 59), Friday(15, 0, 0))]

  lemma OneByOne(n: nat)
    requires n < 4
    ensures After(SETTINGS, MAXIMUM_SAMPLE_AGE, OPS[..n + 1])
            == Next(After(SETTINGS, MAXIMUM_SAMPLE_AGE, OPS[..n]), SETTINGS, MAXIMUM_SAMPLE_AGE, OPS[n]).0
  {
    hide Next;
    assert OPS[..n + 1][..n] == OPS[..n];
  }

  lemma Begins()
    ensures After(SETTINGS, MAXIMUM_SAMPLE_AGE, OPS[..0]) == BEGINNING
    ensures Next(BEGINNING, SETTINGS, MAXIMUM_SAMPLE_AGE, OPS[0]).0 == STARTED
  {
    assert LINES[..1] == [LINES[0]];
  }

  lemma Enters()
    ensures Next(STARTED, SETTINGS, MAXIMUM_SAMPLE_AGE, OPS[1]).0 == WORKING
  {
    assert OPS[1].id[0] == 'e';
    assert LINES[..1] + [LINES[1]] + [LINES[2]] == LINES[..3];
  }

  lemma Fails()
    ensures Next(WORKING, SETTINGS, MAXIMUM_SAMPLE_AGE, OPS[2]).0 == FAILED
  {
    assert OPS[2].id[0] == 'q';
    assert LINES[..3] + [LINES[3]] == LINES;
  }

  lemma LimitIsMet()
    ensures var r := Next(FAILED, SETTINGS, MAXIMUM_SAMPLE_AGE, OPS[3]).0.run;
            r.state == ERROR && r.pending == Some(0.47) && r.fill == Some(0.47)
  {
    assert OPS[3].id[0] == 'q';
  }

  /** The run fails with its limit pending, and the next quote meets it: limit and fill are both held. */
  lemma LeftoversAfterError()
    ensures forall op :: op in OPS ==> Genuine(SETTINGS, op)
    ensures var r := After(SETTINGS, MAXIMUM_SAMPLE_AGE, OPS).run;
            r.state == ERROR && r.pending == Some(0.47) && r.fill == Some(0.47)
  {
    ExampleEnters();
    hide P.Conforms, After, Next;
    OneByOne(0);
    OneByOne(1);
    OneByOne(2);
    OneByOne(3);
    Begins();
    Enters();
    Fails();
    LimitIsMet();
    assert OPS[..4] == OPS;
  }
}
