/** The read-only decision chain: bars, regime, signal, contract, limit, risk, activation. */
module ShadowPipeline {
  import opened Common
  import opened Regime
  import opened BarSet
  import opened SafetyConfig
  import opened TradeManagement
  import Risk = OpeningRisk

  datatype PipelineStatus = SIMULATED_ENTRY | NO_ENTRY | REJECTED

  datatype OptionCandidate = OptionCandidate(
    underlying: string, optionType: Risk.OptionType, strike: Option<real>, expiration: int, bid: Option<real>, ask: Option<real>,
    delta: Option<real>, quoteUpdatedAt: Option<Time>, volume: Option<int>, openInterest: Option<int>,
    earningsDate: Option<int>, quoteReceivedAt: Option<Time>, instrumentId: Option<string>)

  /** The strategy policy; the three integrity settings have defaults. */
  datatype Policy = Policy(
    status: Option<string>, intervalMinutes: int, referenceSymbols: seq<string>, confirmations: int,
    requireTrusted: Option<bool>, receiptDelay: Option<int>, latestLag: Option<int>, minimumVolumeRatio: real,
    maximumQuoteAge: int, maximumStrikeDistance: real, minimumDelta: real, maximumDelta: real, earningsBlackout: int,
    maximumSpread: real, minimumVolume: int, minimumOpenInterest: int)

  datatype CandidateReason =
    | OPTION_UNDERLYING_MISMATCH | OPTION_DIRECTION_MISMATCH | FINAL_OPTION_QUOTE_RECEIPT_TIME_MISSING
    | FINAL_OPTION_QUOTE_RECEIPT_TIME_NOT_AWARE | CURRENT_TIME_NOT_TIMEZONE_AWARE | FINAL_OPTION_QUOTE_RECEIPT_FROM_FUTURE
    | FINAL_OPTION_QUOTE_NOT_REFRESHED | OPTION_INSTRUMENT_ID_UNKNOWN | OPTION_STRIKE_UNKNOWN
    | UNDERLYING_PRICE_UNKNOWN_FOR_STRIKE_CHECK | OPTION_STRIKE_IMPLAUSIBLE_FOR_UNDERLYING | OPTION_DELTA_UNKNOWN
    | OPTION_DELTA_BELOW_MINIMUM | OPTION_DELTA_ABOVE_MAXIMUM | EARNINGS_DATE_UNKNOWN | EARNINGS_BLACKOUT
    | OPTION_QUOTE_MISSING | OPTION_QUOTE_INVALID

  datatype Reason =
    | OfBars(bar: BarReason) | OfRegime(regime: RegimeReason) | OfSignal(signal: SignalReason)
    | OfCandidate(candidate: CandidateReason) | OfRisk(violation: Risk.Violation)
    | STRATEGY_NOT_ACTIVATED_FOR_SHADOW | PILOT_NOT_STRATEGY_EVIDENCE

  datatype Decision = Decision(
    status: PipelineStatus, reasons: seq<Reason>, regime: Option<MarketRegime>, direction: SignalDirection,
    limit: Option<real>, premium: Option<real>, hardRuleRejection: bool)

  /** What stops a decision from being made at all. */
  datatype PipelineError = MixedTimestamps | DivisionByZero

  /** One normalized snapshot, with the switches of the session that evaluates it. */
  datatype Snapshot = Snapshot(
    bars: seq<CompletedMarketBar>, underlying: UnderlyingSignalSnapshot, option: OptionCandidate, account: Risk.Account,
    clock: Risk.Clock, completedLiveTrades: Option<int>, marketOpen: Option<bool>, withinEntryWindow: Option<bool>,
    nearForcedExit: Option<bool>)

  datatype Settings = Settings(config: Config, policy: Policy, pilotMode: bool, shadowAuthorized: bool)

  // --------------------------------------------------------- specification

  function LatestLag(p: Policy): int {
    Risk.Or(p.latestLag, 420)
  }

  ghost predicate BarsFaulty(x: Snapshot, p: Policy, c: BarReason) {
    && Risk.Or(p.requireTrusted, true)
    && Reported(x.bars, c, x.clock.now, p.intervalMinutes, LatestLag(p), x.clock.hostOffset)
  }

  function MarketOf(x: Snapshot, p: Policy): RegimeDecision {
    RegimeOf(x.bars, p.referenceSymbols, p.confirmations)
  }

  function SignalOf(x: Snapshot, p: Policy): SignalDecision {
    EvaluateUnderlyingSignal(x.underlying, MarketOf(x, p).regime, p.minimumVolumeRatio)
  }

  function Abs(v: real): real {
    if v < 0.0 then -v else v
  }

  predicate StrikeKnown(o: OptionCandidate) {
    o.strike.Some? && 0.0 < o.strike.value
  }

  /** Distance of the strike from the price, relative to the price. */
  function StrikeDistance(x: Snapshot): real
    requires StrikeKnown(x.option) && x.underlying.close.Some? && x.underlying.close.value != 0.0
  {
    Abs(x.option.strike.value - x.underlying.close.value) / x.underlying.close.value
  }

  predicate ZeroPrice(x: Snapshot) {
    StrikeKnown(x.option) && x.underlying.close == Some(0.0)
  }

  function ReceiptLag(x: Snapshot): Option<int> {
    if x.clock.now.Aware? && x.option.quoteReceivedAt.Some? && x.option.quoteReceivedAt.value.Aware?
    then Some(x.clock.now.us - x.option.quoteReceivedAt.value.us) else None
  }

  function DaysToEarnings(x: Snapshot): Option<int> {
    if x.clock.now.Aware? && x.option.earningsDate.Some? then Some(x.option.earningsDate.value - Risk.MarketDay(x.clock)) else None
  }

  predicate ObjectsToReceipt(c: CandidateReason, x: Snapshot, p: Policy) {
    var received := x.option.quoteReceivedAt;
    || (c == FINAL_OPTION_QUOTE_RECEIPT_TIME_MISSING && received.None?)
    || (c == FINAL_OPTION_QUOTE_RECEIPT_TIME_NOT_AWARE && received.Some? && received.value.Naive?)
    || (c == FINAL_OPTION_QUOTE_RECEIPT_FROM_FUTURE && ReceiptLag(x).Some? && ReceiptLag(x).value < 0)
    || (c == FINAL_OPTION_QUOTE_NOT_REFRESHED && ReceiptLag(x).Some? && 0 <= ReceiptLag(x).value
        && p.maximumQuoteAge * SECOND < ReceiptLag(x).value)
  }

  predicate ObjectsToContract(c: CandidateReason, x: Snapshot, p: Policy)
    requires !ZeroPrice(x)
  {
    var o := x.option;
    || (c == OPTION_INSTRUMENT_ID_UNKNOWN && (o.instrumentId.None? || Blank(o.instrumentId.value)))
    || (c == OPTION_STRIKE_UNKNOWN && !StrikeKnown(o))
    || (c == UNDERLYING_PRICE_UNKNOWN_FOR_STRIKE_CHECK && StrikeKnown(o) && x.underlying.close.None?)
    || (c == OPTION_STRIKE_IMPLAUSIBLE_FOR_UNDERLYING && StrikeKnown(o) && x.underlying.close.Some?
        && p.maximumStrikeDistance < StrikeDistance(x))
    || (c == OPTION_DELTA_UNKNOWN && o.delta.None?)
    || (c == OPTION_DELTA_BELOW_MINIMUM && o.delta.Some? && Abs(o.delta.value) < p.minimumDelta)
    || (c == OPTION_DELTA_ABOVE_MAXIMUM && o.delta.Some? && p.maximumDelta < Abs(o.delta.value))
  }

  predicate ObjectsToQuote(c: CandidateReason, x: Snapshot, p: Policy) {
    var o := x.option;
    || (c == CURRENT_TIME_NOT_TIMEZONE_AWARE && x.clock.now.Naive?)
    || (c == EARNINGS_DATE_UNKNOWN && x.clock.now.Aware? && o.earningsDate.None?)
    || (c == EARNINGS_BLACKOUT && DaysToEarnings(x).Some? && 0 <= DaysToEarnings(x).value <= p.earningsBlackout)
    || (c == OPTION_QUOTE_MISSING && (o.bid.None? || o.ask.None?))
    || (c == OPTION_QUOTE_INVALID && o.bid.Some? && o.ask.Some? && CalculateEntryLimit(o.bid.value, o.ask.value, TICK).Failure?)
  }

  function ExpectedType(direction: SignalDirection): Risk.OptionType {
    if direction == CALL then Risk.CALL_OPTION else Risk.PUT_OPTION
  }

  /** Exactly when the contract is objected to. */
  predicate Objects(c: CandidateReason, x: Snapshot, p: Policy)
    requires !ZeroPrice(x)
  {
    || (c == OPTION_UNDERLYING_MISMATCH && x.option.underlying != x.underlying.symbol)
    || (c == OPTION_DIRECTION_MISMATCH && x.option.optionType != ExpectedType(SignalOf(x, p).direction))
    || ObjectsToReceipt(c, x, p) || ObjectsToContract(c, x, p) || ObjectsToQuote(c, x, p)
  }

  function LimitOf(x: Snapshot): Option<real> {
    if x.option.bid.None? || x.option.ask.None? then None
    else
      var limit := CalculateEntryLimit(x.option.bid.value, x.option.ask.value, TICK);
      if limit.Success? then Some(limit.value) else None
  }

  /** The opening order put to the validator, on the shadow copy of the configuration. */
  function OrderOf(x: Snapshot, s: Settings, limit: real): Risk.Order {
    var o, p := x.option, s.policy;
    Risk.Order(
      Risk.OrderIntent(o.optionType, Risk.BUY, Risk.OPEN, Risk.LIMIT, 1, Some(limit), o.expiration, o.bid, o.ask,
                       o.quoteUpdatedAt, o.volume, o.openInterest, o.strike, o.instrumentId),
      x.account, ShadowConfig(s.config), x.clock, x.completedLiveTrades, x.marketOpen, x.withinEntryWindow, x.nearForcedExit,
      Some(p.maximumQuoteAge), Some(p.maximumSpread), Some(p.minimumVolume), Some(p.minimumOpenInterest),
      Some(false), Some("SHADOW_SIMULATION_ONLY"))
  }

  predicate Activated(s: Settings) {
    s.pilotMode || s.policy.status == Some("SHADOW") || s.shadowAuthorized
  }

  /** A decision with these fields, whatever its reasons. */
  ghost predicate Refused(d: Decision, status: PipelineStatus, regime: Option<MarketRegime>, direction: SignalDirection,
                          limit: Option<real>, premium: Option<real>, hard: bool) {
    d.status == status && d.regime == regime && d.direction == direction && d.limit == limit && d.premium == premium
    && d.hardRuleRejection == hard
  }

  /** Nothing before the validator stands in the way of an entry. */
  ghost predicate Candidate(x: Snapshot, s: Settings) {
    && (forall c :: !BarsFaulty(x, s.policy, c))
    && MarketOf(x, s.policy).regime != NO_TRADE && SignalOf(x, s.policy).direction != NO_SIGNAL
    && !ZeroPrice(x) && (forall c :: !Objects(c, x, s.policy))
  }

  /** What a completed decision says, stage by stage. */
  ghost predicate Conforms(x: Snapshot, s: Settings, d: Decision) {
    var p := s.policy;
    var regime, signal := MarketOf(x, p), SignalOf(x, p);
    if exists c :: BarsFaulty(x, p, c) then
      && Refused(d, REJECTED, None, NO_SIGNAL, None, None, true)
      && forall r :: r in d.reasons <==> r.OfBars? && BarsFaulty(x, p, r.bar)
    else if regime.regime == NO_TRADE then
      && Refused(d, NO_ENTRY, Some(NO_TRADE), NO_SIGNAL, None, None, false)
      && forall r :: r in d.reasons <==> r.OfRegime? && r.regime in regime.reasons
    else if signal.direction == NO_SIGNAL then
      && Refused(d, NO_ENTRY, Some(regime.regime), NO_SIGNAL, None, None, false)
      && forall r :: r in d.reasons <==> r.OfSignal? && r.signal in signal.reasons
    else !ZeroPrice(x) && Judged(x, s, d)
  }

  /** The part of a decision that concerns the contract and its order. */
  ghost predicate Judged(x: Snapshot, s: Settings, d: Decision)
    requires !ZeroPrice(x)
  {
    var p := s.policy;
    var regime, direction, limit := Some(MarketOf(x, p).regime), SignalOf(x, p).direction, LimitOf(x);
    if exists c :: Objects(c, x, p) then
      && Refused(d, REJECTED, regime, direction, limit, None, false)
      && forall r :: r in d.reasons <==> r.OfCandidate? && Objects(r.candidate, x, p)
    else limit.Some? && Settled(x, s, limit.value, regime, direction, d)
  }

  /** The part of a decision that follows the validator. */
  ghost predicate Settled(x: Snapshot, s: Settings, limit: real, regime: Option<MarketRegime>, direction: SignalDirection, d: Decision) {
    var order := OrderOf(x, s, limit);
    if exists v :: Risk.Violates(v, order) then
      && Refused(d, REJECTED, regime, direction, Some(limit), Risk.Premium(order), true)
      && forall r :: r in d.reasons <==> r.OfRisk? && Risk.Violates(r.violation, order)
    else if !Activated(s) then
      d == Decision(REJECTED, [STRATEGY_NOT_ACTIVATED_FOR_SHADOW], regime, direction, Some(limit), Risk.Premium(order), false)
    else
      d == Decision(SIMULATED_ENTRY, if s.pilotMode then [PILOT_NOT_STRATEGY_EVIDENCE] else [], regime, direction,
                    Some(limit), Risk.Premium(order), false)
  }

  // ------------------------------------------------------------ evaluation

  function Add(reasons: seq<CandidateReason>, condition: bool, c: CandidateReason): (r: seq<CandidateReason>)
    ensures forall x :: x in r <==> x in reasons || (condition && x == c)
  {
    if condition then reasons + [c] else reasons
  }

  method ReceiptObjections(x: Snapshot, p: Policy) returns (reasons: seq<CandidateReason>)
    ensures forall c :: c in reasons <==>
              ObjectsToReceipt(c, x, p) || (c == CURRENT_TIME_NOT_TIMEZONE_AWARE && ReceiptAware(x) && x.clock.now.Naive?)
  {
    hide Add;
    var received := x.option.quoteReceivedAt;
    if received.None? {
      reasons := Add([], true, FINAL_OPTION_QUOTE_RECEIPT_TIME_MISSING);
    } else if received.value.Naive? {
      reasons := Add([], true, FINAL_OPTION_QUOTE_RECEIPT_TIME_NOT_AWARE);
    } else if x.clock.now.Naive? {
      reasons := Add([], true, CURRENT_TIME_NOT_TIMEZONE_AWARE);
    } else {
      var lag := x.clock.now.us - received.value.us;
      if lag < 0 {
        reasons := Add([], true, FINAL_OPTION_QUOTE_RECEIPT_FROM_FUTURE);
      } else {
        reasons := Add([], lag > p.maximumQuoteAge * SECOND, FINAL_OPTION_QUOTE_NOT_REFRESHED);
      }
    }
  }

  predicate ReceiptAware(x: Snapshot) {
    x.option.quoteReceivedAt.Some? && x.option.quoteReceivedAt.value.Aware?
  }

  method ContractObjections(x: Snapshot, p: Policy) returns (r: Result<seq<CandidateReason>, PipelineError>)
    ensures r.Failure? <==> ZeroPrice(x)
    ensures r.Failure? ==> r.error == DivisionByZero
    ensures r.Success? ==> forall c :: c in r.value <==> ObjectsToContract(c, x, p)
  {
    hide Add;
    var o := x.option;
    var reasons := Add([], o.instrumentId.None? || Blank(o.instrumentId.value), OPTION_INSTRUMENT_ID_UNKNOWN);
    if o.strike.None? || o.strike.value <= 0.0 {
      reasons := Add(reasons, true, OPTION_STRIKE_UNKNOWN);
    } else if x.underlying.close.None? {
      reasons := Add(reasons, true, UNDERLYING_PRICE_UNKNOWN_FOR_STRIKE_CHECK);
    } else {
      if x.underlying.close.value == 0.0 {
        return Failure(DivisionByZero);
      }
      var distance := StrikeDistance(x);
      hide StrikeDistance;
      reasons := Add(reasons, distance > p.maximumStrikeDistance, OPTION_STRIKE_IMPLAUSIBLE_FOR_UNDERLYING);
    }
    if o.delta.None? {
      reasons := Add(reasons, true, OPTION_DELTA_UNKNOWN);
    } else {
      var absolute := Abs(o.delta.value);
      reasons := Add(reasons, absolute < p.minimumDelta, OPTION_DELTA_BELOW_MINIMUM);
      reasons := Add(reasons, absolute > p.maximumDelta, OPTION_DELTA_ABOVE_MAXIMUM);
    }
    return Success(reasons);
  }

  method QuoteObjections(x: Snapshot, p: Policy) returns (reasons: seq<CandidateReason>, limit: Option<real>)
    ensures forall c :: c in reasons <==> ObjectsToQuote(c, x, p)
    ensures limit == LimitOf(x)
  {
    hide CalculateEntryLimit, Add, Risk.MarketDay;
    var o := x.option;
    reasons := [];
    if x.clock.now.Naive? {
      reasons := Add(reasons, true, CURRENT_TIME_NOT_TIMEZONE_AWARE);
    } else if o.earningsDate.None? {
      reasons := Add(reasons, true, EARNINGS_DATE_UNKNOWN);
    } else {
      var days := o.earningsDate.value - Risk.MarketDay(x.clock);
      reasons := Add(reasons, 0 <= days <= p.earningsBlackout, EARNINGS_BLACKOUT);
    }
    limit := None;
    if o.bid.None? || o.ask.None? {
      reasons := Add(reasons, true, OPTION_QUOTE_MISSING);
    } else {
      var computed := CalculateEntryLimit(o.bid.value, o.ask.value, TICK);
      if computed.Failure? {
        reasons := Add(reasons, true, OPTION_QUOTE_INVALID);
      } else {
        limit := Some(computed.value);
      }
    }
  }

  /** All objections to the contract, and its limit. */
  method CandidateObjections(x: Snapshot, p: Policy, direction: SignalDirection)
    returns (r: Result<(seq<CandidateReason>, Option<real>), PipelineError>)
    requires direction == SignalOf(x, p).direction
    ensures r.Failure? <==> ZeroPrice(x)
    ensures r.Failure? ==> r.error == DivisionByZero
    ensures r.Success? ==> (forall c :: c in r.value.0 <==> Objects(c, x, p)) && r.value.1 == LimitOf(x)
  {
    hide SignalOf, LimitOf, Add, ObjectsToContract, ZeroPrice;
    var reasons := Add([], x.option.underlying != x.underlying.symbol, OPTION_UNDERLYING_MISMATCH);
    reasons := Add(reasons, x.option.optionType != ExpectedType(direction), OPTION_DIRECTION_MISMATCH);
    var receipt := ReceiptObjections(x, p);
    var contract := ContractObjections(x, p);
    if contract.Failure? {
      return Failure(contract.error);
    }
    var quote, limit := QuoteObjections(x, p);
    ClockObjection(x, p);
    hide ObjectsToReceipt, ObjectsToQuote;
    return Success((Dedup(reasons + receipt + contract.value + quote), limit));
  }

  lemma ClockObjection(x: Snapshot, p: Policy)
    ensures ObjectsToQuote(CURRENT_TIME_NOT_TIMEZONE_AWARE, x, p) <==> x.clock.now.Naive?
  {
  }

  function OfAll<T(!new)>(codes: seq<T>, wrap: T -> Reason): (r: seq<Reason>)
    ensures forall k :: k in r <==> exists c :: c in codes && k == wrap(c)
  {
    if codes == [] then [] else OfAll(codes[..|codes| - 1], wrap) + [wrap(codes[|codes| - 1])]
  }

  /** The stages behind the signal. */
  method JudgeCandidate(x: Snapshot, s: Settings, regime: MarketRegime, direction: SignalDirection) returns (r: Result<Decision, PipelineError>)
    requires regime == MarketOf(x, s.policy).regime && direction == SignalOf(x, s.policy).direction
    ensures r.Failure? <==> ZeroPrice(x)
    ensures r.Failure? ==> r.error == DivisionByZero
    ensures r.Success? ==> Judged(x, s, r.value)
  {
    hide MarketOf, SignalOf, LimitOf, Settled, Objects, ZeroPrice;
    var candidate := CandidateObjections(x, s.policy, direction);
    if candidate.Failure? {
      return Failure(candidate.error);
    }
    var (reasons, limit) := candidate.value;
    if reasons != [] || limit.None? {
      NoLimitIsObjected(x, s.policy);
      assert reasons != [] ==> Objects(reasons[0], x, s.policy);
      return Success(Decision(REJECTED, OfAll(reasons, (c: CandidateReason) => OfCandidate(c)), Some(regime), direction, limit, None, false));
    }
    var settled := SettleOrder(x, s, limit.value, Some(regime), direction);
    return Success(settled);
  }

  lemma NoLimitIsObjected(x: Snapshot, p: Policy)
    requires !ZeroPrice(x)
    ensures LimitOf(x).None? ==> exists c :: Objects(c, x, p)
  {
    assert ObjectsToQuote(OPTION_QUOTE_MISSING, x, p) || ObjectsToQuote(OPTION_QUOTE_INVALID, x, p) || LimitOf(x).Some?;
    hide ObjectsToReceipt, ObjectsToContract, ObjectsToQuote;
    assert ObjectsToQuote(OPTION_QUOTE_MISSING, x, p) ==> Objects(OPTION_QUOTE_MISSING, x, p);
    assert ObjectsToQuote(OPTION_QUOTE_INVALID, x, p) ==> Objects(OPTION_QUOTE_INVALID, x, p);
  }

  /** The stages behind the contract checks. */
  method SettleOrder(x: Snapshot, s: Settings, limit: real, regime: Option<MarketRegime>, direction: SignalDirection)
    returns (d: Decision)
    ensures Settled(x, s, limit, regime, direction, d)
  {
    hide Risk.Violates, OrderOf, Risk.Premium;
    var order := OrderOf(x, s, limit);
    var risk := Risk.EvaluateOpeningOrder(order);
    if !risk.approved {
      assert Risk.Violates(risk.violations[0], order);
      return Decision(REJECTED, OfAll(risk.violations, (v: Risk.Violation) => OfRisk(v)), regime, direction, Some(limit), risk.premium, true);
    }
    if !s.pilotMode && !(s.policy.status == Some("SHADOW") || s.shadowAuthorized) {
      return Decision(REJECTED, [STRATEGY_NOT_ACTIVATED_FOR_SHADOW], regime, direction, Some(limit), risk.premium, false);
    }
    return Decision(SIMULATED_ENTRY, if s.pilotMode then [PILOT_NOT_STRATEGY_EVIDENCE] else [], regime, direction,
                    Some(limit), risk.premium, false);
  }

  /** The timeline reasons, when trusted metadata is required. */
  method TimelineReasons(x: Snapshot, p: Policy) returns (r: Result<seq<BarReason>, PipelineError>)
    ensures r.Success? ==> forall c :: c in r.value <==> BarsFaulty(x, p, c)
    ensures r.Failure? <==> Incomparable(x, p)
    ensures r.Failure? ==> r.error == MixedTimestamps
  {
    hide Reported, Mixed;
    if !Risk.Or(p.requireTrusted, true) {
      return Success([]);
    }
    var reasons := ValidateBarSet(x.bars, x.clock.now, p.intervalMinutes, Risk.Or(p.receiptDelay, 10), Some(LatestLag(p)),
                                  x.clock.hostOffset);
    if reasons.Failure? {
      return Failure(MixedTimestamps);
    }
    return Success(reasons.value);
  }

  /** The timeline cannot be checked at all. */
  ghost predicate Incomparable(x: Snapshot, p: Policy) {
    Risk.Or(p.requireTrusted, true) && Mixed(x.bars)
  }

  /** The decision reaches the contract with a price of exactly zero. */
  ghost predicate Undivided(x: Snapshot, s: Settings) {
    && !Incomparable(x, s.policy) && (forall c :: !BarsFaulty(x, s.policy, c))
    && MarketOf(x, s.policy).regime != NO_TRADE && SignalOf(x, s.policy).direction != NO_SIGNAL && ZeroPrice(x)
  }

  /**
    One decision. It stops at the first stage that refuses, with all of that
    stage's reasons. It cannot be made exactly when bar ends cannot be compared, or
    when a signalled contract is held against a price of zero.
   */
  method EvaluateShadowCandidate(x: Snapshot, s: Settings) returns (r: Result<Decision, PipelineError>)
    ensures r.Success? ==> Conforms(x, s, r.value)
    ensures r == Failure(MixedTimestamps) <==> Incomparable(x, s.policy)
    ensures r == Failure(DivisionByZero) <==> Undivided(x, s)
  {
    hide BarsFaulty, RegimeOf, EvaluateUnderlyingSignal, Judged, ZeroPrice, Incomparable;
    var p := s.policy;
    var timeline := TimelineReasons(x, p);
    if timeline.Failure? {
      return Failure(timeline.error);
    }
    if timeline.value != [] {
      assert BarsFaulty(x, p, timeline.value[0]);
      return Success(Decision(REJECTED, OfAll(timeline.value, (c: BarReason) => OfBars(c)), None, NO_SIGNAL, None, None, true));
    }
    var regime := DetermineMarketRegime(x.bars, p.referenceSymbols, p.confirmations);
    if regime.regime == NO_TRADE {
      return Success(Decision(NO_ENTRY, OfAll(regime.reasons, (c: RegimeReason) => OfRegime(c)), Some(NO_TRADE), NO_SIGNAL, None, None, false));
    }
    var signal := EvaluateUnderlyingSignal(x.underlying, regime.regime, p.minimumVolumeRatio);
    if signal.direction == NO_SIGNAL {
      return Success(Decision(NO_ENTRY, OfAll(signal.reasons, (c: SignalReason) => OfSignal(c)), Some(regime.regime), NO_SIGNAL, None, None, false));
    }
    r := JudgeCandidate(x, s, regime.regime, signal.direction);
  }

  // -------------------------------------------------- what an entry implies

  /** An entry is simulated exactly when no stage refuses. */
  lemma EntryIff(x: Snapshot, s: Settings, d: Decision)
    requires Conforms(x, s, d)
    ensures d.status == SIMULATED_ENTRY <==>
              && Candidate(x, s) && Activated(s)
              && LimitOf(x).Some? && forall v :: !Risk.Violates(v, OrderOf(x, s, LimitOf(x).value))
  {
    hide BarsFaulty, MarketOf, SignalOf, Objects, ZeroPrice, LimitOf, OrderOf, Risk.Violates, Risk.Premium;
  }

  /** A pilot entry, and only a pilot entry, is marked as no evidence. */
  lemma PilotMark(x: Snapshot, s: Settings, d: Decision)
    requires Conforms(x, s, d)
    ensures PILOT_NOT_STRATEGY_EVIDENCE in d.reasons <==> d.status == SIMULATED_ENTRY && s.pilotMode
  {
    hide BarsFaulty, MarketOf, SignalOf, Objects, ZeroPrice, LimitOf, OrderOf, Risk.Violates, Risk.Premium;
  }

  /**
    Every entry buys one contract in the signalled direction, at a limit between
    zero and the ask whose premium is under the ceiling of the approved stage.
   */
  lemma EntryIsBounded(x: Snapshot, s: Settings, d: Decision)
    requires Conforms(x, s, d) && d.status == SIMULATED_ENTRY
    ensures Safe(ShadowConfig(s.config)) && d.limit.Some? && 0.0 < d.limit.value && d.premium == Some(d.limit.value * 100.0)
    ensures d.limit.value * 100.0 <= StageCeiling(ShadowConfig(s.config)) <= 120.0
    ensures s.config.approvedStage == Some(1) ==> d.limit.value * 100.0 <= 75.0
    ensures x.option.ask.Some? && d.limit.value <= x.option.ask.value
    ensures d.direction == SignalOf(x, s.policy).direction && x.option.optionType == ExpectedType(d.direction)
  {
    EntryIff(x, s, d);
    EntryFields(x, s, d);
    assert !Objects(OPTION_DIRECTION_MISMATCH, x, s.policy);
    EntryAffordable(x, s, d.limit.value);
    EntryLimitIsFloor(x.option.bid.value, x.option.ask.value, TICK);
    hide Conforms, Candidate, BarsFaulty, MarketOf, SignalOf, ZeroPrice, Risk.Violates, Safe, StageCeiling, CalculateEntryLimit;
    hide ObjectsToReceipt, ObjectsToContract, ObjectsToQuote;
  }

  lemma EntryFields(x: Snapshot, s: Settings, d: Decision)
    requires Conforms(x, s, d) && d.status == SIMULATED_ENTRY
    ensures LimitOf(x).Some? && d.limit == LimitOf(x) && d.premium == Risk.Premium(OrderOf(x, s, LimitOf(x).value))
    ensures d.direction == SignalOf(x, s.policy).direction
  {
    hide BarsFaulty, MarketOf, SignalOf, Objects, ZeroPrice, LimitOf, OrderOf, Risk.Violates, Risk.Premium;
  }

  lemma EntryAffordable(x: Snapshot, s: Settings, limit: real)
    requires forall v :: !Risk.Violates(v, OrderOf(x, s, limit))
    ensures Safe(ShadowConfig(s.config)) && 0.0 < limit
    ensures limit * 100.0 <= StageCeiling(ShadowConfig(s.config)) <= 120.0
    ensures s.config.approvedStage == Some(1) ==> limit * 100.0 <= 75.0
  {
    var order := OrderOf(x, s, limit);
    var r := Risk.RiskDecision(true, [], Risk.Premium(order));
    Risk.ApprovedIsAffordable(order, r);
    hide Risk.Violates, Safe, StageCeiling;
  }

  // ------------------------------------------------ what every decision says

  /** The evaluation gets as far as the contract. */
  ghost predicate ReachesContract(x: Snapshot, s: Settings) {
    (forall c :: !BarsFaulty(x, s.policy, c)) && MarketOf(x, s.policy).regime != NO_TRADE && SignalOf(x, s.policy).direction != NO_SIGNAL
  }

  /** The fields of a decision, by how far the evaluation got. */
  lemma DecisionSays(x: Snapshot, s: Settings, d: Decision)
    requires Conforms(x, s, d)
    ensures var p := s.policy;
            var faulty := exists c :: BarsFaulty(x, p, c);
            var ordered := ReachesContract(x, s) && !ZeroPrice(x) && (forall c :: !Objects(c, x, p)) && LimitOf(x).Some?;
            && (d.status == NO_ENTRY <==> !faulty && !ReachesContract(x, s))
            && (d.regime == if faulty then None else Some(MarketOf(x, p).regime))
            && (d.direction == if ReachesContract(x, s) then SignalOf(x, p).direction else NO_SIGNAL)
            && (d.limit == if ReachesContract(x, s) then LimitOf(x) else None)
            && (d.premium == if ordered && 0.0 < LimitOf(x).value then Some(LimitOf(x).value * 100.0) else None)
            && (d.hardRuleRejection <==> faulty || (ordered && exists v :: Risk.Violates(v, OrderOf(x, s, LimitOf(x).value))))
            && (d.status == SIMULATED_ENTRY ==> d.reasons == if s.pilotMode then [PILOT_NOT_STRATEGY_EVIDENCE] else [])
            && (d.status != SIMULATED_ENTRY && ordered && !d.hardRuleRejection ==> d.reasons == [STRATEGY_NOT_ACTIVATED_FOR_SHADOW])
  {
    LimitIsPositive(x);
    hide BarsFaulty, MarketOf, SignalOf, Objects, ZeroPrice, LimitOf, Risk.Violates;
  }

  lemma LimitIsPositive(x: Snapshot)
    ensures LimitOf(x).Some? ==> 0.0 <= LimitOf(x).value
  {
    if LimitOf(x).Some? {
      EntryLimitIsFloor(x.option.bid.value, x.option.ask.value, TICK);
    }
    hide CalculateEntryLimit;
  }

  // --------------------------------------------------- an entry in plain terms

  /** The timeline stage lets the bars through. */
  ghost predicate BarsAccepted(x: Snapshot, p: Policy) {
    && x.clock.now.Aware?
    && (p.requireTrusted == Some(false)
        || BarSetSound(x.bars, x.clock.now.us, p.intervalMinutes, if p.latestLag.Some? then p.latestLag.value else 420))
  }

  lemma BarsAcceptedIff(x: Snapshot, p: Policy)
    requires x.clock.now.Aware?
    ensures BarsAccepted(x, p) <==> forall c :: !BarsFaulty(x, p, c)
  {
    assert x.clock.now == Aware(x.clock.now.us);
    NoReasonsIff(x.bars, x.clock.now.us, p.intervalMinutes, LatestLag(p), x.clock.hostOffset);
    hide Reported, BarSetSound;
    forall c ensures Reported(x.bars, c, Aware(x.clock.now.us), p.intervalMinutes, LatestLag(p), x.clock.hostOffset)
                     ==> p.requireTrusted != Some(false) ==> BarsFaulty(x, p, c) {
    }
  }

  /** The market and the symbol move one way. */
  ghost predicate Moves(x: Snapshot, p: Policy, up: bool) {
    var u := x.underlying;
    && p.referenceSymbols != [] && (forall s :: s in p.referenceSymbols ==> Aligned(x.bars, s, p.confirmations, up))
    && Known(u) && 0.0 < u.averageVolume.value && 0 <= u.currentVolume.value
    && p.minimumVolumeRatio <= u.currentVolume.value as real / u.averageVolume.value
    && (if up then u.vwap.value < u.close.value && u.emaSlow.value < u.emaFast.value && u.breakoutHigh.value < u.close.value
        else u.close.value < u.vwap.value && u.emaFast.value < u.emaSlow.value && u.close.value < u.breakdownLow.value)
  }

  lemma MovesIff(x: Snapshot, p: Policy, up: bool)
    requires 1 <= p.confirmations
    ensures Moves(x, p, up) <==> SignalOf(x, p).direction == if up then CALL else PUT
  {
    RegimeIff(x.bars, p.referenceSymbols, p.confirmations, up);
    SignalIff(x.underlying, MarketOf(x, p).regime, p.minimumVolumeRatio, up);
    hide RegimeOf, EvaluateUnderlyingSignal, Aligned;
  }

  /** An identified contract near the price, with a delta in its bounds. */
  predicate NamesContract(x: Snapshot, p: Policy) {
    var o, price, most := x.option, x.underlying.close, p.maximumStrikeDistance;
    && o.instrumentId.Some? && !Blank(o.instrumentId.value)
    && o.strike.Some? && 0.0 < o.strike.value && price.Some? && price.value != 0.0
    && (if 0.0 < price.value then -most * price.value <= o.strike.value - price.value <= most * price.value
        else most * price.value <= o.strike.value - price.value)
    && o.delta.Some? && (p.minimumDelta <= o.delta.value || o.delta.value <= -p.minimumDelta)
    && -p.maximumDelta <= o.delta.value <= p.maximumDelta
  }

  /** A valid quote on a contract whose next earnings are known and outside the blackout. */
  predicate OffEarnings(x: Snapshot, p: Policy) {
    var o := x.option;
    && x.clock.now.Aware? && o.earningsDate.Some? && !(0 <= o.earningsDate.value - Risk.MarketDay(x.clock) <= p.earningsBlackout)
    && o.bid.Some? && o.ask.Some? && 0.0 <= o.bid.value <= o.ask.value && 0.0 < o.ask.value
  }

  /** A named contract on the signalled side of the same symbol, on a valid quote received just now. */
  predicate ContractAccepted(x: Snapshot, p: Policy, up: bool) {
    var o, now := x.option, x.clock.now;
    && o.underlying == x.underlying.symbol && o.optionType == (if up then Risk.CALL_OPTION else Risk.PUT_OPTION)
    && NamesContract(x, p) && OffEarnings(x, p)
    && now.Aware? && o.quoteReceivedAt.Some? && o.quoteReceivedAt.value.Aware?
    && 0 <= now.us - o.quoteReceivedAt.value.us <= p.maximumQuoteAge * 1_000_000
  }

  lemma DistanceIff(strike: real, price: real, most: real)
    requires price != 0.0
    ensures Abs(strike - price) / price <= most
            <==> if 0.0 < price then -most * price <= strike - price <= most * price else most * price <= Abs(strike - price)
  {
    var quotient := Abs(strike - price) / price;
    assert quotient * price == Abs(strike - price);
    if 0.0 < price {
      Risk.TimesMid(quotient, most, price);
    } else {
      Risk.TimesMid(quotient, most, -price);
      assert quotient * -price == -(quotient * price) && most * -price == -(most * price);
    }
  }

  lemma ReceiptAcceptedIff(x: Snapshot, p: Policy)
    ensures ((forall c :: !ObjectsToReceipt(c, x, p)) && x.clock.now.Aware?)
            <==> && x.clock.now.Aware? && x.option.quoteReceivedAt.Some? && x.option.quoteReceivedAt.value.Aware?
                 && 0 <= x.clock.now.us - x.option.quoteReceivedAt.value.us <= p.maximumQuoteAge * 1_000_000
  {
    var missing := ObjectsToReceipt(FINAL_OPTION_QUOTE_RECEIPT_TIME_MISSING, x, p);
    var naive := ObjectsToReceipt(FINAL_OPTION_QUOTE_RECEIPT_TIME_NOT_AWARE, x, p);
    var future := ObjectsToReceipt(FINAL_OPTION_QUOTE_RECEIPT_FROM_FUTURE, x, p);
    var late := ObjectsToReceipt(FINAL_OPTION_QUOTE_NOT_REFRESHED, x, p);
    assert !missing && !naive ==> x.option.quoteReceivedAt.Some? && x.option.quoteReceivedAt.value.Aware?;
  }

  lemma StrikeAcceptedIff(x: Snapshot, p: Policy)
    ensures (!ZeroPrice(x) && forall c :: !ObjectsToContract(c, x, p))
            <==> NamesContract(x, p)
  {
    var o := x.option;
    if !ZeroPrice(x) {
      hide Blank, StrikeDistance;
      assert ObjectsToContract(OPTION_INSTRUMENT_ID_UNKNOWN, x, p) <==> o.instrumentId.None? || Blank(o.instrumentId.value);
      assert ObjectsToContract(OPTION_STRIKE_UNKNOWN, x, p) <==> !StrikeKnown(o);
      assert ObjectsToContract(UNDERLYING_PRICE_UNKNOWN_FOR_STRIKE_CHECK, x, p) <==> StrikeKnown(o) && x.underlying.close.None?;
      assert ObjectsToContract(OPTION_DELTA_UNKNOWN, x, p) <==> o.delta.None?;
      if o.delta.Some? {
        DeltaAcceptedIff(x, p);
      }
      if StrikeKnown(o) && x.underlying.close.Some? {
        FarIff(x, p);
      }
    }
  }

  lemma FarIff(x: Snapshot, p: Policy)
    requires StrikeKnown(x.option) && x.underlying.close.Some? && !ZeroPrice(x)
    ensures var strike, price, most := x.option.strike.value, x.underlying.close.value, p.maximumStrikeDistance;
            !ObjectsToContract(OPTION_STRIKE_IMPLAUSIBLE_FOR_UNDERLYING, x, p)
            <==> if 0.0 < price then -most * price <= strike - price <= most * price else most * price <= strike - price
  {
    DistanceIff(x.option.strike.value, x.underlying.close.value, p.maximumStrikeDistance);
  }

  lemma DeltaAcceptedIff(x: Snapshot, p: Policy)
    requires !ZeroPrice(x) && x.option.delta.Some?
    ensures (!ObjectsToContract(OPTION_DELTA_BELOW_MINIMUM, x, p) && !ObjectsToContract(OPTION_DELTA_ABOVE_MAXIMUM, x, p))
            <==> && (p.minimumDelta <= x.option.delta.value || x.option.delta.value <= -p.minimumDelta)
                 && -p.maximumDelta <= x.option.delta.value <= p.maximumDelta
  {
    hide StrikeDistance;
  }

  lemma QuoteAcceptedIff(x: Snapshot, p: Policy)
    ensures (forall c :: !ObjectsToQuote(c, x, p)) <==> OffEarnings(x, p)
  {
    hide Risk.MarketDay, CalculateEntryLimit;
    var o := x.option;
    assert ObjectsToQuote(CURRENT_TIME_NOT_TIMEZONE_AWARE, x, p) <==> x.clock.now.Naive?;
    assert ObjectsToQuote(EARNINGS_DATE_UNKNOWN, x, p) <==> x.clock.now.Aware? && o.earningsDate.None?;
    assert ObjectsToQuote(EARNINGS_BLACKOUT, x, p) <==> DaysToEarnings(x).Some? && 0 <= DaysToEarnings(x).value <= p.earningsBlackout;
    assert ObjectsToQuote(OPTION_QUOTE_MISSING, x, p) <==> o.bid.None? || o.ask.None?;
    if o.bid.Some? && o.ask.Some? {
      assert ObjectsToQuote(OPTION_QUOTE_INVALID, x, p) <==> CalculateEntryLimit(o.bid.value, o.ask.value, TICK).Failure?;
      EntryLimitIsFloor(o.bid.value, o.ask.value, TICK);
    }
  }

  lemma ContractAcceptedIff(x: Snapshot, p: Policy, up: bool)
    requires SignalOf(x, p).direction == if up then CALL else PUT
    ensures ContractAccepted(x, p, up) <==> !ZeroPrice(x) && forall c :: !Objects(c, x, p)
  {
    ReceiptAcceptedIff(x, p);
    StrikeAcceptedIff(x, p);
    QuoteAcceptedIff(x, p);
    hide SignalOf, ObjectsToReceipt, ObjectsToContract, ObjectsToQuote, ZeroPrice;
    if !ZeroPrice(x) && forall c :: !Objects(c, x, p) {
      Unobjected(x, p);
    }
  }

  lemma Unobjected(x: Snapshot, p: Policy)
    requires !ZeroPrice(x) && forall c :: !Objects(c, x, p)
    ensures forall c :: !ObjectsToReceipt(c, x, p) && !ObjectsToContract(c, x, p) && !ObjectsToQuote(c, x, p)
    ensures x.option.underlying == x.underlying.symbol && x.option.optionType == ExpectedType(SignalOf(x, p).direction)
  {
    hide SignalOf, ObjectsToReceipt, ObjectsToContract, ObjectsToQuote, ZeroPrice, ExpectedType;
    assert !Objects(OPTION_UNDERLYING_MISMATCH, x, p) && !Objects(OPTION_DIRECTION_MISMATCH, x, p);
    forall c ensures !ObjectsToReceipt(c, x, p) && !ObjectsToContract(c, x, p) && !ObjectsToQuote(c, x, p) {
      assert !Objects(c, x, p);
    }
  }

  /** The order that buys one contract of the snapshot's option at a limit, field by field. */
  predicate Buys(o: Risk.Order, x: Snapshot, s: Settings, limit: real) {
    var i, q := o.intent, x.option;
    && i.optionType == q.optionType && i.action == Risk.BUY && i.effect == Risk.OPEN && i.orderType == Risk.LIMIT && i.quantity == 1
    && i.limitPrice == Some(limit) && i.expiration == q.expiration && i.bid == q.bid && i.ask == q.ask
    && i.quoteUpdatedAt == q.quoteUpdatedAt && i.volume == q.volume && i.openInterest == q.openInterest
    && i.strike == q.strike && i.instrumentId == q.instrumentId
    && o.account == x.account && o.clock == x.clock && o.completedLiveTrades == x.completedLiveTrades
    && o.config == s.config.(systemMode := Some("SHADOW"), liveEnabled := Some(false), orderToolsEnabled := Some(false))
    && o.marketOpen == x.marketOpen && o.withinEntryWindow == x.withinEntryWindow && o.nearForcedExit == x.nearForcedExit
    && o.maxQuoteAge == Some(s.policy.maximumQuoteAge) && o.maxRelativeSpread == Some(s.policy.maximumSpread)
    && o.minVolume == Some(s.policy.minimumVolume) && o.minOpenInterest == Some(s.policy.minimumOpenInterest)
    && o.killSwitchEngaged == Some(false) && o.killSwitchReason == Some("SHADOW_SIMULATION_ONLY")
  }

  /** The greatest whole number of cents not above three quarters of the way from bid to ask. */
  predicate IsLimit(x: Snapshot, limit: real) {
    && x.option.bid.Some? && x.option.ask.Some?
    && limit == ((x.option.bid.value + (x.option.ask.value - x.option.bid.value) * 0.75) / 0.01).Floor as real * 0.01
  }

  lemma LimitIsIff(x: Snapshot, p: Policy, limit: real)
    requires OffEarnings(x, p)
    ensures IsLimit(x, limit) <==> LimitOf(x) == Some(limit)
  {
    EntryLimitIsFloor(x.option.bid.value, x.option.ask.value, TICK);
    hide CalculateEntryLimit;
  }

  lemma BuysIff(o: Risk.Order, x: Snapshot, s: Settings, limit: real)
    ensures Buys(o, x, s, limit) <==> o == OrderOf(x, s, limit)
  {
  }

  lemma ApprovedIff(o: Risk.Order)
    ensures Risk.Acceptable(o) <==> forall v :: !Risk.Violates(v, o)
  {
    hide Risk.Acceptable, Risk.Violates;
    if forall v :: !Risk.Violates(v, o) {
      Risk.ApprovedIff(o, Risk.RiskDecision(true, [], Risk.Premium(o)));
    }
    if Risk.Acceptable(o) {
      Risk.AcceptableIsClear(o);
    }
    hide Risk.Premium;
  }

  lemma CandidateIff(x: Snapshot, s: Settings, up: bool)
    requires SignalOf(x, s.policy).direction == if up then CALL else PUT
    ensures Candidate(x, s) <==> BarsAccepted(x, s.policy) && ContractAccepted(x, s.policy, up)
  {
    ContractAcceptedIff(x, s.policy, up);
    SignalledIsDirected(x, s.policy, up);
    if x.clock.now.Aware? {
      BarsAcceptedIff(x, s.policy);
    }
    hide SignalOf, MarketOf, BarsFaulty, Objects, NamesContract, OffEarnings, ZeroPrice;
  }

  lemma CandidateSays(x: Snapshot, s: Settings)
    requires Candidate(x, s)
    ensures ReachesContract(x, s) && OffEarnings(x, s.policy)
  {
    hide BarsFaulty, MarketOf, SignalOf, Objects, ZeroPrice, OffEarnings;
    Unobjected(x, s.policy);
    QuoteAcceptedIff(x, s.policy);
  }

  lemma AcceptedLimit(x: Snapshot, p: Policy, limit: real, up: bool)
    requires ContractAccepted(x, p, up) && IsLimit(x, limit)
    ensures LimitOf(x) == Some(limit)
  {
    hide OffEarnings, NamesContract, IsLimit, LimitOf;
    LimitIsIff(x, p, limit);
  }

  lemma SignalledIsDirected(x: Snapshot, p: Policy, up: bool)
    requires SignalOf(x, p).direction == if up then CALL else PUT
    ensures MarketOf(x, p).regime == if up then BULLISH else BEARISH
  {
    SignalIff(x.underlying, MarketOf(x, p).regime, p.minimumVolumeRatio, up);
    hide MarketOf, EvaluateUnderlyingSignal;
  }

  /**
    A call (put) is entered exactly on accepted bars, a market and a symbol that rise
    (fall), an accepted contract on that side, an order at the limit that the
    validator approves, and an activated strategy.
   */
  lemma EnteredIff(x: Snapshot, s: Settings, d: Decision, o: Risk.Order, limit: real, up: bool)
    requires Conforms(x, s, d) && 1 <= s.policy.confirmations && IsLimit(x, limit) && Buys(o, x, s, limit)
    ensures (d.status == SIMULATED_ENTRY && d.direction == if up then CALL else PUT)
            <==> && BarsAccepted(x, s.policy) && Moves(x, s.policy, up) && ContractAccepted(x, s.policy, up) && Risk.Acceptable(o)
                 && (s.pilotMode || s.policy.status == Some("SHADOW") || s.shadowAuthorized)
    ensures d.status == SIMULATED_ENTRY ==> d.limit == Some(limit) && d.premium == Some(limit * 100.0)
  {
    hide BarsAccepted, Moves, Conforms, Risk.Acceptable, Risk.Violates, BarsFaulty, SignalOf, MarketOf, Objects, LimitOf, ZeroPrice, Buys, IsLimit;
    EntryIff(x, s, d);
    DecisionSays(x, s, d);
    MovesIff(x, s.policy, up);
    BuysIff(o, x, s, limit);
    ApprovedIff(o);
    hide ContractAccepted, Candidate, ReachesContract;
    if SignalOf(x, s.policy).direction == if up then CALL else PUT {
      CandidateIff(x, s, up);
    }
    if d.status == SIMULATED_ENTRY {
      CandidateSays(x, s);
      LimitIsIff(x, s.policy, limit);
      EntryIsBounded(x, s, d);
    }
    if ContractAccepted(x, s.policy, up) {
      AcceptedLimit(x, s.policy, limit, up);
    }
  }
}
