/** Entry limits, simulated fills and exits: pure decisions over one quote. */
module TradeManagement {
  import opened Common

  const TICK := 0.01

  datatype QuoteError = InvalidQuoteOrTick

  /** Midpoint plus a quarter of the spread, rounded down to the tick. */
  function CalculateEntryLimit(bid: real, ask: real, tick: real): Result<real, QuoteError> {
    if bid < 0.0 || ask <= 0.0 || ask < bid || tick <= 0.0 then Failure(InvalidQuoteOrTick)
    else
      var midpoint := (bid + ask) / 2.0;
      var raw := midpoint + (ask - bid) * 0.25;
      var ticks := (raw / tick).Floor;
      var rounded := ticks as real * tick;
      Success(if ask <= rounded then ask else rounded)
  }

  lemma FloorOfQuotient(raw: real, tick: real, q: real, here: real)
    requires 0.0 < tick && q * tick == raw && here <= q < here + 1.0
    ensures here * tick <= raw < here * tick + tick
  {
    ScaleLess(here, q, tick);
    var next := here + 1.0;
    ScaleLess(q, next, tick);
    assert raw < next * tick;
    assert next * tick == here * tick + tick;
  }

  lemma QuotientFacts(raw: real, tick: real, q: real)
    requires 0.0 <= raw && 0.0 < tick && q == raw / tick
    ensures q * tick == raw && 0.0 <= q
  {
  }

  lemma ScaleLess(x: real, y: real, tick: real)
    requires 0.0 < tick
    ensures x <= y ==> x * tick <= y * tick
    ensures x < y ==> x * tick < y * tick
  {
  }

  /**
    A valid quote always has a limit: the greatest whole number of ticks not above
    three quarters of the way from bid to ask. It never reaches past the ask, so
    taking the lesser of the two changes nothing.
   */
  lemma EntryLimitIsFloor(bid: real, ask: real, tick: real)
    ensures CalculateEntryLimit(bid, ask, tick).Success? <==> 0.0 <= bid <= ask && 0.0 < ask && 0.0 < tick
    ensures CalculateEntryLimit(bid, ask, tick).Success? ==>
              var limit := CalculateEntryLimit(bid, ask, tick).value;
              && 0.0 <= limit <= ask
              && limit <= bid + (ask - bid) * 0.75 < limit + tick
              && limit == ((bid + (ask - bid) * 0.75) / tick).Floor as real * tick
  {
    if 0.0 <= bid <= ask && 0.0 < ask && 0.0 < tick {
      var raw := bid + (ask - bid) * 0.75;
      assert raw == (bid + ask) / 2.0 + (ask - bid) * 0.25;
      var ticks := (raw / tick).Floor;
      QuotientFacts(raw, tick, raw / tick);
      FloorOfQuotient(raw, tick, raw / tick, ticks as real);
      ScaleLess(0.0, ticks as real, tick);
    }
  }

  /** A simulated buy fills only on a real ask at or under its limit. */
  predicate ShadowEntryFilled(observedAsk: Option<real>, limit: real) {
    observedAsk.Some? && 0.0 < observedAsk.value <= limit
  }

  datatype ExitAction = HOLD | EXIT | MANUAL_INTERVENTION

  datatype ExitReason =
    | POSITION_OR_QUOTE_STATE_UNKNOWN | ENTRY_FILL_UNKNOWN | EXIT_QUOTE_UNKNOWN | HOLDING_TIME_UNKNOWN | UNDERLYING_STATE_UNKNOWN
    | EMERGENCY_TIME_EXIT | FORCED_TIME_EXIT | UNDERLYING_VWAP_INVALIDATION | OPTION_STOP_LOSS | OPTION_PROFIT_TARGET
    | MAX_HOLDING_TIME | NO_EXIT_TRIGGER

  datatype ExitDecision = ExitDecision(action: ExitAction, reason: ExitReason, price: Option<real>)

  /** What an open position is judged on. */
  datatype ExitInputs = ExitInputs(
    fill: Option<real>, bid: Option<real>, mark: Option<real>, holdingMinutes: Option<int>, vwapStillValid: Option<bool>,
    forceExitDue: bool, emergencyExitDue: bool, stateKnown: bool)

  function EvaluateExit(x: ExitInputs): ExitDecision {
    if !x.stateKnown then ExitDecision(MANUAL_INTERVENTION, POSITION_OR_QUOTE_STATE_UNKNOWN, None)
    else if x.fill.None? || x.fill.value <= 0.0 then ExitDecision(MANUAL_INTERVENTION, ENTRY_FILL_UNKNOWN, None)
    else if x.bid.None? || x.mark.None? || x.bid.value < 0.0 || x.mark.value < 0.0
      then ExitDecision(MANUAL_INTERVENTION, EXIT_QUOTE_UNKNOWN, None)
    else if x.holdingMinutes.None? || x.holdingMinutes.value < 0 then ExitDecision(MANUAL_INTERVENTION, HOLDING_TIME_UNKNOWN, None)
    else if x.vwapStillValid.None? then ExitDecision(MANUAL_INTERVENTION, UNDERLYING_STATE_UNKNOWN, None)
    else if x.emergencyExitDue then ExitDecision(EXIT, EMERGENCY_TIME_EXIT, x.bid)
    else if x.forceExitDue then ExitDecision(EXIT, FORCED_TIME_EXIT, x.bid)
    else if !x.vwapStillValid.value then ExitDecision(EXIT, UNDERLYING_VWAP_INVALIDATION, x.bid)
    else if x.mark.value <= x.fill.value * 0.80 then ExitDecision(EXIT, OPTION_STOP_LOSS, x.bid)
    else if x.fill.value * 1.30 <= x.mark.value then ExitDecision(EXIT, OPTION_PROFIT_TARGET, x.bid)
    else if 60 <= x.holdingMinutes.value then ExitDecision(EXIT, MAX_HOLDING_TIME, x.bid)
    else ExitDecision(HOLD, NO_EXIT_TRIGGER, None)
  }

  /** The position and its quote are fully known. */
  predicate ExitKnown(x: ExitInputs) {
    && x.stateKnown && x.fill.Some? && 0.0 < x.fill.value
    && x.bid.Some? && 0.0 <= x.bid.value && x.mark.Some? && 0.0 <= x.mark.value
    && x.holdingMinutes.Some? && 0 <= x.holdingMinutes.value && x.vwapStillValid.Some?
  }

  /** A position is held exactly while nothing asks for its exit; every exit is valued at the bid. */
  lemma ExitIff(x: ExitInputs)
    ensures EvaluateExit(x).action == MANUAL_INTERVENTION <==> !ExitKnown(x)
    ensures EvaluateExit(x).action == HOLD <==>
              && ExitKnown(x) && !x.emergencyExitDue && !x.forceExitDue && x.vwapStillValid.value
              && x.fill.value * 0.80 < x.mark.value < x.fill.value * 1.30 && x.holdingMinutes.value < 60
    ensures EvaluateExit(x).action == EXIT ==> EvaluateExit(x).price == x.bid && 0.0 <= x.bid.value
  {
  }
}
