/** Every objection of the decision chain to a contract, one by one and in plain numbers. */
module CandidateReasons {
  import opened Common
  import opened Regime
  import opened TradeManagement
  import opened ShadowPipeline
  import Risk = OpeningRisk

  /** What the contract gives cause to object to, for a call or for a put. */
  predicate Cause(c: CandidateReason, x: Snapshot, p: Policy, up: bool) {
    var o, now, received, price := x.option, x.clock.now, x.option.quoteReceivedAt, x.underlying.close;
    var timed := now.Aware? && received.Some? && received.value.Aware?;
    var struck := o.strike.Some? && 0.0 < o.strike.value;
    match c
    case OPTION_UNDERLYING_MISMATCH => o.underlying != x.underlying.symbol
    case OPTION_DIRECTION_MISMATCH => if up then o.optionType == Risk.PUT_OPTION else o.optionType == Risk.CALL_OPTION
    case FINAL_OPTION_QUOTE_RECEIPT_TIME_MISSING => received.None?
    case FINAL_OPTION_QUOTE_RECEIPT_TIME_NOT_AWARE => received.Some? && received.value.Naive?
    case CURRENT_TIME_NOT_TIMEZONE_AWARE => now.Naive?
    case FINAL_OPTION_QUOTE_RECEIPT_FROM_FUTURE => timed && now.us < received.value.us
    case FINAL_OPTION_QUOTE_NOT_REFRESHED =>
      timed && received.value.us <= now.us && received.value.us + p.maximumQuoteAge * 1_000_000 < now.us
    case OPTION_INSTRUMENT_ID_UNKNOWN => o.instrumentId.None? || Blank(o.instrumentId.value)
    case OPTION_STRIKE_UNKNOWN => !struck
    case UNDERLYING_PRICE_UNKNOWN_FOR_STRIKE_CHECK => struck && price.None?
    case OPTION_STRIKE_IMPLAUSIBLE_FOR_UNDERLYING => struck && price.Some? && !Near(o.strike.value, price.value, p.maximumStrikeDistance)
    case OPTION_DELTA_UNKNOWN => o.delta.None?
    case OPTION_DELTA_BELOW_MINIMUM => o.delta.Some? && -p.minimumDelta < o.delta.value < p.minimumDelta
    case OPTION_DELTA_ABOVE_MAXIMUM => o.delta.Some? && (p.maximumDelta < o.delta.value || o.delta.value < -p.maximumDelta)
    case EARNINGS_DATE_UNKNOWN => now.Aware? && o.earningsDate.None?
    case EARNINGS_BLACKOUT =>
      now.Aware? && o.earningsDate.Some?
      && Risk.MarketDay(x.clock) <= o.earningsDate.value <= Risk.MarketDay(x.clock) + p.earningsBlackout
    case OPTION_QUOTE_MISSING => o.bid.None? || o.ask.None?
    case OPTION_QUOTE_INVALID => o.bid.Some? && o.ask.Some? && !(0.0 <= o.bid.value <= o.ask.value && 0.0 < o.ask.value)
  }

  /** A strike within a part of the price; a negative price has nothing further than itself. */
  predicate Near(strike: real, price: real, most: real) {
    if 0.0 < price then -most * price <= strike - price <= most * price else most * price <= strike - price
  }

  /** Each objection is raised exactly when there is cause for it. */
  lemma ObjectsIff(c: CandidateReason, x: Snapshot, p: Policy, up: bool)
    requires !ZeroPrice(x) && SignalOf(x, p).direction == if up then CALL else PUT
    ensures Objects(c, x, p) <==> Cause(c, x, p, up)
  {
    hide SignalOf, ObjectsToReceipt, ObjectsToContract, ObjectsToQuote, Cause, ZeroPrice;
    if c in {OPTION_UNDERLYING_MISMATCH, OPTION_DIRECTION_MISMATCH} {
      MismatchIff(c, x, p, up);
    } else if c in {FINAL_OPTION_QUOTE_RECEIPT_TIME_MISSING, FINAL_OPTION_QUOTE_RECEIPT_TIME_NOT_AWARE,
                    FINAL_OPTION_QUOTE_RECEIPT_FROM_FUTURE, FINAL_OPTION_QUOTE_NOT_REFRESHED} {
      ReceiptIff(c, x, p, up);
    } else if c in {OPTION_INSTRUMENT_ID_UNKNOWN, OPTION_STRIKE_UNKNOWN, UNDERLYING_PRICE_UNKNOWN_FOR_STRIKE_CHECK,
                    OPTION_STRIKE_IMPLAUSIBLE_FOR_UNDERLYING} {
      StrikeIff(c, x, p, up);
    } else if c in {OPTION_DELTA_UNKNOWN, OPTION_DELTA_BELOW_MINIMUM, OPTION_DELTA_ABOVE_MAXIMUM} {
      DeltaIff(c, x, p, up);
    } else {
      QuoteIff(c, x, p, up);
    }
  }

  lemma MismatchIff(c: CandidateReason, x: Snapshot, p: Policy, up: bool)
    requires !ZeroPrice(x) && SignalOf(x, p).direction == (if up then CALL else PUT)
    requires c in {OPTION_UNDERLYING_MISMATCH, OPTION_DIRECTION_MISMATCH}
    ensures Objects(c, x, p) <==> Cause(c, x, p, up)
  {
    hide SignalOf, StrikeDistance, CalculateEntryLimit, Risk.MarketDay, Near, Blank;
  }

  lemma ReceiptIff(c: CandidateReason, x: Snapshot, p: Policy, up: bool)
    requires c in {FINAL_OPTION_QUOTE_RECEIPT_TIME_MISSING, FINAL_OPTION_QUOTE_RECEIPT_TIME_NOT_AWARE,
                   FINAL_OPTION_QUOTE_RECEIPT_FROM_FUTURE, FINAL_OPTION_QUOTE_NOT_REFRESHED}
    requires !ZeroPrice(x)
    ensures Objects(c, x, p) <==> Cause(c, x, p, up)
  {
    hide SignalOf, StrikeDistance, CalculateEntryLimit, Risk.MarketDay, Near, Blank;
  }

  lemma StrikeIff(c: CandidateReason, x: Snapshot, p: Policy, up: bool)
    requires c in {OPTION_INSTRUMENT_ID_UNKNOWN, OPTION_STRIKE_UNKNOWN, UNDERLYING_PRICE_UNKNOWN_FOR_STRIKE_CHECK,
                   OPTION_STRIKE_IMPLAUSIBLE_FOR_UNDERLYING}
    requires !ZeroPrice(x)
    ensures Objects(c, x, p) <==> Cause(c, x, p, up)
  {
    hide SignalOf, CalculateEntryLimit, Risk.MarketDay, Blank, Near, StrikeDistance;
    if c == OPTION_STRIKE_IMPLAUSIBLE_FOR_UNDERLYING && StrikeKnown(x.option) && x.underlying.close.Some? {
      DistanceIsNear(x, p);
    }
  }

  lemma DistanceIsNear(x: Snapshot, p: Policy)
    requires StrikeKnown(x.option) && x.underlying.close.Some? && x.underlying.close.value != 0.0
    ensures StrikeDistance(x) <= p.maximumStrikeDistance <==> Near(x.option.strike.value, x.underlying.close.value, p.maximumStrikeDistance)
  {
    NearIff(x.option.strike.value, x.underlying.close.value, p.maximumStrikeDistance);
    hide Abs, Near;
  }

  lemma NearIff(strike: real, price: real, most: real)
    requires price != 0.0 && 0.0 < strike
    ensures Abs(strike - price) / price <= most <==> Near(strike, price, most)
  {
    DistanceIff(strike, price, most);
  }

  lemma DeltaIff(c: CandidateReason, x: Snapshot, p: Policy, up: bool)
    requires c in {OPTION_DELTA_UNKNOWN, OPTION_DELTA_BELOW_MINIMUM, OPTION_DELTA_ABOVE_MAXIMUM} && !ZeroPrice(x)
    ensures Objects(c, x, p) <==> Cause(c, x, p, up)
  {
    hide SignalOf, StrikeDistance, CalculateEntryLimit, Risk.MarketDay, Near, Blank;
  }

  lemma QuoteIff(c: CandidateReason, x: Snapshot, p: Policy, up: bool)
    requires c in {CURRENT_TIME_NOT_TIMEZONE_AWARE, EARNINGS_DATE_UNKNOWN, EARNINGS_BLACKOUT, OPTION_QUOTE_MISSING, OPTION_QUOTE_INVALID}
    requires !ZeroPrice(x)
    ensures Objects(c, x, p) <==> Cause(c, x, p, up)
  {
    hide SignalOf, Cause, Objects;
    if c in {OPTION_QUOTE_MISSING, OPTION_QUOTE_INVALID} {
      PriceIff(c, x, p, up);
    } else {
      EarningsIff(c, x, p, up);
    }
  }

  lemma PriceIff(c: CandidateReason, x: Snapshot, p: Policy, up: bool)
    requires c in {OPTION_QUOTE_MISSING, OPTION_QUOTE_INVALID} && !ZeroPrice(x)
    ensures Objects(c, x, p) <==> Cause(c, x, p, up)
  {
    OnlyQuote(c, x, p);
    hide Objects, CalculateEntryLimit, Risk.MarketDay, Near, Blank;
    if x.option.bid.Some? && x.option.ask.Some? {
      LimitFails(x.option.bid.value, x.option.ask.value);
    }
  }

  lemma OnlyQuote(c: CandidateReason, x: Snapshot, p: Policy)
    requires c in {OPTION_QUOTE_MISSING, OPTION_QUOTE_INVALID} && !ZeroPrice(x)
    ensures Objects(c, x, p) <==> ObjectsToQuote(c, x, p)
  {
    hide SignalOf, StrikeDistance, ObjectsToQuote, Blank;
  }

  lemma LimitFails(bid: real, ask: real)
    ensures CalculateEntryLimit(bid, ask, TICK).Failure? <==> !(0.0 <= bid <= ask && 0.0 < ask)
  {
    EntryLimitIsFloor(bid, ask, TICK);
    hide CalculateEntryLimit;
  }

  lemma EarningsIff(c: CandidateReason, x: Snapshot, p: Policy, up: bool)
    requires c in {CURRENT_TIME_NOT_TIMEZONE_AWARE, EARNINGS_DATE_UNKNOWN, EARNINGS_BLACKOUT} && !ZeroPrice(x)
    ensures Objects(c, x, p) <==> Cause(c, x, p, up)
  {
    hide SignalOf, StrikeDistance, CalculateEntryLimit, Risk.MarketDay, Near, Blank;
  }
}
