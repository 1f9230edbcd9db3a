/** Every violation of an opening order, one by one and in plain numbers. */
module OpeningReasons {
  import opened Common
  import opened SafetyConfig
  import opened OpeningRisk

  /** "cash", in any mixture of cases. */
  lemma CashIs(s: string)
    ensures IsCash(s) <==> |s| == 4 && s[0] in "cC" && s[1] in "aA" && s[2] in "sS" && s[3] in "hH"
  {
    if |s| == 4 {
      LowerIs(s[0], 'c', 'C');
      LowerIs(s[1], 'a', 'A');
      LowerIs(s[2], 's', 'S');
      LowerIs(s[3], 'h', 'H');
    }
    hide Lower;
  }

  lemma LowerIs(c: char, low: char, high: char)
    requires 'a' <= low <= 'z' && high as int == low as int - 32
    ensures Lower(c) == low <==> c == low || c == high
  {
  }

  /** The exchange's day of a clock reading, an unzoned one read in the host's own zone. */
  lemma DayIs(c: Clock, day: int)
    ensures MarketDay(c) == day <==>
              var us := if c.now.Naive? then c.now.us - c.hostOffset else c.now.us;
              day * 86_400_000_000 <= us + c.marketOffset < (day + 1) * 86_400_000_000
  {
  }

  /** A number read as a whole one loses its fraction, towards zero. */
  lemma WholeIs(x: real, n: int)
    ensures Truncate(x) == n <==>
              if 0.0 <= x then n as real <= x < n as real + 1.0 else n as real - 1.0 < x <= n as real
  {
  }

  /** The contract, the kill switch and the configuration. */
  predicate AgainstIdentity(v: Violation, o: Order) {
    var i := o.intent;
    match v
    case CONTRACT_INSTRUMENT_ID_UNKNOWN => i.instrumentId.None? || Blank(i.instrumentId.value)
    case CONTRACT_STRIKE_UNKNOWN => !(i.strike.Some? && 0.0 < i.strike.value)
    case KILL_SWITCH_STATUS_UNKNOWN => o.killSwitchEngaged.None?
    case KILL_SWITCH_ENGAGED(why) => o.killSwitchEngaged == Some(true) && why == if o.killSwitchReason.Some? then o.killSwitchReason.value else ""
    case UNSAFE_CONFIG(fault) => ValidateSafetyConfig(o.config) == Some(fault)
    case _ => false
  }

  lemma IdentityIff(v: Violation, o: Order)
    ensures ViolatesIdentity(v, o) <==> AgainstIdentity(v, o)
  {
    hide ValidateSafetyConfig, Blank;
  }

  /** The mode and its switches. */
  predicate AgainstMode(v: Violation, o: Order) {
    var c := o.config;
    match v
    case MODE_NOT_EXECUTABLE => !(c.systemMode.Some? && c.systemMode.value in {"SHADOW", "LIVE"})
    case LIVE_TRADING_DISABLED => c.systemMode == Some("LIVE") && !(c.liveEnabled.Some? && c.liveEnabled.value)
    case ORDER_TOOLS_DISABLED => c.systemMode == Some("LIVE") && !(c.orderToolsEnabled.Some? && c.orderToolsEnabled.value)
    case REALTIME_OPTION_QUOTE_NOT_VERIFIED => c.systemMode == Some("LIVE") && !(c.quoteVerified.Some? && c.quoteVerified.value)
    case _ => false
  }

  lemma ModeIff(v: Violation, o: Order)
    ensures ViolatesMode(v, o) <==> AgainstMode(v, o)
  {
  }

  /** The account and its cash. */
  predicate AgainstAccount(v: Violation, o: Order) {
    var a, c := o.account, o.config;
    match v
    case ACCOUNT_TYPE_UNKNOWN => a.accountType.None?
    case ACCOUNT_NOT_CASH => a.accountType.Some? && !IsCash(a.accountType.value)
    case ACCOUNT_EQUITY_UNKNOWN => a.equity.None?
    case ACCOUNT_EQUITY_KILL_SWITCH =>
      a.equity.Some? && a.equity.value < if c.equityKillThreshold.Some? then c.equityKillThreshold.value else 225.0
    case BUYING_POWER_UNKNOWN => a.buyingPower.None?
    case SETTLED_CASH_UNKNOWN => a.settledCash.None?
    case RESERVED_CASH_UNKNOWN => a.reservedCash.None?
    case RESERVED_CASH_INVALID => a.reservedCash.Some? && a.reservedCash.value < 0.0
    case _ => false
  }

  lemma AccountIff(v: Violation, o: Order)
    ensures ViolatesAccount(v, o) <==> AgainstAccount(v, o)
  {
    hide IsCash;
  }

  /** Losses in a row and entries of the day. */
  predicate AgainstLimits(v: Violation, o: Order) {
    var a, c := o.account, o.config;
    match v
    case CONSECUTIVE_LOSSES_UNKNOWN => a.consecutiveLosses.None?
    case CONSECUTIVE_LOSS_PAUSE =>
      a.consecutiveLosses.Some? && Truncate(if c.maxConsecutiveLosses.Some? then c.maxConsecutiveLosses.value else 3.0) <= a.consecutiveLosses.value
    case DAILY_ENTRY_COUNT_UNKNOWN => a.entriesToday.None?
    case DAILY_ENTRY_LIMIT_REACHED =>
      a.entriesToday.Some? && (if c.maxDailyEntries.Some? then c.maxDailyEntries.value else 1) <= a.entriesToday.value
    case _ => false
  }

  lemma LimitsIff(v: Violation, o: Order)
    ensures ViolatesLimits(v, o) <==> AgainstLimits(v, o)
  {
    hide Truncate;
  }

  /** Holdings, orders and the session. */
  predicate AgainstPositions(v: Violation, o: Order) {
    var a := o.account;
    match v
    case OPTION_POSITIONS_UNKNOWN => a.optionPositions.None?
    case EQUITY_POSITIONS_UNKNOWN => a.equityPositions.None?
    case OPTION_ORDERS_UNKNOWN => a.optionOrders.None?
    case EQUITY_ORDERS_UNKNOWN => a.equityOrders.None?
    case EXISTING_OPTION_POSITION => a.optionPositions.Some? && a.optionPositions.value != 0
    case UNRECOGNIZED_EQUITY_POSITION => a.equityPositions.Some? && a.equityPositions.value != 0
    case EXISTING_OPTION_ORDER => a.optionOrders.Some? && a.optionOrders.value != 0
    case EXISTING_EQUITY_ORDER => a.equityOrders.Some? && a.equityOrders.value != 0
    case MARKET_NOT_CONFIRMED_OPEN => o.marketOpen.None? || !o.marketOpen.value
    case OUTSIDE_ENTRY_WINDOW => o.withinEntryWindow.None? || !o.withinEntryWindow.value
    case TOO_CLOSE_TO_FORCED_EXIT => o.nearForcedExit.None? || o.nearForcedExit.value
    case _ => false
  }

  lemma PositionsIff(v: Violation, o: Order)
    ensures ViolatesPositions(v, o) <==> AgainstPositions(v, o)
  {
    hide ViolatesPositions, AgainstPositions;
    if v in {OPTION_POSITIONS_UNKNOWN, EQUITY_POSITIONS_UNKNOWN, OPTION_ORDERS_UNKNOWN, EQUITY_ORDERS_UNKNOWN} {
      UnknownPositions(v, o);
    } else {
      OtherPositions(v, o);
    }
  }

  lemma UnknownPositions(v: Violation, o: Order)
    requires v in {OPTION_POSITIONS_UNKNOWN, EQUITY_POSITIONS_UNKNOWN, OPTION_ORDERS_UNKNOWN, EQUITY_ORDERS_UNKNOWN}
    ensures ViolatesPositions(v, o) <==> AgainstPositions(v, o)
  {
    hide Nonzero;
  }

  lemma OtherPositions(v: Violation, o: Order)
    requires v !in {OPTION_POSITIONS_UNKNOWN, EQUITY_POSITIONS_UNKNOWN, OPTION_ORDERS_UNKNOWN, EQUITY_ORDERS_UNKNOWN}
    ensures ViolatesPositions(v, o) <==> AgainstPositions(v, o)
  {
  }

  /** The form of the order, its price and its stage. */
  predicate AgainstShape(v: Violation, o: Order) {
    var i, c, price, trades := o.intent, o.config, o.intent.limitPrice, o.completedLiveTrades;
    var counted := trades.Some? && 0 <= trades.value;
    var second := c.approvedStage.Some? && c.approvedStage.value != 1;
    match v
    case OPENING_ACTION_MUST_BE_BUY => i.action != BUY
    case POSITION_EFFECT_MUST_BE_OPEN => i.effect != OPEN
    case LIMIT_ORDER_REQUIRED => i.orderType != LIMIT
    case QUANTITY_MUST_EQUAL_ONE => i.quantity != if c.maxContracts.Some? then c.maxContracts.value else 1
    case OPTION_DIRECTION_NOT_ALLOWED => if i.optionType == CALL_OPTION then "LONG_CALL" !in c.allowedPositions else "LONG_PUT" !in c.allowedPositions
    case INVALID_LIMIT_PRICE => !(price.Some? && 0.0 < price.value)
    case COMPLETED_TRADE_COUNT_UNKNOWN => !counted
    case STAGE_2_REQUIRES_FIVE_COMPLETED_TRADES =>
      counted && second && trades.value < if c.firstStageTradeCount.Some? then c.firstStageTradeCount.value else 5
    case _ => false
  }

  lemma ShapeIff(v: Violation, o: Order)
    ensures ViolatesShape(v, o) <==> AgainstShape(v, o)
  {
  }

  /** The premium, a hundred times a positive limit price, against every ceiling. */
  predicate AgainstPremium(v: Violation, o: Order) {
    var a, c, price, trades := o.account, o.config, o.intent.limitPrice, o.completedLiveTrades;
    var priced := price.Some? && 0.0 < price.value;
    var counted := trades.Some? && 0 <= trades.value;
    var second := c.approvedStage.Some? && c.approvedStage.value != 1;
    var early := counted && second && trades.value < if c.firstStageTradeCount.Some? then c.firstStageTradeCount.value else 5;
    var free := a.settledCash.Some? && a.reservedCash.Some?;
    match v
    case ABSOLUTE_PREMIUM_LIMIT_EXCEEDED => priced && (if c.absoluteMaxPremium.Some? then c.absoluteMaxPremium.value else 120.0) < price.value * 100.0
    case CURRENT_STAGE_PREMIUM_LIMIT_EXCEEDED =>
      && priced && counted
      && (if second && !early then (if c.secondStageMaxPremium.Some? then c.secondStageMaxPremium.value else 100.0)
          else (if c.firstStageMaxPremium.Some? then c.firstStageMaxPremium.value else 75.0)) < price.value * 100.0
    case DEPLOYABLE_CAPITAL_LIMIT_EXCEEDED =>
      priced && (if c.maxDeployableCapital.Some? then c.maxDeployableCapital.value else 300.0) < price.value * 100.0
    case INSUFFICIENT_BUYING_POWER => priced && a.buyingPower.Some? && a.buyingPower.value < price.value * 100.0
    case CASH_RESERVATIONS_EXCEED_SETTLED_CASH => priced && free && a.settledCash.value < a.reservedCash.value
    case INSUFFICIENT_SETTLED_CASH => priced && free && a.reservedCash.value <= a.settledCash.value < a.reservedCash.value + price.value * 100.0
    case _ => false
  }

  lemma PremiumIff(v: Violation, o: Order)
    ensures ViolatesPremium(v, o) <==> AgainstPremium(v, o)
  {
  }

  /** The clock, the days to expiry and the quote. */
  predicate AgainstQuote(v: Violation, o: Order) {
    var i, c, now := o.intent, o.config, o.clock.now;
    var quoted := i.bid.Some? && i.ask.Some?;
    var valid := quoted && 0.0 <= i.bid.value <= i.ask.value && 0.0 < i.ask.value;
    match v
    case CURRENT_TIME_NOT_TIMEZONE_AWARE => now.Naive?
    case DTE_BELOW_MINIMUM => i.expiration < MarketDay(o.clock) + Truncate(if c.minimumDte.Some? then c.minimumDte.value else 7.0)
    case DTE_ABOVE_MAXIMUM => MarketDay(o.clock) + Truncate(if c.maximumDte.Some? then c.maximumDte.value else 21.0) < i.expiration
    case OPTION_QUOTE_MISSING => !quoted
    case OPTION_QUOTE_INVALID => quoted && !valid
    case MAX_RELATIVE_SPREAD_NOT_CONFIGURED => valid && o.maxRelativeSpread.None?
    case OPTION_SPREAD_TOO_WIDE =>
      valid && o.maxRelativeSpread.Some? && o.maxRelativeSpread.value * (i.bid.value + i.ask.value) < 2.0 * (i.ask.value - i.bid.value)
    case _ => false
  }

  lemma QuoteIff(v: Violation, o: Order)
    ensures ViolatesQuote(v, o) <==> AgainstQuote(v, o)
  {
    hide ViolatesQuote, AgainstQuote;
    if v == OPTION_SPREAD_TOO_WIDE {
      SpreadIsTooWide(o);
    } else if v in {CURRENT_TIME_NOT_TIMEZONE_AWARE, DTE_BELOW_MINIMUM, DTE_ABOVE_MAXIMUM} {
      ExpiryIff(v, o);
    } else {
      PresentQuoteIff(v, o);
    }
  }

  lemma SpreadIsTooWide(o: Order)
    ensures ViolatesQuote(OPTION_SPREAD_TOO_WIDE, o) <==> AgainstQuote(OPTION_SPREAD_TOO_WIDE, o)
  {
    if QuoteValid(o.intent) && o.maxRelativeSpread.Some? {
      SpreadIff(o.intent.bid.value, o.intent.ask.value, o.maxRelativeSpread.value);
    }
    hide Truncate, MarketDay;
  }

  lemma ExpiryIff(v: Violation, o: Order)
    requires v in {CURRENT_TIME_NOT_TIMEZONE_AWARE, DTE_BELOW_MINIMUM, DTE_ABOVE_MAXIMUM}
    ensures ViolatesQuote(v, o) <==> AgainstQuote(v, o)
  {
    hide Truncate, MarketDay, RelativeSpread, QuoteValid;
  }

  lemma PresentQuoteIff(v: Violation, o: Order)
    requires v !in {OPTION_SPREAD_TOO_WIDE, CURRENT_TIME_NOT_TIMEZONE_AWARE, DTE_BELOW_MINIMUM, DTE_ABOVE_MAXIMUM}
    ensures ViolatesQuote(v, o) <==> AgainstQuote(v, o)
  {
    hide Truncate, MarketDay, RelativeSpread, DaysToExpiration;
  }

  /** The age of the quote. */
  predicate AgainstFreshness(v: Violation, o: Order) {
    var now, stamp := o.clock.now, o.intent.quoteUpdatedAt;
    var aged := now.Aware? && stamp.Some? && stamp.value.Aware?;
    match v
    case OPTION_QUOTE_TIMESTAMP_MISSING => stamp.None?
    case OPTION_QUOTE_TIMESTAMP_NOT_TIMEZONE_AWARE => stamp.Some? && stamp.value.Naive?
    case OPTION_QUOTE_TIMESTAMP_IN_FUTURE => aged && now.us + 5_000_000 < stamp.value.us
    case MAX_QUOTE_AGE_NOT_CONFIGURED => aged && o.maxQuoteAge.None?
    case OPTION_QUOTE_STALE => aged && o.maxQuoteAge.Some? && stamp.value.us + o.maxQuoteAge.value * 1_000_000 < now.us
    case _ => false
  }

  lemma FreshnessIff(v: Violation, o: Order)
    ensures ViolatesFreshness(v, o) <==> AgainstFreshness(v, o)
  {
  }

  /** Traded volume and open interest. */
  predicate AgainstLiquidity(v: Violation, o: Order) {
    var i := o.intent;
    match v
    case MINIMUM_OPTION_VOLUME_NOT_CONFIGURED => o.minVolume.None?
    case OPTION_VOLUME_UNKNOWN => o.minVolume.Some? && i.volume.None?
    case OPTION_VOLUME_TOO_LOW => o.minVolume.Some? && i.volume.Some? && i.volume.value < o.minVolume.value
    case MINIMUM_OPEN_INTEREST_NOT_CONFIGURED => o.minOpenInterest.None?
    case OPEN_INTEREST_UNKNOWN => o.minOpenInterest.Some? && i.openInterest.None?
    case OPEN_INTEREST_TOO_LOW => o.minOpenInterest.Some? && i.openInterest.Some? && i.openInterest.value < o.minOpenInterest.value
    case _ => false
  }

  lemma LiquidityIff(v: Violation, o: Order)
    ensures ViolatesLiquidity(v, o) <==> AgainstLiquidity(v, o)
  {
  }

  /** Each violation is reported exactly when the order gives cause for it. */
  lemma ViolatesIff(v: Violation, o: Order)
    ensures Violates(v, o) <==>
              || AgainstIdentity(v, o) || AgainstMode(v, o) || AgainstAccount(v, o) || AgainstLimits(v, o) || AgainstPositions(v, o)
              || AgainstShape(v, o) || AgainstPremium(v, o) || AgainstQuote(v, o) || AgainstFreshness(v, o) || AgainstLiquidity(v, o)
  {
    hide AgainstIdentity, AgainstMode, AgainstAccount, AgainstLimits, AgainstPositions, AgainstShape, AgainstPremium, AgainstQuote;
    hide AgainstFreshness, AgainstLiquidity, ViolatesIdentity, ViolatesMode, ViolatesAccount, ViolatesLimits, ViolatesPositions;
    hide ViolatesShape, ViolatesPremium, ViolatesQuote, ViolatesFreshness, ViolatesLiquidity;
    IdentityIff(v, o);
    ModeIff(v, o);
    AccountIff(v, o);
    LimitsIff(v, o);
    PositionsIff(v, o);
    ShapeIff(v, o);
    PremiumIff(v, o);
    QuoteIff(v, o);
    FreshnessIff(v, o);
    LiquidityIff(v, o);
  }
}
