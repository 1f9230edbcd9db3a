/** The opening-order validator: every unknown or breached requirement is a violation. */
module OpeningRisk {
  import opened Common
  import opened SafetyConfig

  datatype OptionType = CALL_OPTION | PUT_OPTION
  datatype OrderAction = BUY | SELL
  datatype PositionEffect = OPEN | CLOSE
  datatype OrderType = LIMIT | MARKET

  /** Dates are day numbers; `None` is an unknown value. */
  datatype OrderIntent = OrderIntent(
    optionType: OptionType, action: OrderAction, effect: PositionEffect, orderType: OrderType, quantity: int,
    limitPrice: Option<real>, expiration: int, bid: Option<real>, ask: Option<real>, quoteUpdatedAt: Option<Time>,
    volume: Option<int>, openInterest: Option<int>, strike: Option<real>, instrumentId: Option<string>)

  datatype Account = Account(
    accountType: Option<string>, equity: Option<real>, buyingPower: Option<real>,
    optionPositions: Option<int>, equityPositions: Option<int>, optionOrders: Option<int>, equityOrders: Option<int>,
    consecutiveLosses: Option<int>, entriesToday: Option<int>, settledCash: Option<real>, reservedCash: Option<real>)

  /** The clock, and the UTC offsets of the host and of the exchange at that instant. */
  datatype Clock = Clock(now: Time, hostOffset: int, marketOffset: int)

  /** Everything one opening order is judged on. */
  datatype Order = Order(
    intent: OrderIntent, account: Account, config: Config, clock: Clock, completedLiveTrades: Option<int>,
    marketOpen: Option<bool>, withinEntryWindow: Option<bool>, nearForcedExit: Option<bool>,
    maxQuoteAge: Option<int>, maxRelativeSpread: Option<real>, minVolume: Option<int>, minOpenInterest: Option<int>,
    killSwitchEngaged: Option<bool>, killSwitchReason: Option<string>)

  datatype Violation =
    | CONTRACT_INSTRUMENT_ID_UNKNOWN | CONTRACT_STRIKE_UNKNOWN | KILL_SWITCH_STATUS_UNKNOWN
    | KILL_SWITCH_ENGAGED(why: string) | UNSAFE_CONFIG(fault: ConfigFault) | MODE_NOT_EXECUTABLE
    | LIVE_TRADING_DISABLED | ORDER_TOOLS_DISABLED | REALTIME_OPTION_QUOTE_NOT_VERIFIED
    | ACCOUNT_TYPE_UNKNOWN | ACCOUNT_NOT_CASH | ACCOUNT_EQUITY_UNKNOWN | ACCOUNT_EQUITY_KILL_SWITCH
    | BUYING_POWER_UNKNOWN | SETTLED_CASH_UNKNOWN | RESERVED_CASH_UNKNOWN | RESERVED_CASH_INVALID
    | OPTION_POSITIONS_UNKNOWN | EQUITY_POSITIONS_UNKNOWN | OPTION_ORDERS_UNKNOWN | EQUITY_ORDERS_UNKNOWN
    | EXISTING_OPTION_POSITION | UNRECOGNIZED_EQUITY_POSITION | EXISTING_OPTION_ORDER | EXISTING_EQUITY_ORDER
    | CONSECUTIVE_LOSSES_UNKNOWN | CONSECUTIVE_LOSS_PAUSE | DAILY_ENTRY_COUNT_UNKNOWN | DAILY_ENTRY_LIMIT_REACHED
    | MARKET_NOT_CONFIRMED_OPEN | OUTSIDE_ENTRY_WINDOW | TOO_CLOSE_TO_FORCED_EXIT
    | OPENING_ACTION_MUST_BE_BUY | POSITION_EFFECT_MUST_BE_OPEN | LIMIT_ORDER_REQUIRED | QUANTITY_MUST_EQUAL_ONE
    | OPTION_DIRECTION_NOT_ALLOWED | INVALID_LIMIT_PRICE | COMPLETED_TRADE_COUNT_UNKNOWN | STAGE_2_REQUIRES_FIVE_COMPLETED_TRADES
    | ABSOLUTE_PREMIUM_LIMIT_EXCEEDED | CURRENT_STAGE_PREMIUM_LIMIT_EXCEEDED | DEPLOYABLE_CAPITAL_LIMIT_EXCEEDED
    | INSUFFICIENT_BUYING_POWER | CASH_RESERVATIONS_EXCEED_SETTLED_CASH | INSUFFICIENT_SETTLED_CASH
    | CURRENT_TIME_NOT_TIMEZONE_AWARE | DTE_BELOW_MINIMUM | DTE_ABOVE_MAXIMUM
    | OPTION_QUOTE_MISSING | OPTION_QUOTE_INVALID | MAX_RELATIVE_SPREAD_NOT_CONFIGURED | OPTION_SPREAD_TOO_WIDE
    | OPTION_QUOTE_TIMESTAMP_MISSING | OPTION_QUOTE_TIMESTAMP_NOT_TIMEZONE_AWARE | OPTION_QUOTE_TIMESTAMP_IN_FUTURE
    | MAX_QUOTE_AGE_NOT_CONFIGURED | OPTION_QUOTE_STALE
    | MINIMUM_OPTION_VOLUME_NOT_CONFIGURED | OPTION_VOLUME_UNKNOWN | OPTION_VOLUME_TOO_LOW
    | MINIMUM_OPEN_INTEREST_NOT_CONFIGURED | OPEN_INTEREST_UNKNOWN | OPEN_INTEREST_TOO_LOW

  datatype RiskDecision = RiskDecision(approved: bool, violations: seq<Violation>, premium: Option<real>)

  // ------------------------------------------------------- quantities read

  /** Python's `int()` of a number: towards zero. */
  function Truncate(x: real): int {
    if 0.0 <= x then x.Floor else -(-x).Floor
  }

  function Or<T>(value: Option<T>, fallback: T): T {
    if value.Some? then value.value else fallback
  }

  function Lower(c: char): char {
    if 'A' <= c <= 'Z' then c - 'A' + 'a' else c
  }

  predicate IsCash(s: string) {
    |s| == 4 && Lower(s[0]) == 'c' && Lower(s[1]) == 'a' && Lower(s[2]) == 's' && Lower(s[3]) == 'h'
  }

  /** The exchange's calendar day; an unzoned clock is read in the host's own zone. */
  function MarketDay(c: Clock): int {
    ((if c.now.Aware? then c.now.us else c.now.us - c.hostOffset) + c.marketOffset) / DAY
  }

  function DaysToExpiration(o: Order): int {
    o.intent.expiration - MarketDay(o.clock)
  }

  function Premium(o: Order): Option<real> {
    if o.intent.limitPrice.Some? && 0.0 < o.intent.limitPrice.value then Some(o.intent.limitPrice.value * 100.0) else None
  }

  predicate TradesKnown(o: Order) {
    o.completedLiveTrades.Some? && 0 <= o.completedLiveTrades.value
  }

  /** Stage two is asked for before enough trades were completed. */
  predicate StagePremature(o: Order) {
    TradesKnown(o) && Or(o.config.approvedStage, 1) != 1 && o.completedLiveTrades.value < Or(o.config.firstStageTradeCount, 5)
  }

  function StageLimit(o: Order): Option<real> {
    if !TradesKnown(o) then None
    else if Or(o.config.approvedStage, 1) == 1 || StagePremature(o) then Some(Or(o.config.firstStageMaxPremium, 75.0))
    else Some(Or(o.config.secondStageMaxPremium, 100.0))
  }

  predicate Over(premium: Option<real>, limit: Option<real>) {
    premium.Some? && limit.Some? && limit.value < premium.value
  }

  /** Settled cash that is not reserved. */
  function AvailableCash(a: Account): Option<real> {
    if a.settledCash.Some? && a.reservedCash.Some? then Some(a.settledCash.value - a.reservedCash.value) else None
  }

  predicate QuotePresent(i: OrderIntent) {
    i.bid.Some? && i.ask.Some?
  }

  predicate QuoteValid(i: OrderIntent) {
    QuotePresent(i) && 0.0 <= i.bid.value <= i.ask.value && 0.0 < i.ask.value
  }

  function RelativeSpread(i: OrderIntent): real
    requires QuoteValid(i)
  {
    (i.ask.value - i.bid.value) / ((i.bid.value + i.ask.value) / 2.0)
  }

  function QuoteAge(o: Order): Option<int> {
    if o.clock.now.Aware? && o.intent.quoteUpdatedAt.Some? && o.intent.quoteUpdatedAt.value.Aware?
    then Some(o.clock.now.us - o.intent.quoteUpdatedAt.value.us) else None
  }

  predicate Nonzero(count: Option<int>) {
    count.Some? && count.value != 0
  }

  function PositionName(t: OptionType): string {
    if t == CALL_OPTION then "LONG_CALL" else "LONG_PUT"
  }

  // ------------------------------------------------- when each one applies

  predicate ViolatesIdentity(v: Violation, o: Order) {
    || (v == CONTRACT_INSTRUMENT_ID_UNKNOWN && (o.intent.instrumentId.None? || Blank(o.intent.instrumentId.value)))
    || (v == CONTRACT_STRIKE_UNKNOWN && (o.intent.strike.None? || o.intent.strike.value <= 0.0))
    || (v == KILL_SWITCH_STATUS_UNKNOWN && o.killSwitchEngaged.None?)
    || (v.KILL_SWITCH_ENGAGED? && o.killSwitchEngaged == Some(true) && v.why == Or(o.killSwitchReason, ""))
    || (v.UNSAFE_CONFIG? && ValidateSafetyConfig(o.config) == Some(v.fault))
  }

  predicate ViolatesMode(v: Violation, o: Order) {
    || (v == MODE_NOT_EXECUTABLE && o.config.systemMode != Some("SHADOW") && o.config.systemMode != Some("LIVE"))
    || (v == LIVE_TRADING_DISABLED && o.config.systemMode == Some("LIVE") && o.config.liveEnabled != Some(true))
    || (v == ORDER_TOOLS_DISABLED && o.config.systemMode == Some("LIVE") && o.config.orderToolsEnabled != Some(true))
    || (v == REALTIME_OPTION_QUOTE_NOT_VERIFIED && o.config.systemMode == Some("LIVE") && o.config.quoteVerified != Some(true))
  }

  predicate ViolatesAccount(v: Violation, o: Order) {
    var a := o.account;
    || (v == ACCOUNT_TYPE_UNKNOWN && a.accountType.None?)
    || (v == ACCOUNT_NOT_CASH && a.accountType.Some? && !IsCash(a.accountType.value))
    || (v == ACCOUNT_EQUITY_UNKNOWN && a.equity.None?)
    || (v == ACCOUNT_EQUITY_KILL_SWITCH && a.equity.Some? && a.equity.value < Or(o.config.equityKillThreshold, 225.0))
    || (v == BUYING_POWER_UNKNOWN && a.buyingPower.None?)
    || (v == SETTLED_CASH_UNKNOWN && a.settledCash.None?)
    || (v == RESERVED_CASH_UNKNOWN && a.reservedCash.None?)
    || (v == RESERVED_CASH_INVALID && a.reservedCash.Some? && a.reservedCash.value < 0.0)
  }

  predicate ViolatesLimits(v: Violation, o: Order) {
    var a := o.account;
    || (v == CONSECUTIVE_LOSSES_UNKNOWN && a.consecutiveLosses.None?)
    || (v == CONSECUTIVE_LOSS_PAUSE && a.consecutiveLosses.Some? && Truncate(Or(o.config.maxConsecutiveLosses, 3.0)) <= a.consecutiveLosses.value)
    || (v == DAILY_ENTRY_COUNT_UNKNOWN && a.entriesToday.None?)
    || (v == DAILY_ENTRY_LIMIT_REACHED && a.entriesToday.Some? && Or(o.config.maxDailyEntries, 1) <= a.entriesToday.value)
  }

  predicate ViolatesPositions(v: Violation, o: Order) {
    var a := o.account;
    || (v == OPTION_POSITIONS_UNKNOWN && a.optionPositions.None?)
    || (v == EQUITY_POSITIONS_UNKNOWN && a.equityPositions.None?)
    || (v == OPTION_ORDERS_UNKNOWN && a.optionOrders.None?)
    || (v == EQUITY_ORDERS_UNKNOWN && a.equityOrders.None?)
    || (v == EXISTING_OPTION_POSITION && Nonzero(a.optionPositions))
    || (v == UNRECOGNIZED_EQUITY_POSITION && Nonzero(a.equityPositions))
    || (v == EXISTING_OPTION_ORDER && Nonzero(a.optionOrders))
    || (v == EXISTING_EQUITY_ORDER && Nonzero(a.equityOrders))
    || (v == MARKET_NOT_CONFIRMED_OPEN && o.marketOpen != Some(true))
    || (v == OUTSIDE_ENTRY_WINDOW && o.withinEntryWindow != Some(true))
    || (v == TOO_CLOSE_TO_FORCED_EXIT && o.nearForcedExit != Some(false))
  }

  predicate ViolatesShape(v: Violation, o: Order) {
    || (v == OPENING_ACTION_MUST_BE_BUY && o.intent.action != BUY)
    || (v == POSITION_EFFECT_MUST_BE_OPEN && o.intent.effect != OPEN)
    || (v == LIMIT_ORDER_REQUIRED && o.intent.orderType != LIMIT)
    || (v == QUANTITY_MUST_EQUAL_ONE && o.intent.quantity != Or(o.config.maxContracts, 1))
    || (v == OPTION_DIRECTION_NOT_ALLOWED && PositionName(o.intent.optionType) !in o.config.allowedPositions)
    || (v == INVALID_LIMIT_PRICE && Premium(o).None?)
    || (v == COMPLETED_TRADE_COUNT_UNKNOWN && !TradesKnown(o))
    || (v == STAGE_2_REQUIRES_FIVE_COMPLETED_TRADES && StagePremature(o))
  }

  predicate ViolatesPremium(v: Violation, o: Order) {
    var premium := Premium(o);
    || (v == ABSOLUTE_PREMIUM_LIMIT_EXCEEDED && Over(premium, Some(Or(o.config.absoluteMaxPremium, 120.0))))
    || (v == CURRENT_STAGE_PREMIUM_LIMIT_EXCEEDED && Over(premium, StageLimit(o)))
    || (v == DEPLOYABLE_CAPITAL_LIMIT_EXCEEDED && Over(premium, Some(Or(o.config.maxDeployableCapital, 300.0))))
    || (v == INSUFFICIENT_BUYING_POWER && Over(premium, o.account.buyingPower))
    || (v == CASH_RESERVATIONS_EXCEED_SETTLED_CASH && premium.Some? && AvailableCash(o.account).Some? && AvailableCash(o.account).value < 0.0)
    || (v == INSUFFICIENT_SETTLED_CASH && Over(premium, AvailableCash(o.account)) && 0.0 <= AvailableCash(o.account).value)
  }

  predicate ViolatesQuote(v: Violation, o: Order) {
    || (v == CURRENT_TIME_NOT_TIMEZONE_AWARE && o.clock.now.Naive?)
    || (v == DTE_BELOW_MINIMUM && DaysToExpiration(o) < Truncate(Or(o.config.minimumDte, 7.0)))
    || (v == DTE_ABOVE_MAXIMUM && DaysToExpiration(o) > Truncate(Or(o.config.maximumDte, 21.0)))
    || (v == OPTION_QUOTE_MISSING && !QuotePresent(o.intent))
    || (v == OPTION_QUOTE_INVALID && QuotePresent(o.intent) && !QuoteValid(o.intent))
    || (v == MAX_RELATIVE_SPREAD_NOT_CONFIGURED && QuoteValid(o.intent) && o.maxRelativeSpread.None?)
    || (v == OPTION_SPREAD_TOO_WIDE && QuoteValid(o.intent) && o.maxRelativeSpread.Some? && o.maxRelativeSpread.value < RelativeSpread(o.intent))
  }

  predicate ViolatesFreshness(v: Violation, o: Order) {
    || (v == OPTION_QUOTE_TIMESTAMP_MISSING && o.intent.quoteUpdatedAt.None?)
    || (v == OPTION_QUOTE_TIMESTAMP_NOT_TIMEZONE_AWARE && o.intent.quoteUpdatedAt.Some? && o.intent.quoteUpdatedAt.value.Naive?)
    || (v == OPTION_QUOTE_TIMESTAMP_IN_FUTURE && QuoteAge(o).Some? && QuoteAge(o).value < -5 * SECOND)
    || (v == MAX_QUOTE_AGE_NOT_CONFIGURED && QuoteAge(o).Some? && o.maxQuoteAge.None?)
    || (v == OPTION_QUOTE_STALE && QuoteAge(o).Some? && o.maxQuoteAge.Some? && o.maxQuoteAge.value * SECOND < QuoteAge(o).value)
  }

  predicate ViolatesLiquidity(v: Violation, o: Order) {
    || (v == MINIMUM_OPTION_VOLUME_NOT_CONFIGURED && o.minVolume.None?)
    || (v == OPTION_VOLUME_UNKNOWN && o.minVolume.Some? && o.intent.volume.None?)
    || (v == OPTION_VOLUME_TOO_LOW && o.minVolume.Some? && o.intent.volume.Some? && o.intent.volume.value < o.minVolume.value)
    || (v == MINIMUM_OPEN_INTEREST_NOT_CONFIGURED && o.minOpenInterest.None?)
    || (v == OPEN_INTEREST_UNKNOWN && o.minOpenInterest.Some? && o.intent.openInterest.None?)
    || (v == OPEN_INTEREST_TOO_LOW && o.minOpenInterest.Some? && o.intent.openInterest.Some? && o.intent.openInterest.value < o.minOpenInterest.value)
  }

  /** Exactly when an order has a violation. */
  predicate Violates(v: Violation, o: Order) {
    || ViolatesIdentity(v, o) || ViolatesMode(v, o) || ViolatesAccount(v, o) || ViolatesLimits(v, o) || ViolatesPositions(v, o) || ViolatesShape(v, o)
    || ViolatesPremium(v, o) || ViolatesQuote(v, o) || ViolatesFreshness(v, o)
    || ViolatesLiquidity(v, o)
  }

  // ------------------------------------------------------------ evaluation

  function Add(violations: seq<Violation>, condition: bool, v: Violation): (r: seq<Violation>)
    ensures forall x :: x in r <==> x in violations || (condition && x == v)
  {
    if condition then violations + [v] else violations
  }

  method IdentityViolations(o: Order) returns (violations: seq<Violation>)
    ensures forall v :: v in violations <==> ViolatesIdentity(v, o)
  {
    hide ValidateSafetyConfig, Blank, Add;
    violations := Add([], o.intent.instrumentId.None? || Blank(o.intent.instrumentId.value), CONTRACT_INSTRUMENT_ID_UNKNOWN);
    violations := Add(violations, o.intent.strike.None? || o.intent.strike.value <= 0.0, CONTRACT_STRIKE_UNKNOWN);
    violations := Add(violations, o.killSwitchEngaged.None?, KILL_SWITCH_STATUS_UNKNOWN);
    violations := Add(violations, o.killSwitchEngaged == Some(true), KILL_SWITCH_ENGAGED(Or(o.killSwitchReason, "")));
    var fault := ValidateSafetyConfig(o.config);
    if fault.Some? {
      violations := Add(violations, true, UNSAFE_CONFIG(fault.value));
    }
  }

  method ModeViolations(o: Order) returns (violations: seq<Violation>)
    ensures forall v :: v in violations <==> ViolatesMode(v, o)
  {
    hide Add;
    violations := [];
    var mode := o.config.systemMode;
    violations := Add(violations, mode != Some("SHADOW") && mode != Some("LIVE"), MODE_NOT_EXECUTABLE);
    if mode == Some("LIVE") {
      violations := Add(violations, o.config.liveEnabled != Some(true), LIVE_TRADING_DISABLED);
      violations := Add(violations, o.config.orderToolsEnabled != Some(true), ORDER_TOOLS_DISABLED);
      violations := Add(violations, o.config.quoteVerified != Some(true), REALTIME_OPTION_QUOTE_NOT_VERIFIED);
    }
  }

  method AccountViolations(o: Order) returns (violations: seq<Violation>)
    ensures forall v :: v in violations <==> ViolatesAccount(v, o)
  {
    hide Add, IsCash;
    var a := o.account;
    violations := Add([], a.accountType.None?, ACCOUNT_TYPE_UNKNOWN);
    violations := Add(violations, a.accountType.Some? && !IsCash(a.accountType.value), ACCOUNT_NOT_CASH);
    violations := Add(violations, a.equity.None?, ACCOUNT_EQUITY_UNKNOWN);
    violations := Add(violations, a.equity.Some? && a.equity.value < Or(o.config.equityKillThreshold, 225.0), ACCOUNT_EQUITY_KILL_SWITCH);
    violations := Add(violations, a.buyingPower.None?, BUYING_POWER_UNKNOWN);
    violations := Add(violations, a.settledCash.None?, SETTLED_CASH_UNKNOWN);
    violations := Add(violations, a.reservedCash.None?, RESERVED_CASH_UNKNOWN);
    violations := Add(violations, a.reservedCash.Some? && a.reservedCash.value < 0.0, RESERVED_CASH_INVALID);
  }

  method LimitViolations(o: Order) returns (violations: seq<Violation>)
    ensures forall v :: v in violations <==> ViolatesLimits(v, o)
  {
    hide Add, Truncate;
    var a := o.account;
    violations := Add([], a.consecutiveLosses.None?, CONSECUTIVE_LOSSES_UNKNOWN);
    if a.consecutiveLosses.Some? {
      var allowed := Truncate(Or(o.config.maxConsecutiveLosses, 3.0));
      violations := Add(violations, a.consecutiveLosses.value >= allowed, CONSECUTIVE_LOSS_PAUSE);
    }
    violations := Add(violations, a.entriesToday.None?, DAILY_ENTRY_COUNT_UNKNOWN);
    if a.entriesToday.Some? {
      violations := Add(violations, a.entriesToday.value >= Or(o.config.maxDailyEntries, 1), DAILY_ENTRY_LIMIT_REACHED);
    }
  }

  method PositionViolations(o: Order) returns (violations: seq<Violation>)
    ensures forall v :: v in violations <==> ViolatesPositions(v, o)
  {
    hide Add;
    var a := o.account;
    violations := Add([], a.optionPositions.None?, OPTION_POSITIONS_UNKNOWN);
    violations := Add(violations, a.equityPositions.None?, EQUITY_POSITIONS_UNKNOWN);
    violations := Add(violations, a.optionOrders.None?, OPTION_ORDERS_UNKNOWN);
    violations := Add(violations, a.equityOrders.None?, EQUITY_ORDERS_UNKNOWN);
    violations := Add(violations, Nonzero(a.optionPositions), EXISTING_OPTION_POSITION);
    violations := Add(violations, Nonzero(a.equityPositions), UNRECOGNIZED_EQUITY_POSITION);
    violations := Add(violations, Nonzero(a.optionOrders), EXISTING_OPTION_ORDER);
    violations := Add(violations, Nonzero(a.equityOrders), EXISTING_EQUITY_ORDER);
    violations := Add(violations, o.marketOpen != Some(true), MARKET_NOT_CONFIRMED_OPEN);
    violations := Add(violations, o.withinEntryWindow != Some(true), OUTSIDE_ENTRY_WINDOW);
    violations := Add(violations, o.nearForcedExit != Some(false), TOO_CLOSE_TO_FORCED_EXIT);
  }

  method ShapeViolations(o: Order) returns (violations: seq<Violation>, premium: Option<real>, stageLimit: Option<real>)
    ensures forall v :: v in violations <==> ViolatesShape(v, o)
    ensures premium == Premium(o) && stageLimit == StageLimit(o)
  {
    hide Add;
    violations := Add([], o.intent.action != BUY, OPENING_ACTION_MUST_BE_BUY);
    violations := Add(violations, o.intent.effect != OPEN, POSITION_EFFECT_MUST_BE_OPEN);
    violations := Add(violations, o.intent.orderType != LIMIT, LIMIT_ORDER_REQUIRED);
    violations := Add(violations, o.intent.quantity != Or(o.config.maxContracts, 1), QUANTITY_MUST_EQUAL_ONE);
    violations := Add(violations, PositionName(o.intent.optionType) !in o.config.allowedPositions, OPTION_DIRECTION_NOT_ALLOWED);
    premium := None;
    if o.intent.limitPrice.None? || o.intent.limitPrice.value <= 0.0 {
      violations := Add(violations, true, INVALID_LIMIT_PRICE);
    } else {
      premium := Some(o.intent.limitPrice.value * 100.0);
    }
    if o.completedLiveTrades.None? || o.completedLiveTrades.value < 0 {
      violations := Add(violations, true, COMPLETED_TRADE_COUNT_UNKNOWN);
      stageLimit := None;
    } else if Or(o.config.approvedStage, 1) == 1 {
      stageLimit := Some(Or(o.config.firstStageMaxPremium, 75.0));
    } else if o.completedLiveTrades.value < Or(o.config.firstStageTradeCount, 5) {
      violations := Add(violations, true, STAGE_2_REQUIRES_FIVE_COMPLETED_TRADES);
      stageLimit := Some(Or(o.config.firstStageMaxPremium, 75.0));
    } else {
      stageLimit := Some(Or(o.config.secondStageMaxPremium, 100.0));
    }
  }

  method PremiumViolations(o: Order, premium: Option<real>, stageLimit: Option<real>) returns (violations: seq<Violation>)
    requires premium == Premium(o) && stageLimit == StageLimit(o)
    ensures forall v :: v in violations <==> ViolatesPremium(v, o)
  {
    hide Premium, StageLimit, Add;
    violations := [];
    if premium.Some? {
      var usd := premium.value;
      violations := Add(violations, usd > Or(o.config.absoluteMaxPremium, 120.0), ABSOLUTE_PREMIUM_LIMIT_EXCEEDED);
      violations := Add(violations, stageLimit.Some? && usd > stageLimit.value, CURRENT_STAGE_PREMIUM_LIMIT_EXCEEDED);
      violations := Add(violations, usd > Or(o.config.maxDeployableCapital, 300.0), DEPLOYABLE_CAPITAL_LIMIT_EXCEEDED);
      violations := Add(violations, o.account.buyingPower.Some? && usd > o.account.buyingPower.value, INSUFFICIENT_BUYING_POWER);
      if o.account.settledCash.Some? && o.account.reservedCash.Some? {
        var available := o.account.settledCash.value - o.account.reservedCash.value;
        if available < 0.0 {
          violations := Add(violations, true, CASH_RESERVATIONS_EXCEED_SETTLED_CASH);
        } else {
          violations := Add(violations, usd > available, INSUFFICIENT_SETTLED_CASH);
        }
      }
    }
  }

  method QuoteViolations(o: Order) returns (violations: seq<Violation>)
    ensures forall v :: v in violations <==> ViolatesQuote(v, o)
  {
    hide DaysToExpiration, Truncate, Add;
    violations := Add([], o.clock.now.Naive?, CURRENT_TIME_NOT_TIMEZONE_AWARE);
    violations := Add(violations, DaysToExpiration(o) < Truncate(Or(o.config.minimumDte, 7.0)), DTE_BELOW_MINIMUM);
    violations := Add(violations, DaysToExpiration(o) > Truncate(Or(o.config.maximumDte, 21.0)), DTE_ABOVE_MAXIMUM);
    if o.intent.bid.None? || o.intent.ask.None? {
      violations := Add(violations, true, OPTION_QUOTE_MISSING);
    } else if o.intent.bid.value < 0.0 || o.intent.ask.value <= 0.0 || o.intent.ask.value < o.intent.bid.value {
      violations := Add(violations, true, OPTION_QUOTE_INVALID);
    } else {
      var spread := RelativeSpread(o.intent);
      hide RelativeSpread;
      violations := Add(violations, o.maxRelativeSpread.None?, MAX_RELATIVE_SPREAD_NOT_CONFIGURED);
      violations := Add(violations, o.maxRelativeSpread.Some? && spread > o.maxRelativeSpread.value, OPTION_SPREAD_TOO_WIDE);
    }
  }

  method FreshnessViolations(o: Order) returns (violations: seq<Violation>)
    ensures forall v :: v in violations <==> ViolatesFreshness(v, o)
  {
    hide Add;
    violations := [];
    if o.intent.quoteUpdatedAt.None? {
      violations := Add(violations, true, OPTION_QUOTE_TIMESTAMP_MISSING);
    } else if o.intent.quoteUpdatedAt.value.Naive? {
      violations := Add(violations, true, OPTION_QUOTE_TIMESTAMP_NOT_TIMEZONE_AWARE);
    } else if o.clock.now.Aware? {
      var age := o.clock.now.us - o.intent.quoteUpdatedAt.value.us;
      violations := Add(violations, age < -5 * SECOND, OPTION_QUOTE_TIMESTAMP_IN_FUTURE);
      violations := Add(violations, o.maxQuoteAge.None?, MAX_QUOTE_AGE_NOT_CONFIGURED);
      violations := Add(violations, o.maxQuoteAge.Some? && age > o.maxQuoteAge.value * SECOND, OPTION_QUOTE_STALE);
    }
  }

  method LiquidityViolations(o: Order) returns (violations: seq<Violation>)
    ensures forall v :: v in violations <==> ViolatesLiquidity(v, o)
  {
    hide Add;
    violations := [];
    if o.minVolume.None? {
      violations := Add(violations, true, MINIMUM_OPTION_VOLUME_NOT_CONFIGURED);
    } else if o.intent.volume.None? {
      violations := Add(violations, true, OPTION_VOLUME_UNKNOWN);
    } else {
      violations := Add(violations, o.intent.volume.value < o.minVolume.value, OPTION_VOLUME_TOO_LOW);
    }
    if o.minOpenInterest.None? {
      violations := Add(violations, true, MINIMUM_OPEN_INTEREST_NOT_CONFIGURED);
    } else if o.intent.openInterest.None? {
      violations := Add(violations, true, OPEN_INTEREST_UNKNOWN);
    } else {
      violations := Add(violations, o.intent.openInterest.value < o.minOpenInterest.value, OPEN_INTEREST_TOO_LOW);
    }
  }

  /** What a decision on an order must say. */
  ghost predicate Decides(o: Order, r: RiskDecision) {
    && (forall v :: v in r.violations <==> Violates(v, o))
    && (forall i, j :: 0 <= i < j < |r.violations| ==> r.violations[i] != r.violations[j])
    && (r.approved <==> r.violations == [])
    && r.premium == Premium(o)
  }

  /** Reports every violation of the order once, and approves it only when there is none. */
  method EvaluateOpeningOrder(o: Order) returns (r: RiskDecision)
    ensures Decides(o, r)
  {
    hide ViolatesIdentity, ViolatesMode, ViolatesAccount, ViolatesLimits, ViolatesPositions, ViolatesShape, ViolatesPremium, ViolatesQuote;
    hide ViolatesFreshness, ViolatesLiquidity, Premium, StageLimit;
    var identity := IdentityViolations(o);
    var mode := ModeViolations(o);
    var account := AccountViolations(o);
    var limits := LimitViolations(o);
    var positions := PositionViolations(o);
    var shape, premium, stageLimit := ShapeViolations(o);
    var overPremium := PremiumViolations(o, premium, stageLimit);
    var quote := QuoteViolations(o);
    var freshness := FreshnessViolations(o);
    var liquidity := LiquidityViolations(o);
    var violations := Dedup(identity + mode + account + limits + positions + shape + overPremium + quote + freshness + liquidity);
    r := RiskDecision(violations == [], violations, premium);
  }

  // ----------------------------------------------------- what approval means

  /** The order costs what its stage, its capital and its settled cash allow. */
  predicate Affordable(o: Order, usd: real) {
    && Safe(o.config) && o.intent.limitPrice.Some? && usd == o.intent.limitPrice.value * 100.0 && 0.0 < usd
    && usd <= StageCeiling(o.config) <= 120.0 && (o.config.approvedStage == Some(1) ==> usd <= 75.0)
    && usd <= 300.0 && o.account.buyingPower.Some? && usd <= o.account.buyingPower.value
    && AvailableCash(o.account).Some? && usd <= AvailableCash(o.account).value
  }

  ghost predicate Clear(o: Order) {
    forall v :: !Violates(v, o)
  }

  lemma ApprovedIsClear(o: Order, r: RiskDecision)
    requires Decides(o, r) && r.approved
    ensures Clear(o) && r.premium == Premium(o)
  {
    hide Violates, Premium;
    forall v ensures !Violates(v, o) {
      assert v !in r.violations;
    }
  }

  lemma ClearGroups(o: Order, v: Violation)
    requires Clear(o)
    ensures !ViolatesIdentity(v, o) && !ViolatesAccount(v, o) && !ViolatesPositions(v, o) && !ViolatesShape(v, o)
    ensures !ViolatesPremium(v, o) && !ViolatesQuote(v, o) && !ViolatesFreshness(v, o)
  {
    hide ViolatesIdentity, ViolatesMode, ViolatesAccount, ViolatesLimits, ViolatesPositions, ViolatesShape, ViolatesPremium, ViolatesQuote;
    hide ViolatesFreshness, ViolatesLiquidity;
    assert !Violates(v, o);
  }

  lemma ClearConfig(o: Order)
    requires Clear(o)
    ensures Safe(o.config)
  {
    if !Safe(o.config) {
      ClearGroups(o, UNSAFE_CONFIG(ValidateSafetyConfig(o.config).value));
    }
  }

  lemma ClearAccount(o: Order)
    requires Clear(o)
    ensures o.account.buyingPower.Some? && AvailableCash(o.account).Some?
  {
    hide ViolatesIdentity, ViolatesLimits, ViolatesPositions, ViolatesShape, ViolatesPremium, ViolatesQuote, ViolatesFreshness, Clear;
    ClearGroups(o, BUYING_POWER_UNKNOWN);
    ClearGroups(o, SETTLED_CASH_UNKNOWN);
    ClearGroups(o, RESERVED_CASH_UNKNOWN);
  }

  lemma ClearShape(o: Order)
    requires Clear(o)
    ensures Premium(o).Some? && TradesKnown(o) && !StagePremature(o)
  {
    hide ViolatesIdentity, ViolatesAccount, ViolatesLimits, ViolatesPositions, ViolatesPremium, ViolatesQuote, ViolatesFreshness, Clear;
    hide Premium, StagePremature, TradesKnown;
    ClearGroups(o, INVALID_LIMIT_PRICE);
    ClearGroups(o, COMPLETED_TRADE_COUNT_UNKNOWN);
    ClearGroups(o, STAGE_2_REQUIRES_FIVE_COMPLETED_TRADES);
  }

  lemma ClearPremium(o: Order)
    requires Clear(o)
    ensures !Over(Premium(o), StageLimit(o)) && !Over(Premium(o), o.account.buyingPower)
    ensures !Over(Premium(o), Some(Or(o.config.maxDeployableCapital, 300.0)))
    ensures Premium(o).Some? && AvailableCash(o.account).Some? ==> !Over(Premium(o), AvailableCash(o.account))
  {
    hide ViolatesIdentity, ViolatesAccount, ViolatesLimits, ViolatesPositions, ViolatesShape, ViolatesQuote, ViolatesFreshness, Clear;
    hide Premium, StageLimit, Over, AvailableCash;
    ClearGroups(o, CURRENT_STAGE_PREMIUM_LIMIT_EXCEEDED);
    ClearGroups(o, DEPLOYABLE_CAPITAL_LIMIT_EXCEEDED);
    ClearGroups(o, INSUFFICIENT_BUYING_POWER);
    ClearGroups(o, CASH_RESERVATIONS_EXCEED_SETTLED_CASH);
    ClearGroups(o, INSUFFICIENT_SETTLED_CASH);
  }

  /**
    An approved order's whole premium is under the ceiling of its stage, 75 dollars
    in stage one and 120 always, and is covered by settled, unreserved cash.
   */
  lemma ApprovedIsAffordable(o: Order, r: RiskDecision)
    requires Decides(o, r) && r.approved
    ensures r.premium.Some? && Affordable(o, r.premium.value)
  {
    ApprovedIsClear(o, r);
    hide Decides;
    ClearConfig(o);
    ClearAccount(o);
    ClearShape(o);
    ClearPremium(o);
    HardCeilings(o.config);
    hide Clear, Safe;
  }

  lemma ClearFreshness(o: Order)
    requires Clear(o)
    ensures o.clock.now.Aware? ==>
              QuoteAge(o).Some? && o.maxQuoteAge.Some? && -5 * SECOND <= QuoteAge(o).value <= o.maxQuoteAge.value * SECOND
  {
    hide ViolatesIdentity, ViolatesAccount, ViolatesLimits, ViolatesPositions, ViolatesShape, ViolatesPremium, ViolatesQuote, Clear;
    ClearGroups(o, OPTION_QUOTE_TIMESTAMP_MISSING);
    ClearGroups(o, OPTION_QUOTE_TIMESTAMP_NOT_TIMEZONE_AWARE);
    ClearGroups(o, OPTION_QUOTE_TIMESTAMP_IN_FUTURE);
    ClearGroups(o, MAX_QUOTE_AGE_NOT_CONFIGURED);
    ClearGroups(o, OPTION_QUOTE_STALE);
  }

  lemma ClearQuote(o: Order)
    requires Clear(o)
    ensures o.clock.now.Aware? && QuoteValid(o.intent)
    ensures Truncate(Or(o.config.minimumDte, 7.0)) <= DaysToExpiration(o) <= Truncate(Or(o.config.maximumDte, 21.0))
  {
    hide ViolatesIdentity, ViolatesAccount, ViolatesLimits, ViolatesPositions, ViolatesShape, ViolatesPremium, ViolatesFreshness, Clear;
    hide Truncate, DaysToExpiration, RelativeSpread;
    ClearGroups(o, CURRENT_TIME_NOT_TIMEZONE_AWARE);
    ClearGroups(o, DTE_BELOW_MINIMUM);
    ClearGroups(o, DTE_ABOVE_MAXIMUM);
    ClearGroups(o, OPTION_QUOTE_MISSING);
    ClearGroups(o, OPTION_QUOTE_INVALID);
  }

  lemma ClearPositions(o: Order)
    requires Clear(o)
    ensures o.account.optionPositions == Some(0) && o.account.equityPositions == Some(0)
    ensures o.account.optionOrders == Some(0) && o.account.equityOrders == Some(0)
    ensures o.marketOpen == Some(true) && o.withinEntryWindow == Some(true) && o.nearForcedExit == Some(false)
  {
    hide ViolatesIdentity, ViolatesAccount, ViolatesLimits, ViolatesQuote, ViolatesShape, ViolatesPremium, ViolatesFreshness, Clear;
    ClearGroups(o, OPTION_POSITIONS_UNKNOWN);
    ClearGroups(o, EQUITY_POSITIONS_UNKNOWN);
    ClearGroups(o, OPTION_ORDERS_UNKNOWN);
    ClearGroups(o, EQUITY_ORDERS_UNKNOWN);
    ClearGroups(o, EXISTING_OPTION_POSITION);
    ClearGroups(o, UNRECOGNIZED_EQUITY_POSITION);
    ClearGroups(o, EXISTING_OPTION_ORDER);
    ClearGroups(o, EXISTING_EQUITY_ORDER);
    ClearGroups(o, MARKET_NOT_CONFIRMED_OPEN);
    ClearGroups(o, OUTSIDE_ENTRY_WINDOW);
    ClearGroups(o, TOO_CLOSE_TO_FORCED_EXIT);
  }

  /** An approved order is placed flat, inside the entry window, on a fresh quote, 7 to 21 days from expiry. */
  lemma ApprovedIsTimely(o: Order, r: RiskDecision)
    requires Decides(o, r) && r.approved
    ensures o.clock.now.Aware? && QuoteAge(o).Some? && o.maxQuoteAge.Some?
            && -5 * SECOND <= QuoteAge(o).value <= o.maxQuoteAge.value * SECOND
    ensures 7 <= DaysToExpiration(o) <= 21 && QuoteValid(o.intent)
    ensures o.account.optionPositions == Some(0) && o.account.optionOrders == Some(0)
    ensures o.marketOpen == Some(true) && o.withinEntryWindow == Some(true) && o.nearForcedExit == Some(false)
  {
    ApprovedIsClear(o, r);
    hide Decides;
    ClearConfig(o);
    HardCeilings(o.config);
    ClearFreshness(o);
    ClearQuote(o);
    ClearPositions(o);
    hide Clear, Safe, DaysToExpiration, QuoteAge, QuoteValid;
  }

  // ------------------------------------------------- when an order is approved

  /** The order buys one named contract of an allowed kind at a limit, in a mode that may execute. */
  predicate GoodContract(o: Order) {
    var i, c := o.intent, o.config;
    && i.instrumentId.Some? && !Blank(i.instrumentId.value) && i.strike.Some? && 0.0 < i.strike.value
    && i.action == BUY && i.effect == OPEN && i.orderType == LIMIT && i.quantity == 1
    && (if i.optionType == CALL_OPTION then "LONG_CALL" in c.allowedPositions else "LONG_PUT" in c.allowedPositions)
    && o.killSwitchEngaged == Some(false)
    && (c.systemMode == Some("SHADOW")
        || (c.systemMode == Some("LIVE") && c.liveEnabled == Some(true) && c.orderToolsEnabled == Some(true) && c.quoteVerified == Some(true)))
  }

  /** A known cash account above the kill threshold, flat, within its daily and loss limits, in the window. */
  predicate GoodAccount(o: Order)
    requires Safe(o.config)
  {
    HardCeilings(o.config);
    var a := o.account;
    && a.accountType.Some? && IsCash(a.accountType.value)
    && a.equity.Some? && o.config.equityKillThreshold.value <= a.equity.value
    && a.consecutiveLosses.Some? && a.consecutiveLosses.value < Truncate(o.config.maxConsecutiveLosses.value)
    && a.entriesToday.Some? && a.entriesToday.value < 1
    && a.optionPositions == Some(0) && a.equityPositions == Some(0) && a.optionOrders == Some(0) && a.equityOrders == Some(0)
    && o.marketOpen == Some(true) && o.withinEntryWindow == Some(true) && o.nearForcedExit == Some(false)
  }

  /** A premium under the ceiling of its stage and of the capital, covered by buying power and by settled, unreserved cash. */
  predicate GoodPremium(o: Order)
    requires Safe(o.config)
  {
    HardCeilings(o.config);
    var a, c := o.account, o.config;
    && o.intent.limitPrice.Some? && 0.0 < o.intent.limitPrice.value
    && o.completedLiveTrades.Some? && 0 <= o.completedLiveTrades.value
    && (c.approvedStage == Some(2) ==> 5 <= o.completedLiveTrades.value)
    && var usd := o.intent.limitPrice.value * 100.0;
       && usd <= c.absoluteMaxPremium.value && usd <= c.maxDeployableCapital.value
       && usd <= (if c.approvedStage == Some(1) then c.firstStageMaxPremium.value else c.secondStageMaxPremium.value)
       && a.buyingPower.Some? && usd <= a.buyingPower.value
       && a.settledCash.Some? && a.reservedCash.Some? && 0.0 <= a.reservedCash.value && usd <= a.settledCash.value - a.reservedCash.value
  }

  /** A valid, narrow, fresh and liquid quote, on a contract whose days to expiry are inside the configured bounds. */
  predicate GoodQuote(o: Order)
    requires Safe(o.config)
  {
    HardCeilings(o.config);
    var i, now := o.intent, o.clock.now;
    && now.Aware? && i.bid.Some? && i.ask.Some? && 0.0 <= i.bid.value <= i.ask.value && 0.0 < i.ask.value
    && o.maxRelativeSpread.Some? && 2.0 * (i.ask.value - i.bid.value) <= o.maxRelativeSpread.value * (i.bid.value + i.ask.value)
    && i.quoteUpdatedAt.Some? && i.quoteUpdatedAt.value.Aware? && o.maxQuoteAge.Some?
    && -5_000_000 <= now.us - i.quoteUpdatedAt.value.us <= o.maxQuoteAge.value * 1_000_000
    && Truncate(o.config.minimumDte.value) <= i.expiration - MarketDay(o.clock) <= Truncate(o.config.maximumDte.value)
    && o.minVolume.Some? && i.volume.Some? && o.minVolume.value <= i.volume.value
    && o.minOpenInterest.Some? && i.openInterest.Some? && o.minOpenInterest.value <= i.openInterest.value
  }

  predicate Acceptable(o: Order) {
    Safe(o.config) && GoodContract(o) && GoodAccount(o) && GoodPremium(o) && GoodQuote(o)
  }

  lemma SpreadIff(bid: real, ask: real, most: real)
    requires 0.0 <= bid <= ask && 0.0 < ask
    ensures (ask - bid) / ((bid + ask) / 2.0) <= most <==> 2.0 * (ask - bid) <= most * (bid + ask)
  {
    var mid := (bid + ask) / 2.0;
    var spread := (ask - bid) / mid;
    assert spread * mid == ask - bid;
    TimesMid(spread, most, mid);
    assert most * (bid + ask) == 2.0 * (most * mid);
  }

  lemma TimesMid(x: real, y: real, mid: real)
    requires 0.0 < mid
    ensures x <= y <==> x * mid <= y * mid
  {
    assert (y - x) * mid == y * mid - x * mid;
    SignOf(y - x, mid);
  }

  lemma SignOf(d: real, mid: real)
    requires 0.0 < mid
    ensures 0.0 <= d <==> 0.0 <= d * mid
  {
    if d < 0.0 {
      PositiveTimes(-d, mid);
    }
  }

  lemma PositiveTimes(x: real, y: real)
    requires 0.0 < x && 0.0 < y
    ensures 0.0 < x * y && (-x) * y == -(x * y)
  {
  }

  lemma ClearOthers(o: Order, v: Violation)
    requires Clear(o)
    ensures !ViolatesMode(v, o) && !ViolatesLimits(v, o) && !ViolatesLiquidity(v, o)
  {
    hide ViolatesIdentity, ViolatesMode, ViolatesAccount, ViolatesLimits, ViolatesPositions, ViolatesShape, ViolatesPremium, ViolatesQuote;
    hide ViolatesFreshness, ViolatesLiquidity;
    assert !Violates(v, o);
  }

  lemma ClearContract(o: Order)
    requires Clear(o) && Safe(o.config)
    ensures GoodContract(o)
  {
    hide Clear, Safe, Blank;
    HardCeilings(o.config);
    ClearIdentity(o);
    ClearForm(o);
    ClearMode(o);
  }

  lemma ClearIdentity(o: Order)
    requires Clear(o)
    ensures o.intent.instrumentId.Some? && !Blank(o.intent.instrumentId.value) && o.intent.strike.Some? && 0.0 < o.intent.strike.value
    ensures o.killSwitchEngaged == Some(false)
  {
    hide ViolatesAccount, ViolatesPositions, ViolatesShape, ViolatesPremium, ViolatesQuote, ViolatesFreshness, Clear, ValidateSafetyConfig, Blank;
    ClearGroups(o, CONTRACT_INSTRUMENT_ID_UNKNOWN);
    ClearGroups(o, CONTRACT_STRIKE_UNKNOWN);
    ClearGroups(o, KILL_SWITCH_STATUS_UNKNOWN);
    var engaged := KILL_SWITCH_ENGAGED(Or(o.killSwitchReason, ""));
    ClearGroups(o, engaged);
    assert o.killSwitchEngaged == Some(true) ==> ViolatesIdentity(engaged, o);
    assert o.killSwitchEngaged.Some? && o.killSwitchEngaged.value ==> o.killSwitchEngaged == Some(true);
  }

  lemma ClearForm(o: Order)
    requires Clear(o)
    ensures o.intent.action == BUY && o.intent.effect == OPEN && o.intent.orderType == LIMIT
    ensures o.intent.quantity == Or(o.config.maxContracts, 1) && PositionName(o.intent.optionType) in o.config.allowedPositions
  {
    hide ViolatesIdentity, ViolatesAccount, ViolatesPositions, ViolatesPremium, ViolatesQuote, ViolatesFreshness, Clear;
    hide Premium, StagePremature, TradesKnown, PositionName;
    ClearGroups(o, OPENING_ACTION_MUST_BE_BUY);
    ClearGroups(o, POSITION_EFFECT_MUST_BE_OPEN);
    ClearGroups(o, LIMIT_ORDER_REQUIRED);
    ClearGroups(o, QUANTITY_MUST_EQUAL_ONE);
    ClearGroups(o, OPTION_DIRECTION_NOT_ALLOWED);
  }

  lemma ClearMode(o: Order)
    requires Clear(o)
    ensures var c := o.config;
            c.systemMode == Some("SHADOW")
            || (c.systemMode == Some("LIVE") && c.liveEnabled == Some(true) && c.orderToolsEnabled == Some(true) && c.quoteVerified == Some(true))
  {
    hide ViolatesLimits, ViolatesLiquidity, Clear;
    ClearOthers(o, MODE_NOT_EXECUTABLE);
    ClearOthers(o, LIVE_TRADING_DISABLED);
    ClearOthers(o, ORDER_TOOLS_DISABLED);
    ClearOthers(o, REALTIME_OPTION_QUOTE_NOT_VERIFIED);
  }

  lemma ClearAccountIsGood(o: Order)
    requires Clear(o) && Safe(o.config)
    ensures GoodAccount(o)
  {
    hide ViolatesIdentity, ViolatesMode, ViolatesPositions, ViolatesShape, ViolatesPremium, ViolatesQuote, ViolatesFreshness, ViolatesLiquidity;
    hide Clear, Safe, Truncate, IsCash;
    HardCeilings(o.config);
    ClearPositions(o);
    ClearGroups(o, ACCOUNT_TYPE_UNKNOWN);
    ClearGroups(o, ACCOUNT_NOT_CASH);
    ClearGroups(o, ACCOUNT_EQUITY_UNKNOWN);
    ClearGroups(o, ACCOUNT_EQUITY_KILL_SWITCH);
    ClearOthers(o, CONSECUTIVE_LOSSES_UNKNOWN);
    ClearOthers(o, CONSECUTIVE_LOSS_PAUSE);
    ClearOthers(o, DAILY_ENTRY_COUNT_UNKNOWN);
    ClearOthers(o, DAILY_ENTRY_LIMIT_REACHED);
  }

  lemma ClearPremiumIsGood(o: Order)
    requires Clear(o) && Safe(o.config)
    ensures GoodPremium(o)
  {
    HardCeilings(o.config);
    ClearAccount(o);
    ClearReserved(o);
    ClearShape(o);
    ClearPremium(o);
    ClearAbsolute(o);
    hide Clear, Safe;
  }

  lemma ClearReserved(o: Order)
    requires Clear(o)
    ensures o.account.reservedCash.Some? ==> 0.0 <= o.account.reservedCash.value
  {
    hide ViolatesIdentity, ViolatesPositions, ViolatesShape, ViolatesPremium, ViolatesQuote, ViolatesFreshness, Clear;
    ClearGroups(o, RESERVED_CASH_INVALID);
  }

  lemma ClearAbsolute(o: Order)
    requires Clear(o)
    ensures !Over(Premium(o), Some(Or(o.config.absoluteMaxPremium, 120.0)))
  {
    hide ViolatesIdentity, ViolatesAccount, ViolatesPositions, ViolatesShape, ViolatesQuote, ViolatesFreshness, Clear;
    hide Premium, StageLimit, Over, AvailableCash;
    ClearGroups(o, ABSOLUTE_PREMIUM_LIMIT_EXCEEDED);
  }

  lemma ClearQuoteIsGood(o: Order)
    requires Clear(o) && Safe(o.config)
    ensures GoodQuote(o)
  {
    HardCeilings(o.config);
    ClearQuote(o);
    ClearFreshness(o);
    ClearSpread(o);
    ClearLiquidity(o);
    hide Clear, Safe, Truncate, MarketDay, RelativeSpread;
  }

  lemma ClearSpread(o: Order)
    requires Clear(o)
    ensures QuoteValid(o.intent) ==>
              o.maxRelativeSpread.Some?
              && 2.0 * (o.intent.ask.value - o.intent.bid.value) <= o.maxRelativeSpread.value * (o.intent.bid.value + o.intent.ask.value)
  {
    hide ViolatesIdentity, ViolatesAccount, ViolatesPositions, ViolatesShape, ViolatesPremium, ViolatesFreshness, Clear;
    hide Truncate, DaysToExpiration;
    ClearGroups(o, MAX_RELATIVE_SPREAD_NOT_CONFIGURED);
    ClearGroups(o, OPTION_SPREAD_TOO_WIDE);
    if QuoteValid(o.intent) {
      SpreadIff(o.intent.bid.value, o.intent.ask.value, o.maxRelativeSpread.value);
    }
  }

  lemma ClearLiquidity(o: Order)
    requires Clear(o)
    ensures o.minVolume.Some? && o.intent.volume.Some? && o.minVolume.value <= o.intent.volume.value
    ensures o.minOpenInterest.Some? && o.intent.openInterest.Some? && o.minOpenInterest.value <= o.intent.openInterest.value
  {
    hide ViolatesMode, ViolatesLimits, Clear;
    ClearOthers(o, MINIMUM_OPTION_VOLUME_NOT_CONFIGURED);
    ClearOthers(o, OPTION_VOLUME_UNKNOWN);
    ClearOthers(o, OPTION_VOLUME_TOO_LOW);
    ClearOthers(o, MINIMUM_OPEN_INTEREST_NOT_CONFIGURED);
    ClearOthers(o, OPEN_INTEREST_UNKNOWN);
    ClearOthers(o, OPEN_INTEREST_TOO_LOW);
  }

  lemma GoodIdentityGroup(o: Order, v: Violation)
    requires Safe(o.config) && GoodContract(o)
    ensures !ViolatesIdentity(v, o)
  {
    hide Blank, FirstFault, Checks;
  }

  lemma GoodModeGroup(o: Order, v: Violation)
    requires Safe(o.config) && GoodContract(o)
    ensures !ViolatesMode(v, o)
  {
    hide Safe, Blank;
    HardCeilings(o.config);
  }

  lemma GoodShapeGroup(o: Order, v: Violation)
    requires Safe(o.config) && GoodContract(o) && GoodPremium(o)
    ensures !ViolatesShape(v, o)
  {
    hide Safe, Blank;
    HardCeilings(o.config);
  }

  lemma GoodLimitsGroup(o: Order, v: Violation)
    requires Safe(o.config) && GoodAccount(o)
    ensures !ViolatesLimits(v, o)
  {
    hide Safe, Truncate, IsCash;
    HardCeilings(o.config);
  }

  lemma GoodPositionsGroup(o: Order, v: Violation)
    requires Safe(o.config) && GoodAccount(o)
    ensures !ViolatesPositions(v, o)
  {
    hide Safe, Truncate, IsCash;
    HardCeilings(o.config);
  }

  lemma GoodAccountGroup(o: Order, v: Violation)
    requires Safe(o.config) && GoodAccount(o) && GoodPremium(o)
    ensures !ViolatesAccount(v, o)
  {
    hide Safe, Truncate, IsCash;
    HardCeilings(o.config);
  }

  lemma GoodPremiumGroup(o: Order, v: Violation)
    requires Safe(o.config) && GoodPremium(o)
    ensures !ViolatesPremium(v, o)
  {
    hide Safe;
    HardCeilings(o.config);
  }

  lemma GoodQuoteGroup(o: Order, v: Violation)
    requires Safe(o.config) && GoodQuote(o)
    ensures !ViolatesQuote(v, o)
  {
    hide Safe, Truncate, MarketDay;
    HardCeilings(o.config);
    SpreadIff(o.intent.bid.value, o.intent.ask.value, o.maxRelativeSpread.value);
  }

  lemma GoodFreshnessGroup(o: Order, v: Violation)
    requires Safe(o.config) && GoodQuote(o)
    ensures !ViolatesFreshness(v, o)
  {
    hide Safe, Truncate, MarketDay;
    HardCeilings(o.config);
  }

  lemma GoodLiquidityGroup(o: Order, v: Violation)
    requires Safe(o.config) && GoodQuote(o)
    ensures !ViolatesLiquidity(v, o)
  {
    hide Safe, Truncate, MarketDay;
    HardCeilings(o.config);
  }

  lemma AcceptableIsClear(o: Order)
    requires Acceptable(o)
    ensures Clear(o)
  {
    hide ViolatesIdentity, ViolatesMode, ViolatesAccount, ViolatesLimits, ViolatesPositions, ViolatesShape, ViolatesPremium, ViolatesQuote;
    hide ViolatesFreshness, ViolatesLiquidity, Safe, GoodContract, GoodAccount, GoodPremium, GoodQuote;
    forall v ensures !Violates(v, o) {
      GoodIdentityGroup(o, v);
      GoodModeGroup(o, v);
      GoodShapeGroup(o, v);
      GoodLimitsGroup(o, v);
      GoodPositionsGroup(o, v);
      GoodAccountGroup(o, v);
      GoodPremiumGroup(o, v);
      GoodQuoteGroup(o, v);
      GoodFreshnessGroup(o, v);
      GoodLiquidityGroup(o, v);
    }
  }

  lemma NothingIn(violations: seq<Violation>)
    ensures violations == [] <==> forall v :: v !in violations
  {
    if violations != [] { assert violations[0] in violations; }
  }

  /** An order is approved exactly if its configuration is safe and its contract, account, premium and quote are all good. */
  lemma ApprovedIff(o: Order, r: RiskDecision)
    requires Decides(o, r)
    ensures r.approved <==> Acceptable(o)
  {
    hide Violates, Premium, Safe, GoodContract, GoodAccount, GoodPremium, GoodQuote;
    if r.approved {
      ApprovedIsClear(o, r);
      ClearConfig(o);
      ClearContract(o);
      ClearAccountIsGood(o);
      ClearPremiumIsGood(o);
      ClearQuoteIsGood(o);
    }
    if Acceptable(o) {
      AcceptableIsClear(o);
      NothingIn(r.violations);
    }
  }
}
