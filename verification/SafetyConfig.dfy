/** The safety configuration and the checks that keep it inside the hard limits. */
module SafetyConfig {
  import opened Common

  const HARD_MAX_DEPLOYABLE_CAPITAL_USD := 300.0
  const HARD_FIRST_STAGE_MAX_PREMIUM_USD := 75.0
  const HARD_ABSOLUTE_MAX_PREMIUM_USD := 120.0
  const HARD_EQUITY_KILL_THRESHOLD_USD := 225.0
  const HARD_MAX_CONSECUTIVE_LOSSES := 3.0
  const HARD_MINIMUM_DTE := 7.0
  const HARD_MAXIMUM_DTE := 21.0
  const HARD_ALLOWED_OPENING_POSITIONS := {"LONG_CALL", "LONG_PUT"}

  datatype FrictionModel = FrictionModel(
    perContractFee: Option<real>, regulatoryExitFee: Option<real>, exitSlippageTicks: Option<real>, tickSize: Option<real>)

  /** The parsed configuration; `None` is a missing key. */
  datatype Config = Config(
    schemaVersion: Option<int>, systemMode: Option<string>,
    maxDeployableCapital: Option<real>, initialRiskCapital: Option<real>,
    firstStageTradeCount: Option<int>, firstStageMaxPremium: Option<real>, secondStageMaxPremium: Option<real>,
    absoluteMaxPremium: Option<real>, maxContracts: Option<int>, maxConcurrentPositions: Option<int>,
    maxDailyEntries: Option<int>, equityKillThreshold: Option<real>, maxConsecutiveLosses: Option<real>,
    minimumDte: Option<real>, maximumDte: Option<real>, friction: Option<FrictionModel>, allowedPositions: set<string>,
    allowMargin: Option<bool>, allowShortOptions: Option<bool>, allowMultiLeg: Option<bool>, allowStockShorting: Option<bool>,
    allowAveragingDown: Option<bool>, allowMartingale: Option<bool>, allowOvernight: Option<bool>, allow0dte: Option<bool>,
    marketTimezone: Option<string>, entryDelay: Option<int>, stopBeforeClose: Option<int>, forceExit: Option<int>,
    emergencyExit: Option<int>, allowReinvestment: Option<bool>, allowTransfers: Option<bool>, manualUpgrade: Option<bool>,
    approvedStage: Option<int>, stage2Approved: Option<bool>, stage2IntegrityPassed: Option<bool>,
    liveEnabled: Option<bool>, orderToolsEnabled: Option<bool>, quoteVerified: Option<bool>)

  datatype ConfigFault =
    | SCHEMA | DEPLOYABLE | INITIAL_CAPITAL | DEPLOYABLE_EXCEEDS_CAPITAL | TRADE_COUNT | FIRST_STAGE_PREMIUM
    | SECOND_STAGE_PREMIUM | ABSOLUTE_PREMIUM | CONTRACTS | POSITIONS | DAILY_ENTRIES | KILL_THRESHOLD | LOSSES
    | MINIMUM_DTE | MAXIMUM_DTE | FRICTION_MISSING | FRICTION_INVALID | POSITION_TYPES | NO_POSITION_TYPE
    | MARGIN | SHORT_OPTIONS | MULTI_LEG | STOCK_SHORTING | AVERAGING_DOWN | MARTINGALE | OVERNIGHT | ZERO_DTE | TIMEZONE
    | ENTRY_DELAY | STOP_BEFORE_CLOSE | FORCE_EXIT | EMERGENCY_EXIT | CUTOFF_ORDER | REINVESTMENT | TRANSFERS
    | MANUAL_UPGRADE | STAGE | STAGE_2_APPROVAL | STAGE_2_INTEGRITY | LIVE_MODE | LIVE_QUOTES

  predicate AtMost(value: Option<real>, bound: real) {
    value.Some? && value.value <= bound
  }

  predicate AtLeast(value: Option<real>, bound: real) {
    value.Some? && bound <= value.value
  }

  /** The requirements in the order they are checked, each with the fault it raises. */
  function Checks(c: Config): seq<(bool, ConfigFault)> {
    CapitalChecks(c) + PremiumChecks(c) + RiskChecks(c) + TradeChecks(c) + SwitchChecks(c) + ConductChecks(c) + SessionChecks(c) + AccountChecks(c)
    + StageChecks(c)
  }

  function CapitalChecks(c: Config): seq<(bool, ConfigFault)> {
    [ (c.schemaVersion == Some(1), SCHEMA),
      (AtMost(c.maxDeployableCapital, HARD_MAX_DEPLOYABLE_CAPITAL_USD), DEPLOYABLE),
      (c.initialRiskCapital == Some(HARD_MAX_DEPLOYABLE_CAPITAL_USD), INITIAL_CAPITAL),
      (c.initialRiskCapital.Some? && AtMost(c.maxDeployableCapital, c.initialRiskCapital.value), DEPLOYABLE_EXCEEDS_CAPITAL),
      (c.firstStageTradeCount == Some(5), TRADE_COUNT) ]
  }

  function PremiumChecks(c: Config): seq<(bool, ConfigFault)> {
    [ (AtMost(c.firstStageMaxPremium, HARD_FIRST_STAGE_MAX_PREMIUM_USD), FIRST_STAGE_PREMIUM),
      (AtMost(c.secondStageMaxPremium, HARD_ABSOLUTE_MAX_PREMIUM_USD), SECOND_STAGE_PREMIUM),
      (AtMost(c.absoluteMaxPremium, HARD_ABSOLUTE_MAX_PREMIUM_USD), ABSOLUTE_PREMIUM),
      (c.maxContracts == Some(1), CONTRACTS),
      (c.maxConcurrentPositions == Some(1), POSITIONS) ]
  }

  function RiskChecks(c: Config): seq<(bool, ConfigFault)> {
    [ (c.maxDailyEntries == Some(1), DAILY_ENTRIES),
      (AtLeast(c.equityKillThreshold, HARD_EQUITY_KILL_THRESHOLD_USD), KILL_THRESHOLD),
      (AtMost(c.maxConsecutiveLosses, HARD_MAX_CONSECUTIVE_LOSSES), LOSSES),
      (AtLeast(c.minimumDte, HARD_MINIMUM_DTE), MINIMUM_DTE),
      (AtMost(c.maximumDte, HARD_MAXIMUM_DTE), MAXIMUM_DTE) ]
  }

  function TradeChecks(c: Config): seq<(bool, ConfigFault)> {
    [ (c.friction.Some?, FRICTION_MISSING),
      (c.friction.Some? && FrictionValid(c.friction.value), FRICTION_INVALID),
      (c.allowedPositions <= HARD_ALLOWED_OPENING_POSITIONS, POSITION_TYPES),
      (c.allowedPositions != {}, NO_POSITION_TYPE) ]
  }

  predicate FrictionValid(f: FrictionModel) {
    && AtLeast(f.perContractFee, 0.0) && AtLeast(f.regulatoryExitFee, 0.0)
    && AtLeast(f.exitSlippageTicks, 0.0) && AtLeast(f.tickSize, 0.0)
  }

  function SwitchChecks(c: Config): seq<(bool, ConfigFault)> {
    [ (c.allowMargin == Some(false), MARGIN), (c.allowShortOptions == Some(false), SHORT_OPTIONS),
      (c.allowMultiLeg == Some(false), MULTI_LEG), (c.allowStockShorting == Some(false), STOCK_SHORTING) ]
  }

  function ConductChecks(c: Config): seq<(bool, ConfigFault)> {
    [ (c.allowAveragingDown == Some(false), AVERAGING_DOWN), (c.allowMartingale == Some(false), MARTINGALE),
      (c.allowOvernight == Some(false), OVERNIGHT), (c.allow0dte == Some(false), ZERO_DTE) ]
  }

  function SessionChecks(c: Config): seq<(bool, ConfigFault)> {
    [ (c.marketTimezone == Some("America/New_York"), TIMEZONE),
      (c.entryDelay.Some? && 30 <= c.entryDelay.value, ENTRY_DELAY),
      (c.stopBeforeClose.Some? && 60 <= c.stopBeforeClose.value <= 90, STOP_BEFORE_CLOSE),
      (c.forceExit.Some? && 30 <= c.forceExit.value, FORCE_EXIT),
      (c.emergencyExit.Some? && 15 <= c.emergencyExit.value, EMERGENCY_EXIT) ]
  }

  function AccountChecks(c: Config): seq<(bool, ConfigFault)> {
    [ (c.stopBeforeClose.Some? && c.forceExit.Some? && c.emergencyExit.Some?
       && c.stopBeforeClose.value > c.forceExit.value > c.emergencyExit.value, CUTOFF_ORDER),
      (c.allowReinvestment == Some(false), REINVESTMENT), (c.allowTransfers == Some(false), TRANSFERS),
      (c.manualUpgrade == Some(true), MANUAL_UPGRADE) ]
  }

  function StageChecks(c: Config): seq<(bool, ConfigFault)> {
    var live := c.liveEnabled == Some(true) || c.orderToolsEnabled == Some(true);
    [ (c.approvedStage == Some(1) || c.approvedStage == Some(2), STAGE),
      (c.approvedStage == Some(2) ==> c.stage2Approved == Some(true), STAGE_2_APPROVAL),
      (c.approvedStage == Some(2) ==> c.stage2IntegrityPassed == Some(true), STAGE_2_INTEGRITY),
      (live ==> c.systemMode == Some("LIVE"), LIVE_MODE),
      (live ==> c.quoteVerified == Some(true), LIVE_QUOTES) ]
  }

  /** The fault of the first requirement that does not hold. */
  function FirstFault(checks: seq<(bool, ConfigFault)>): (r: Option<ConfigFault>)
    ensures r.None? <==> forall i :: 0 <= i < |checks| ==> checks[i].0
    ensures r.Some? ==> exists i :: 0 <= i < |checks| && checks[i] == (false, r.value) && forall j :: 0 <= j < i ==> checks[j].0
  {
    if checks == [] then None
    else
      var earlier := FirstFault(checks[..|checks| - 1]);
      if earlier.Some? then earlier
      else if checks[|checks| - 1].0 then None
      else Some(checks[|checks| - 1].1)
  }

  function ValidateSafetyConfig(c: Config): Option<ConfigFault> {
    FirstFault(Checks(c))
  }

  /** Nothing the checks refuse can be read from a safe configuration. */
  predicate Safe(c: Config) {
    ValidateSafetyConfig(c).None?
  }

  /** The requirement behind each fault, in the configuration's own numbers. */
  predicate Meets(c: Config, f: ConfigFault) {
    match f
    case SCHEMA => c.schemaVersion == Some(1)
    case DEPLOYABLE => c.maxDeployableCapital.Some? && c.maxDeployableCapital.value <= 300.0
    case INITIAL_CAPITAL => c.initialRiskCapital == Some(300.0)
    case DEPLOYABLE_EXCEEDS_CAPITAL =>
      c.maxDeployableCapital.Some? && c.initialRiskCapital.Some? && c.maxDeployableCapital.value <= c.initialRiskCapital.value
    case TRADE_COUNT => c.firstStageTradeCount == Some(5)
    case FIRST_STAGE_PREMIUM => c.firstStageMaxPremium.Some? && c.firstStageMaxPremium.value <= 75.0
    case SECOND_STAGE_PREMIUM => c.secondStageMaxPremium.Some? && c.secondStageMaxPremium.value <= 120.0
    case ABSOLUTE_PREMIUM => c.absoluteMaxPremium.Some? && c.absoluteMaxPremium.value <= 120.0
    case CONTRACTS => c.maxContracts == Some(1)
    case POSITIONS => c.maxConcurrentPositions == Some(1)
    case DAILY_ENTRIES => c.maxDailyEntries == Some(1)
    case KILL_THRESHOLD => c.equityKillThreshold.Some? && 225.0 <= c.equityKillThreshold.value
    case LOSSES => c.maxConsecutiveLosses.Some? && c.maxConsecutiveLosses.value <= 3.0
    case MINIMUM_DTE => c.minimumDte.Some? && 7.0 <= c.minimumDte.value
    case MAXIMUM_DTE => c.maximumDte.Some? && c.maximumDte.value <= 21.0
    case FRICTION_MISSING => c.friction.Some?
    case FRICTION_INVALID =>
      && c.friction.Some?
      && var m := c.friction.value;
         && m.perContractFee.Some? && m.regulatoryExitFee.Some? && m.exitSlippageTicks.Some? && m.tickSize.Some?
         && 0.0 <= m.perContractFee.value && 0.0 <= m.regulatoryExitFee.value
         && 0.0 <= m.exitSlippageTicks.value && 0.0 <= m.tickSize.value
    case POSITION_TYPES => c.allowedPositions <= {"LONG_CALL", "LONG_PUT"}
    case NO_POSITION_TYPE => c.allowedPositions != {}
    case MARGIN => c.allowMargin == Some(false)
    case SHORT_OPTIONS => c.allowShortOptions == Some(false)
    case MULTI_LEG => c.allowMultiLeg == Some(false)
    case STOCK_SHORTING => c.allowStockShorting == Some(false)
    case AVERAGING_DOWN => c.allowAveragingDown == Some(false)
    case MARTINGALE => c.allowMartingale == Some(false)
    case OVERNIGHT => c.allowOvernight == Some(false)
    case ZERO_DTE => c.allow0dte == Some(false)
    case TIMEZONE => c.marketTimezone == Some("America/New_York")
    case ENTRY_DELAY => c.entryDelay.Some? && 30 <= c.entryDelay.value
    case STOP_BEFORE_CLOSE => c.stopBeforeClose.Some? && 60 <= c.stopBeforeClose.value <= 90
    case FORCE_EXIT => c.forceExit.Some? && 30 <= c.forceExit.value
    case EMERGENCY_EXIT => c.emergencyExit.Some? && 15 <= c.emergencyExit.value
    case CUTOFF_ORDER =>
      && c.stopBeforeClose.Some? && c.forceExit.Some? && c.emergencyExit.Some?
      && c.emergencyExit.value < c.forceExit.value < c.stopBeforeClose.value
    case REINVESTMENT => c.allowReinvestment == Some(false)
    case TRANSFERS => c.allowTransfers == Some(false)
    case MANUAL_UPGRADE => c.manualUpgrade == Some(true)
    case STAGE => c.approvedStage == Some(1) || c.approvedStage == Some(2)
    case STAGE_2_APPROVAL => c.approvedStage == Some(2) ==> c.stage2Approved == Some(true)
    case STAGE_2_INTEGRITY => c.approvedStage == Some(2) ==> c.stage2IntegrityPassed == Some(true)
    case LIVE_MODE => LiveRequested(c) ==> c.systemMode == Some("LIVE")
    case LIVE_QUOTES => LiveRequested(c) ==> c.quoteVerified == Some(true)
  }

  /** The order in which the requirements are checked. */
  const CAPITAL_FAULTS := [SCHEMA, DEPLOYABLE, INITIAL_CAPITAL, DEPLOYABLE_EXCEEDS_CAPITAL, TRADE_COUNT]
  const PREMIUM_FAULTS := [FIRST_STAGE_PREMIUM, SECOND_STAGE_PREMIUM, ABSOLUTE_PREMIUM, CONTRACTS, POSITIONS]
  const RISK_FAULTS := [DAILY_ENTRIES, KILL_THRESHOLD, LOSSES, MINIMUM_DTE, MAXIMUM_DTE]
  const TRADE_FAULTS := [FRICTION_MISSING, FRICTION_INVALID, POSITION_TYPES, NO_POSITION_TYPE]
  const SWITCH_FAULTS := [MARGIN, SHORT_OPTIONS, MULTI_LEG, STOCK_SHORTING]
  const CONDUCT_FAULTS := [AVERAGING_DOWN, MARTINGALE, OVERNIGHT, ZERO_DTE]
  const SESSION_FAULTS := [TIMEZONE, ENTRY_DELAY, STOP_BEFORE_CLOSE, FORCE_EXIT, EMERGENCY_EXIT]
  const ACCOUNT_FAULTS := [CUTOFF_ORDER, REINVESTMENT, TRANSFERS, MANUAL_UPGRADE]
  const STAGE_FAULTS := [STAGE, STAGE_2_APPROVAL, STAGE_2_INTEGRITY, LIVE_MODE, LIVE_QUOTES]
  const ORDERED := CAPITAL_FAULTS + PREMIUM_FAULTS + RISK_FAULTS + TRADE_FAULTS + SWITCH_FAULTS + CONDUCT_FAULTS + SESSION_FAULTS
                   + ACCOUNT_FAULTS + STAGE_FAULTS

  /** Each check in its place is that of its fault. */
  predicate Checked(c: Config, checks: seq<(bool, ConfigFault)>, faults: seq<ConfigFault>) {
    |checks| == |faults| && forall i :: 0 <= i < |faults| ==> checks[i].1 == faults[i] && checks[i].0 == Meets(c, faults[i])
  }

  lemma CheckedConcat(c: Config, a: seq<(bool, ConfigFault)>, b: seq<(bool, ConfigFault)>, x: seq<ConfigFault>, y: seq<ConfigFault>)
    requires Checked(c, a, x) && Checked(c, b, y)
    ensures Checked(c, a + b, x + y)
  {
    hide Meets;
  }

  lemma CapitalChecked(c: Config)
    ensures Checked(c, CapitalChecks(c), CAPITAL_FAULTS)
  {
  }

  lemma PremiumChecked(c: Config)
    ensures Checked(c, PremiumChecks(c), PREMIUM_FAULTS)
  {
  }

  lemma RiskChecked(c: Config)
    ensures Checked(c, RiskChecks(c), RISK_FAULTS)
  {
  }

  lemma TradeChecked(c: Config)
    ensures Checked(c, TradeChecks(c), TRADE_FAULTS)
  {
  }

  lemma SwitchChecked(c: Config)
    ensures Checked(c, SwitchChecks(c), SWITCH_FAULTS)
  {
  }

  lemma ConductChecked(c: Config)
    ensures Checked(c, ConductChecks(c), CONDUCT_FAULTS)
  {
  }

  lemma SessionChecked(c: Config)
    ensures Checked(c, SessionChecks(c), SESSION_FAULTS)
  {
  }

  lemma AccountChecked(c: Config)
    ensures Checked(c, AccountChecks(c), ACCOUNT_FAULTS)
  {
  }

  lemma StageChecked(c: Config)
    ensures Checked(c, StageChecks(c), STAGE_FAULTS)
  {
  }

  lemma AllChecked(c: Config)
    ensures Checked(c, Checks(c), ORDERED)
  {
    hide CapitalChecks, PremiumChecks, RiskChecks, TradeChecks, SwitchChecks, ConductChecks, SessionChecks, AccountChecks, StageChecks;
    hide Checked, Meets, CAPITAL_FAULTS, PREMIUM_FAULTS, RISK_FAULTS, TRADE_FAULTS, SWITCH_FAULTS, CONDUCT_FAULTS, SESSION_FAULTS;
    hide ACCOUNT_FAULTS, STAGE_FAULTS;
    CapitalChecked(c);
    PremiumChecked(c);
    RiskChecked(c);
    TradeChecked(c);
    SwitchChecked(c);
    ConductChecked(c);
    SessionChecked(c);
    AccountChecked(c);
    StageChecked(c);
    var checks, faults := CapitalChecks(c), CAPITAL_FAULTS;
    CheckedConcat(c, checks, PremiumChecks(c), faults, PREMIUM_FAULTS);
    checks, faults := checks + PremiumChecks(c), faults + PREMIUM_FAULTS;
    CheckedConcat(c, checks, RiskChecks(c), faults, RISK_FAULTS);
    checks, faults := checks + RiskChecks(c), faults + RISK_FAULTS;
    CheckedConcat(c, checks, TradeChecks(c), faults, TRADE_FAULTS);
    checks, faults := checks + TradeChecks(c), faults + TRADE_FAULTS;
    CheckedConcat(c, checks, SwitchChecks(c), faults, SWITCH_FAULTS);
    checks, faults := checks + SwitchChecks(c), faults + SWITCH_FAULTS;
    CheckedConcat(c, checks, ConductChecks(c), faults, CONDUCT_FAULTS);
    checks, faults := checks + ConductChecks(c), faults + CONDUCT_FAULTS;
    CheckedConcat(c, checks, SessionChecks(c), faults, SESSION_FAULTS);
    checks, faults := checks + SessionChecks(c), faults + SESSION_FAULTS;
    CheckedConcat(c, checks, AccountChecks(c), faults, ACCOUNT_FAULTS);
    checks, faults := checks + AccountChecks(c), faults + ACCOUNT_FAULTS;
    CheckedConcat(c, checks, StageChecks(c), faults, STAGE_FAULTS);
  }

  /** Every fault has its place in the order. */
  lemma FaultIsOrdered(f: ConfigFault)
    ensures f in ORDERED
  {
    FaultIsGrouped(f);
    hide CAPITAL_FAULTS, PREMIUM_FAULTS, RISK_FAULTS, TRADE_FAULTS, SWITCH_FAULTS, CONDUCT_FAULTS, SESSION_FAULTS;
    hide ACCOUNT_FAULTS, STAGE_FAULTS;
  }

  lemma FaultIsGrouped(f: ConfigFault)
    ensures f in CAPITAL_FAULTS || f in PREMIUM_FAULTS || f in RISK_FAULTS || f in TRADE_FAULTS || f in SWITCH_FAULTS
            || f in CONDUCT_FAULTS || f in SESSION_FAULTS || f in ACCOUNT_FAULTS || f in STAGE_FAULTS
  {
  }

  /** A configuration is safe exactly if it meets every requirement; otherwise the first one it does not meet is reported. */
  lemma SafeIff(c: Config)
    ensures Safe(c) <==> forall f :: Meets(c, f)
    ensures ValidateSafetyConfig(c).Some? ==>
              exists i :: 0 <= i < |ORDERED| && ValidateSafetyConfig(c) == Some(ORDERED[i]) && !Meets(c, ORDERED[i])
                          && forall j :: 0 <= j < i ==> Meets(c, ORDERED[j])
  {
    hide Checks, Meets, ORDERED;
    AllChecked(c);
    var checks := Checks(c);
    if Safe(c) {
      forall f ensures Meets(c, f) {
        FaultIsOrdered(f);
        var i :| 0 <= i < |ORDERED| && ORDERED[i] == f;
        assert checks[i].0;
      }
    } else {
      var i :| 0 <= i < |checks| && checks[i] == (false, ValidateSafetyConfig(c).value) && forall j :: 0 <= j < i ==> checks[j].0;
      assert !Meets(c, ORDERED[i]);
    }
  }

  /** What every accepted configuration guarantees to the code behind the guard. */
  lemma HardCeilings(c: Config)
    requires Safe(c)
    ensures c.approvedStage == Some(1) || c.approvedStage == Some(2)
    ensures c.maxDeployableCapital.Some? && c.maxDeployableCapital.value <= 300.0
    ensures c.firstStageMaxPremium.Some? && c.firstStageMaxPremium.value <= 75.0
    ensures c.secondStageMaxPremium.Some? && c.secondStageMaxPremium.value <= 120.0
    ensures c.absoluteMaxPremium.Some? && c.absoluteMaxPremium.value <= 120.0
    ensures c.firstStageTradeCount == Some(5) && c.maxContracts == Some(1) && c.maxDailyEntries == Some(1)
    ensures c.equityKillThreshold.Some? && 225.0 <= c.equityKillThreshold.value
    ensures c.maxConsecutiveLosses.Some? && c.maxConsecutiveLosses.value <= 3.0
    ensures c.minimumDte.Some? && 7.0 <= c.minimumDte.value && c.maximumDte.Some? && c.maximumDte.value <= 21.0
    ensures c.friction.Some? && FrictionValid(c.friction.value)
    ensures c.allowedPositions <= {"LONG_CALL", "LONG_PUT"}
  {
    SafeIsGroups(c);
    CapitalHolds(c);
    PremiumHolds(c);
    RiskHolds(c);
    TradeHolds(c);
    StageHolds(c);
    hide Safe, Holds;
  }

  predicate Holds(checks: seq<(bool, ConfigFault)>) {
    forall i :: 0 <= i < |checks| ==> checks[i].0
  }

  lemma HoldsConcat(a: seq<(bool, ConfigFault)>, b: seq<(bool, ConfigFault)>)
    ensures Holds(a + b) <==> Holds(a) && Holds(b)
  {
    if Holds(a + b) {
      forall i | 0 <= i < |a| ensures a[i].0 { assert (a + b)[i] == a[i]; }
      forall i | 0 <= i < |b| ensures b[i].0 { assert (a + b)[|a| + i] == b[i]; }
    }
  }

  lemma SafeIsGroups(c: Config)
    ensures Safe(c) <==>
              && Holds(CapitalChecks(c)) && Holds(PremiumChecks(c)) && Holds(RiskChecks(c)) && Holds(TradeChecks(c)) && Holds(SwitchChecks(c))
              && Holds(ConductChecks(c)) && Holds(SessionChecks(c)) && Holds(AccountChecks(c)) && Holds(StageChecks(c))
  {
    hide CapitalChecks, PremiumChecks, RiskChecks, TradeChecks, SwitchChecks, ConductChecks, SessionChecks, AccountChecks, StageChecks;
    var checks := CapitalChecks(c);
    HoldsConcat(checks, PremiumChecks(c));
    checks := checks + PremiumChecks(c);
    HoldsConcat(checks, RiskChecks(c));
    checks := checks + RiskChecks(c);
    HoldsConcat(checks, TradeChecks(c));
    checks := checks + TradeChecks(c);
    HoldsConcat(checks, SwitchChecks(c));
    checks := checks + SwitchChecks(c);
    HoldsConcat(checks, ConductChecks(c));
    checks := checks + ConductChecks(c);
    HoldsConcat(checks, SessionChecks(c));
    checks := checks + SessionChecks(c);
    HoldsConcat(checks, AccountChecks(c));
    checks := checks + AccountChecks(c);
    HoldsConcat(checks, StageChecks(c));
    assert Safe(c) <==> Holds(Checks(c));
    hide Holds, Safe;
  }

  lemma CapitalHolds(c: Config)
    requires Holds(CapitalChecks(c))
    ensures c.maxDeployableCapital.Some? && c.maxDeployableCapital.value <= 300.0 && c.firstStageTradeCount == Some(5)
  {
    var checks := CapitalChecks(c);
    assert checks[0].0 && checks[1].0 && checks[2].0 && checks[3].0 && checks[4].0;
  }

  lemma PremiumHolds(c: Config)
    requires Holds(PremiumChecks(c))
    ensures c.firstStageMaxPremium.Some? && c.firstStageMaxPremium.value <= 75.0
    ensures c.secondStageMaxPremium.Some? && c.secondStageMaxPremium.value <= 120.0
    ensures c.absoluteMaxPremium.Some? && c.absoluteMaxPremium.value <= 120.0 && c.maxContracts == Some(1)
  {
    var checks := PremiumChecks(c);
    assert checks[0].0 && checks[1].0 && checks[2].0 && checks[3].0;
  }

  lemma RiskHolds(c: Config)
    requires Holds(RiskChecks(c))
    ensures c.maxDailyEntries == Some(1) && c.equityKillThreshold.Some? && 225.0 <= c.equityKillThreshold.value
    ensures c.maxConsecutiveLosses.Some? && c.maxConsecutiveLosses.value <= 3.0
    ensures c.minimumDte.Some? && 7.0 <= c.minimumDte.value && c.maximumDte.Some? && c.maximumDte.value <= 21.0
  {
    var checks := RiskChecks(c);
    assert checks[0].0 && checks[1].0 && checks[2].0 && checks[3].0 && checks[4].0;
  }

  lemma TradeHolds(c: Config)
    requires Holds(TradeChecks(c))
    ensures c.friction.Some? && FrictionValid(c.friction.value) && c.allowedPositions <= {"LONG_CALL", "LONG_PUT"}
  {
    var checks := TradeChecks(c);
    assert checks[0].0 && checks[1].0 && checks[2].0;
  }

  lemma StageHolds(c: Config)
    requires Holds(StageChecks(c))
    ensures c.approvedStage == Some(1) || c.approvedStage == Some(2)
  {
    var checks := StageChecks(c);
    assert checks[0].0;
  }

  /** What the shadow pipeline forces on its copy of the configuration. */
  function ShadowConfig(c: Config): Config {
    c.(systemMode := Some("SHADOW"), liveEnabled := Some(false), orderToolsEnabled := Some(false))
  }

  predicate LiveRequested(c: Config) {
    c.liveEnabled == Some(true) || c.orderToolsEnabled == Some(true)
  }

  /**
    Forcing shadow mode waives only the two live-capability requirements: a
    configuration is safe exactly when its shadow copy is safe and any live
    capability it asks for runs in live mode on verified quotes.
   */
  lemma ShadowOverride(c: Config)
    ensures Safe(c) <==> Safe(ShadowConfig(c)) && (LiveRequested(c) ==> c.systemMode == Some("LIVE") && c.quoteVerified == Some(true))
  {
    SafeIsGroups(c);
    SafeIsGroups(ShadowConfig(c));
    SameButStage(c);
    LiveStage(c);
    hide Safe, Holds;
    hide CapitalChecks, PremiumChecks, RiskChecks, TradeChecks, SwitchChecks, ConductChecks, SessionChecks, AccountChecks, StageChecks;
  }

  /** The shadow copy differs in no requirement but those of live capability. */
  lemma SameButStage(c: Config)
    ensures var d := ShadowConfig(c);
            && CapitalChecks(c) == CapitalChecks(d) && PremiumChecks(c) == PremiumChecks(d) && RiskChecks(c) == RiskChecks(d)
            && TradeChecks(c) == TradeChecks(d) && SwitchChecks(c) == SwitchChecks(d) && ConductChecks(c) == ConductChecks(d)
            && SessionChecks(c) == SessionChecks(d) && AccountChecks(c) == AccountChecks(d)
  {
  }

  lemma LiveStage(c: Config)
    ensures Holds(StageChecks(c)) <==>
              Holds(StageChecks(ShadowConfig(c))) && (LiveRequested(c) ==> c.systemMode == Some("LIVE") && c.quoteVerified == Some(true))
  {
    StageChecksAre(c);
    StageChecksAre(ShadowConfig(c));
    hide StageChecks, Holds;
  }

  lemma StageChecksAre(c: Config)
    ensures Holds(StageChecks(c)) <==>
              && (c.approvedStage == Some(1) || c.approvedStage == Some(2))
              && (c.approvedStage == Some(2) ==> c.stage2Approved == Some(true) && c.stage2IntegrityPassed == Some(true))
              && (LiveRequested(c) ==> c.systemMode == Some("LIVE") && c.quoteVerified == Some(true))
  {
    var checks := StageChecks(c);
    assert checks[0].0 && checks[1].0 && checks[2].0 && checks[3].0 && checks[4].0 <==> Holds(checks);
  }

  /** The premium ceiling of the approved stage, in dollars. */
  function StageCeiling(c: Config): real
    requires Safe(c)
  {
    HardCeilings(c);
    if c.approvedStage == Some(1) then c.firstStageMaxPremium.value else c.secondStageMaxPremium.value
  }
}
