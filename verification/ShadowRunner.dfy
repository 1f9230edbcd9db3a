/** One simulated trade: the runner's state, its log, and how each observation changes both. */
module ShadowRunner {
  import opened Common
  import opened SafetyConfig
  import opened TradeManagement
  import opened SessionLog
  import P = ShadowPipeline

  /** The runner and its recorder, as values. */
  datatype Run = Run(state: SessionState, log: seq<Event>, pending: Option<real>, fill: Option<real>, filledAt: Option<Time>)

  datatype Reply =
    | Raised | Declined | Done
    | Decided(decision: P.Decision) | Observed(filled: bool) | Managed(exit: ExitDecision)

  type Outcome = Result<P.Decision, P.PipelineError>

  datatype Observation = Observation(
    observedAt: Time, quoteUpdatedAt: Option<Time>, bid: Option<real>, mark: Option<real>, vwapStillValid: Option<bool>,
    forceExitDue: bool, emergencyExitDue: bool)

  // ---------------------------------------------------------- specification

  const FRESH := Run(NEW, [], None, None, None)

  function Appended(r: Run, p: Payload, now: int): Option<Run> {
    var next := Transition(r.state, TypeOf(p));
    if next.None? then None
    else Some(r.(state := next.value, log := r.log + [Event(|r.log| + 1, now, p)]))
  }

  /** Appending is the whole step: what it refuses changes nothing. */
  function AppendOnly(r: Run, p: Payload, now: int, reply: Reply): (Run, Reply) {
    var next := Appended(r, p, now);
    if next.None? then (r, Raised) else (next.value, reply)
  }

  function AfterDecision(r: Run, symbol: string, outcome: Outcome, now: int, later: int): (Run, Reply) {
    if outcome.Failure? then (r, Raised)
    else
      var d := outcome.value;
      var recorded := Appended(r, Recorded(d, symbol), now);
      if recorded.None? then (r, Raised)
      else if d.status != P.SIMULATED_ENTRY then (recorded.value, Decided(d))
      else if d.limit.None? then (recorded.value, Raised)
      else AppendOnly(recorded.value.(pending := d.limit), Working(d.limit.value, symbol), later, Decided(d))
  }

  /** The fill is noted before it is logged, so a refused line leaves limit and fill side by side. */
  function AfterEntryQuote(r: Run, observedAt: Time, ask: Option<real>, timedOut: bool, now: int): (Run, Reply) {
    if r.pending.None? then (r, Raised)
    else if ShadowEntryFilled(ask, r.pending.value) then
      var noted := r.(fill := r.pending, filledAt := Some(observedAt));
      var logged := Appended(noted, Filled(r.pending.value, ask), now);
      if logged.None? then (noted, Raised) else (logged.value.(pending := None), Observed(true))
    else if timedOut then
      var logged := Appended(r, Unfilled(SIMULATED_LIMIT_TIMEOUT, ask), now);
      if logged.None? then (r, Raised) else (logged.value.(pending := None), Observed(false))
    else (r, Observed(false))
  }

  function HoldingMinutes(observedAt: Time, filledAt: Time): Option<int> {
    if observedAt.Aware? && filledAt.Aware? && filledAt.us <= observedAt.us then Some((observedAt.us - filledAt.us) / MINUTE) else None
  }

  function QuoteAge(o: Observation): Option<int> {
    if o.quoteUpdatedAt.Some? && o.quoteUpdatedAt.value.Aware? && o.observedAt.Aware?
    then Some(o.observedAt.us - o.quoteUpdatedAt.value.us) else None
  }

  function ExitInputsOf(r: Run, o: Observation, maximumQuoteAge: int): ExitInputs
    requires r.filledAt.Some?
  {
    var holding, age := HoldingMinutes(o.observedAt, r.filledAt.value), QuoteAge(o);
    ExitInputs(r.fill, o.bid, o.mark, holding, o.vwapStillValid, o.forceExitDue, o.emergencyExitDue,
               holding.Some? && age.Some? && 0 <= age.value <= maximumQuoteAge * SECOND)
  }

  function RecordOf(r: Run, o: Observation, exit: ExitDecision): PositionRecord
    requires r.filledAt.Some?
  {
    PositionRecord(o.observedAt, o.quoteUpdatedAt, QuoteAge(o), o.bid, o.mark, HoldingMinutes(o.observedAt, r.filledAt.value),
                   exit.action, exit.reason)
  }

  function AfterPosition(r: Run, s: P.Settings, o: Observation, now: int): (Run, Reply) {
    if r.fill.None? || r.filledAt.None? then (r, Raised)
    else
      var x := ExitInputsOf(r, o, s.policy.maximumQuoteAge);
      var exit := EvaluateExit(x);
      var record := RecordOf(r, o, exit);
      match exit.action
      case HOLD => AppendOnly(r, Held(record), now, Managed(exit))
      case MANUAL_INTERVENTION => AppendOnly(r, SessionLog.Failed(OfExit(exit.reason)), now, Managed(exit))
      case EXIT =>
        if s.config.friction.None? || !FrictionPresent(s.config.friction.value) then (r, Raised)
        else
          var closed := Appended(r, ExitPayload(record, exit.price.value, r.fill.value, ExitFriction(s.config.friction.value)), now);
          if closed.None? then (r, Raised) else (closed.value.(fill := None, filledAt := None), Managed(exit))
  }

  function ExitPayload(record: PositionRecord, price: real, fill: real, friction: real): Payload
    requires fill != 0.0
  {
    var gross := (price - fill) * 100.0;
    Exited(record, price, gross, friction, gross - friction, (price / fill - 1.0) * 100.0)
  }

  function AfterFinish(r: Run, why: string, now: int): (Run, Reply) {
    match r.state
    case OBSERVING => AppendOnly(r, SessionLog.Completed(0, why), now, Done)
    case ENTRY_PENDING =>
      var ended := Appended(r, Unfilled(SESSION_ENDED_WITH_UNFILLED_SIMULATED_ENTRY, None), now);
      if ended.None? then (r, Raised) else (ended.value.(pending := None), Done)
    case COMPLETE => (r, Done)
    case ERROR => (r, Done)
    case _ => (r, Raised)
  }

  // ----------------------------------------------------------------- runner

  class ShadowRunner {
    const recorder: ShadowSessionRecorder
    const settings: P.Settings
    var pendingLimitPrice: Option<real>
    var entryFillPrice: Option<real>
    var entryFilledAt: Option<Time>

    ghost predicate Valid()
      reads recorder
    {
      recorder.sequence == |recorder.log|
    }

    ghost function Value(): Run
      reads this, recorder
    {
      Run(recorder.state, recorder.log, pendingLimitPrice, entryFillPrice, entryFilledAt)
    }

    constructor (settings: P.Settings)
      ensures Valid() && fresh(recorder) && Value() == FRESH && this.settings == settings
    {
      this.settings := settings;
      recorder := new ShadowSessionRecorder();
      pendingLimitPrice, entryFillPrice, entryFilledAt := None, None, None;
    }

    method Start(now: int) returns (reply: Reply)
      requires Valid()
      modifies recorder
      ensures Valid() && (Value(), reply) == AppendOnly(old(Value()), Started(settings.pilotMode), now, Done)
    {
      var ok := recorder.Append(Started(settings.pilotMode), now);
      reply := if ok then Done else Raised;
    }

    method Evaluate(x: P.Snapshot, now: int, later: int) returns (reply: Reply, ghost outcome: Outcome)
      requires Valid()
      modifies this, recorder
      ensures Valid() && (outcome.Success? ==> P.Conforms(x, settings, outcome.value))
      ensures (Value(), reply) == AfterDecision(old(Value()), x.underlying.symbol, outcome, now, later)
    {
      hide P.Conforms, P.Incomparable, P.Undivided;
      var made := P.EvaluateShadowCandidate(x, settings);
      outcome := made;
      if made.Failure? {
        return Raised, outcome;
      }
      var decision := made.value;
      var recorded := recorder.Append(Recorded(decision, x.underlying.symbol), now);
      if !recorded {
        return Raised, outcome;
      }
      if decision.status == P.SIMULATED_ENTRY {
        if decision.limit.None? {
          return Raised, outcome;
        }
        pendingLimitPrice := decision.limit;
        var working := recorder.Append(Working(pendingLimitPrice.value, x.underlying.symbol), later);
        if !working {
          return Raised, outcome;
        }
      }
      return Decided(decision), outcome;
    }

    method ObserveEntry(observedAt: Time, observedAsk: Option<real>, timedOut: bool, now: int) returns (reply: Reply)
      requires Valid()
      modifies this, recorder
      ensures Valid() && (Value(), reply) == AfterEntryQuote(old(Value()), observedAt, observedAsk, timedOut, now)
    {
      if pendingLimitPrice.None? {
        return Raised;
      }
      if ShadowEntryFilled(observedAsk, pendingLimitPrice.value) {
        entryFillPrice := pendingLimitPrice;
        entryFilledAt := Some(observedAt);
        var filled := recorder.Append(Filled(pendingLimitPrice.value, observedAsk), now);
        if !filled {
          return Raised;
        }
        pendingLimitPrice := None;
        return Observed(true);
      }
      if timedOut {
        var unfilled := recorder.Append(Unfilled(SIMULATED_LIMIT_TIMEOUT, observedAsk), now);
        if !unfilled {
          return Raised;
        }
        pendingLimitPrice := None;
      }
      return Observed(false);
    }

    method ObservePosition(o: Observation, now: int) returns (reply: Reply)
      requires Valid()
      modifies this, recorder
      ensures Valid() && (Value(), reply) == AfterPosition(old(Value()), settings, o, now)
    {
      if entryFillPrice.None? || entryFilledAt.None? {
        return Raised;
      }
      var holding := HoldingMinutes(o.observedAt, entryFilledAt.value);
      var age := QuoteAge(o);
      var known := holding.Some? && age.Some? && 0 <= age.value <= settings.policy.maximumQuoteAge * SECOND;
      var exit := EvaluateExit(ExitInputs(entryFillPrice, o.bid, o.mark, holding, o.vwapStillValid, o.forceExitDue,
                                          o.emergencyExitDue, known));
      var record := PositionRecord(o.observedAt, o.quoteUpdatedAt, age, o.bid, o.mark, holding, exit.action, exit.reason);
      var ok;
      match exit.action {
        case HOLD =>
          ok := recorder.Append(Held(record), now);
        case MANUAL_INTERVENTION =>
          ok := recorder.Append(SessionLog.Failed(OfExit(exit.reason)), now);
        case EXIT =>
          var model := settings.config.friction;
          if model.None? || !FrictionPresent(model.value) {
            return Raised;
          }
          ok := recorder.Append(ExitPayload(record, exit.price.value, entryFillPrice.value, ExitFriction(model.value)), now);
          if ok {
            entryFillPrice, entryFilledAt := None, None;
          }
      }
      return if ok then Managed(exit) else Raised;
    }

    method Finish(why: string, now: int) returns (reply: Reply)
      requires Valid()
      modifies this, recorder
      ensures Valid() && (Value(), reply) == AfterFinish(old(Value()), why, now)
    {
      match recorder.state {
        case OBSERVING =>
          var completed := recorder.Append(SessionLog.Completed(0, why), now);
          return Done;
        case ENTRY_PENDING =>
          var ended := recorder.Append(Unfilled(SESSION_ENDED_WITH_UNFILLED_SIMULATED_ENTRY, None), now);
          pendingLimitPrice := None;
          return Done;
        case COMPLETE => return Done;
        case ERROR => return Done;
        case _ => return Raised;
      }
    }
  }

  // ---------------------------------------------------------------- coupling

  /**
    The runner's fields agree with the state of its log. An error leaves what was
    held before it: a logged limit until a fill is logged, and a logged fill. A quote
    that meets a limit left over adds a fill that no line records.
   */
  predicate Holdings(r: Run) {
    && (r.fill.Some? <==> r.filledAt.Some?)
    && match r.state
       case ENTRY_PENDING => r.pending.Some? && r.pending == LimitIn(r.log) && r.fill.None? && FillIn(r.log).None?
       case POSITION_OPEN => r.fill.Some? && r.fill == FillIn(r.log) && r.pending.None?
       case ERROR =>
         && r.pending == (if FillIn(r.log).None? then LimitIn(r.log) else None)
         && (FillIn(r.log).Some? ==> r.fill == FillIn(r.log) && FillIn(r.log) == LimitIn(r.log))
         && (FillIn(r.log).None? && r.fill.Some? ==> r.fill == r.pending)
       case COMPLETE => r.pending.None? && r.fill.None?
       case _ => r.pending.None? && r.fill.None? && LimitIn(r.log).None? && FillIn(r.log).None?
  }

  predicate Coupled(s: P.Settings, r: Run) {
    Sound(s, r.log) && Replay(r.log) == Some(r.state) && !Due(r.log) && Holdings(r)
  }

  /** The line that appending `p` would add. */
  function LineOf(r: Run, p: Payload, now: int): Event {
    Event(|r.log| + 1, now, p)
  }

  lemma AppendedLine(r: Run, p: Payload, now: int)
    ensures var next := Appended(r, p, now);
            next.Some? ==> next.value.log == r.log + [LineOf(r, p, now)] && Transition(r.state, TypeOf(p)) == Some(next.value.state)
  {
  }

  lemma Extended(log: seq<Event>, e: Event)
    ensures var longer := log + [e]; longer[..|longer| - 1] == log && longer[|longer| - 1] == e
  {
  }

  lemma SoundLonger(s: P.Settings, log: seq<Event>, e: Event)
    requires Sound(s, log) && EventSound(s, log, e)
    ensures Sound(s, log + [e])
  {
    Extended(log, e);
    hide EventSound;
  }

  lemma ReplayLonger(log: seq<Event>, e: Event)
    requires Replay(log).Some?
    ensures Replay(log + [e]) == Transition(Replay(log).value, TypeOf(e.payload))
    ensures Due(log + [e]) <==> e.payload.Recorded? && e.payload.decision.status == P.SIMULATED_ENTRY
  {
    Extended(log, e);
    hide Transition, TypeOf;
  }

  lemma PricesLonger(log: seq<Event>, e: Event)
    ensures LimitIn(log + [e]) == if e.payload.Working? then Some(e.payload.limit) else LimitIn(log)
    ensures FillIn(log + [e]) == if e.payload.Filled? then Some(e.payload.price) else FillIn(log)
  {
    Extended(log, e);
  }

  lemma AppendedSound(s: P.Settings, r: Run, p: Payload, now: int)
    requires Sound(s, r.log) && Replay(r.log) == Some(r.state)
    requires (Due(r.log) <==> p.Working?) && PayloadSound(s, r.log, p)
    ensures var next := Appended(r, p, now);
            next.Some? ==>
              && Sound(s, next.value.log) && Replay(next.value.log) == Some(next.value.state)
              && LimitIn(next.value.log) == (if p.Working? then Some(p.limit) else LimitIn(r.log))
              && FillIn(next.value.log) == (if p.Filled? then Some(p.price) else FillIn(r.log))
              && (Due(next.value.log) <==> p.Recorded? && p.decision.status == P.SIMULATED_ENTRY)
  {
    hide PayloadSound, Transition, TypeOf, Sound, Replay, LimitIn, FillIn, Due;
    if Appended(r, p, now).Some? {
      AppendedLine(r, p, now);
      SoundLonger(s, r.log, LineOf(r, p, now));
      ReplayLonger(r.log, LineOf(r, p, now));
      PricesLonger(r.log, LineOf(r, p, now));
    }
  }

  lemma DecisionCoupled(s: P.Settings, r: Run, x: P.Snapshot, outcome: Outcome, now: int, later: int)
    requires Coupled(s, r) && (outcome.Success? ==> P.Conforms(x, s, outcome.value))
    ensures Coupled(s, AfterDecision(r, x.underlying.symbol, outcome, now, later).0)
  {
    if outcome.Success? {
      DecisionIsSound(x, s, outcome.value);
      hide P.Conforms, Coupled;
      RecordedCoupled(s, r, x.underlying.symbol, outcome.value, now, later);
    }
  }

  lemma RecordedCoupled(s: P.Settings, r: Run, symbol: string, d: P.Decision, now: int, later: int)
    requires Coupled(s, r) && DecisionSound(s, d)
    ensures Coupled(s, AfterDecision(r, symbol, Success(d), now, later).0)
  {
    hide DecisionSound, Sound, Due, LimitIn, FillIn, Replay;
    AppendedSound(s, r, Recorded(d, symbol), now);
    var recorded := Appended(r, Recorded(d, symbol), now);
    if recorded.Some? && d.status == P.SIMULATED_ENTRY {
      DueIs(s, r, symbol, d, now);
      AppendedSound(s, recorded.value.(pending := d.limit), Working(d.limit.value, symbol), later);
    }
  }

  lemma DueIs(s: P.Settings, r: Run, symbol: string, d: P.Decision, now: int)
    requires Appended(r, Recorded(d, symbol), now).Some? && d.status == P.SIMULATED_ENTRY && DecisionSound(s, d)
    ensures d.limit.Some? && PayloadSound(s, Appended(r, Recorded(d, symbol), now).value.log, Working(d.limit.value, symbol))
  {
  }

  lemma DecisionIsSound(x: P.Snapshot, s: P.Settings, d: P.Decision)
    requires P.Conforms(x, s, d)
    ensures DecisionSound(s, d)
  {
    P.PilotMark(x, s, d);
    if d.status == P.SIMULATED_ENTRY {
      P.EntryIsBounded(x, s, d);
    }
    hide P.Conforms, Safe, StageCeiling;
  }

  lemma EntryQuoteCoupled(s: P.Settings, r: Run, observedAt: Time, ask: Option<real>, timedOut: bool, now: int)
    requires Coupled(s, r)
    ensures Coupled(s, AfterEntryQuote(r, observedAt, ask, timedOut, now).0)
  {
    hide Sound, Due, LimitIn, FillIn, Replay;
    if r.pending.Some? {
      if ShadowEntryFilled(ask, r.pending.value) {
        AppendedSound(s, r.(fill := r.pending, filledAt := Some(observedAt)), Filled(r.pending.value, ask), now);
      } else {
        AppendedSound(s, r, Unfilled(SIMULATED_LIMIT_TIMEOUT, ask), now);
      }
    }
  }

  lemma PositionCoupled(s: P.Settings, r: Run, o: Observation, now: int)
    requires Coupled(s, r)
    ensures Coupled(s, AfterPosition(r, s, o, now).0)
  {
    if r.fill.None? || r.state == ERROR {
      NothingToManage(s, r, o, now);
      hide AfterPosition, Coupled;
    } else {
      OpenFill(s, r);
      hide Coupled, EvaluateExit, Bounded, AfterPosition, CanTrade, ExitInputsOf;
      match EvaluateExit(ExitInputsOf(r, o, s.policy.maximumQuoteAge)).action
      case HOLD => HeldCoupled(s, r, o, now);
      case MANUAL_INTERVENTION => ManualCoupled(s, r, o, now);
      case EXIT => ClosedCoupled(s, r, o, now);
    }
  }

  lemma NothingToManage(s: P.Settings, r: Run, o: Observation, now: int)
    requires r.fill.None? || r.state == ERROR
    ensures AfterPosition(r, s, o, now).0 == r
  {
    if r.fill.Some? && r.filledAt.Some? {
      ExitIff(ExitInputsOf(r, o, s.policy.maximumQuoteAge));
      hide EvaluateExit;
    }
  }

  lemma ManualCoupled(s: P.Settings, r: Run, o: Observation, now: int)
    requires Coupled(s, r) && r.fill.Some? && r.state == POSITION_OPEN
    requires EvaluateExit(ExitInputsOf(r, o, s.policy.maximumQuoteAge)).action == MANUAL_INTERVENTION
    ensures Coupled(s, AfterPosition(r, s, o, now).0)
  {
    var exit := EvaluateExit(ExitInputsOf(r, o, s.policy.maximumQuoteAge));
    FailureCoupled(s, r, OfExit(exit.reason), now, Managed(exit));
    hide Coupled, EvaluateExit, AppendOnly;
  }

  lemma HeldCoupled(s: P.Settings, r: Run, o: Observation, now: int)
    requires Coupled(s, r) && r.fill.Some? && r.state == POSITION_OPEN
    requires EvaluateExit(ExitInputsOf(r, o, s.policy.maximumQuoteAge)).action == HOLD
    ensures Coupled(s, AfterPosition(r, s, o, now).0)
  {
    hide EvaluateExit, Sound, Due, FillIn, LimitIn, Replay, PayloadSound, RecordOf;
    HeldLineSound(s, r, o);
    AppendedSound(s, r, Held(RecordOf(r, o, EvaluateExit(ExitInputsOf(r, o, s.policy.maximumQuoteAge)))), now);
  }

  lemma HeldLineSound(s: P.Settings, r: Run, o: Observation)
    requires r.filledAt.Some? && r.fill.Some? && FillIn(r.log) == r.fill
    requires EvaluateExit(ExitInputsOf(r, o, s.policy.maximumQuoteAge)).action == HOLD
    ensures PayloadSound(s, r.log, Held(RecordOf(r, o, EvaluateExit(ExitInputsOf(r, o, s.policy.maximumQuoteAge)))))
  {
    ExitIff(ExitInputsOf(r, o, s.policy.maximumQuoteAge));
    hide EvaluateExit, FillIn;
  }

  /** The log line of an exit. */
  function ExitLine(s: P.Settings, r: Run, o: Observation): Payload
    requires r.filledAt.Some? && r.fill.Some? && s.config.friction.Some? && FrictionPresent(s.config.friction.value)
    requires EvaluateExit(ExitInputsOf(r, o, s.policy.maximumQuoteAge)).action == EXIT
  {
    var exit := EvaluateExit(ExitInputsOf(r, o, s.policy.maximumQuoteAge));
    ExitPayload(RecordOf(r, o, exit), exit.price.value, r.fill.value, ExitFriction(s.config.friction.value))
  }

  lemma ReturnIsGrossOverFill(price: real, fill: real)
    requires fill != 0.0
    ensures (price / fill - 1.0) * 100.0 * fill == (price - fill) * 100.0
  {
    var q := price / fill;
    assert q * fill == price;
  }

  lemma ExitLineSound(s: P.Settings, r: Run, o: Observation)
    requires r.filledAt.Some? && r.fill.Some? && FillIn(r.log) == r.fill && CanTrade(s.config)
    requires EvaluateExit(ExitInputsOf(r, o, s.policy.maximumQuoteAge)).action == EXIT
    ensures s.config.friction.Some? && FrictionPresent(s.config.friction.value)
    ensures PayloadSound(s, r.log, ExitLine(s, r, o)) && ExitLine(s, r, o).Exited?
  {
    ExitIff(ExitInputsOf(r, o, s.policy.maximumQuoteAge));
    FrictionKnown(s.config);
    hide EvaluateExit, Safe, Friction, ExitFriction, FillIn;
    ReturnIsGrossOverFill(EvaluateExit(ExitInputsOf(r, o, s.policy.maximumQuoteAge)).price.value, r.fill.value);
  }

  lemma ClosedCoupled(s: P.Settings, r: Run, o: Observation, now: int)
    requires Coupled(s, r) && r.fill.Some? && r.state == POSITION_OPEN && FillIn(r.log) == r.fill && CanTrade(s.config)
    requires EvaluateExit(ExitInputsOf(r, o, s.policy.maximumQuoteAge)).action == EXIT
    ensures Coupled(s, AfterPosition(r, s, o, now).0)
  {
    ExitLineSound(s, r, o);
    var p := ExitLine(s, r, o);
    hide EvaluateExit, Sound, Due, FillIn, LimitIn, Replay, Safe, ExitFriction, PayloadSound, ExitPayload, CanTrade, RecordOf;
    AppendedSound(s, r, p, now);
  }

  lemma FrictionKnown(config: Config)
    requires CanTrade(config)
    ensures config.friction.Some? && FrictionPresent(config.friction.value)
    ensures ExitFriction(config.friction.value) == Friction(config)
  {
    HardCeilings(ShadowConfig(config));
    hide Safe;
  }

  /** Outside an error a fill is an open position at an affordable price. */
  lemma OpenFill(s: P.Settings, r: Run)
    requires Coupled(s, r) && r.fill.Some? && r.state != ERROR
    ensures r.state == POSITION_OPEN && FillIn(r.log) == r.fill && CanTrade(s.config)
  {
    SoundIsPriced(s, r.log);
    hide Sound, Bounded;
  }

  lemma FinishCoupled(s: P.Settings, r: Run, why: string, now: int)
    requires Coupled(s, r)
    ensures Coupled(s, AfterFinish(r, why, now).0)
  {
    hide Sound, Due, LimitIn, FillIn, Replay;
    AppendedSound(s, r, SessionLog.Completed(0, why), now);
    AppendedSound(s, r, Unfilled(SESSION_ENDED_WITH_UNFILLED_SIMULATED_ENTRY, None), now);
  }

  lemma StartCoupled(s: P.Settings, r: Run, now: int)
    requires Coupled(s, r)
    ensures Coupled(s, AppendOnly(r, Started(s.pilotMode), now, Done).0)
  {
    hide Sound, Due, LimitIn, FillIn, Replay;
    AppendedSound(s, r, Started(s.pilotMode), now);
  }

  lemma FailureCoupled(s: P.Settings, r: Run, error: ErrorReason, now: int, reply: Reply)
    requires Coupled(s, r)
    ensures Coupled(s, AppendOnly(r, SessionLog.Failed(error), now, reply).0)
  {
    hide Sound, Due, LimitIn, FillIn, Replay, PayloadSound;
    OpenIsPriced(s, r);
    FailureIsSound(s, r.log, error);
    AppendedSound(s, r, SessionLog.Failed(error), now);
  }

  lemma FailureIsSound(s: P.Settings, log: seq<Event>, error: ErrorReason)
    ensures PayloadSound(s, log, SessionLog.Failed(error))
  {
    hide DecisionSound, HeldSound, ExitSound, FreshRecord;
  }

  // ------------------------------------------------------- limit and fill both

  /** A working limit and a fill are held side by side. */
  predicate Doubled(r: Run) {
    r.pending.Some? && r.fill.Some?
  }

  lemma AppendDoubles(r: Run, p: Payload, now: int, reply: Reply)
    ensures Doubled(AppendOnly(r, p, now, reply).0) <==> Doubled(r)
  {
  }

  lemma DecisionDoubles(s: P.Settings, r: Run, symbol: string, outcome: Outcome, now: int, later: int)
    requires Coupled(s, r)
    ensures Doubled(AfterDecision(r, symbol, outcome, now, later).0) <==> Doubled(r)
  {
    hide Sound, Replay, Due, LimitIn, FillIn;
  }

  /** A quote makes them coexist exactly when it meets a limit left over in error. */
  lemma EntryQuoteDoubles(s: P.Settings, r: Run, observedAt: Time, ask: Option<real>, timedOut: bool, now: int)
    requires Coupled(s, r)
    ensures Doubled(AfterEntryQuote(r, observedAt, ask, timedOut, now).0) <==>
              Doubled(r) || (r.state == ERROR && r.pending.Some? && ShadowEntryFilled(ask, r.pending.value))
  {
    hide Sound, Replay, Due, LimitIn, FillIn;
  }

  lemma PositionDoubles(s: P.Settings, r: Run, o: Observation, now: int)
    requires Coupled(s, r)
    ensures Doubled(AfterPosition(r, s, o, now).0) <==> Doubled(r)
  {
    if r.fill.None? || r.state == ERROR {
      NothingToManage(s, r, o, now);
      hide AfterPosition, Coupled;
    } else {
      hide Sound, Replay, Due, LimitIn, FillIn, EvaluateExit, ExitInputsOf, RecordOf, ExitFriction;
    }
  }

  lemma FinishDoubles(s: P.Settings, r: Run, why: string, now: int)
    requires Coupled(s, r)
    ensures Doubled(AfterFinish(r, why, now).0) <==> Doubled(r)
  {
    hide Sound, Replay, Due, LimitIn, FillIn;
  }

  lemma OpenIsPriced(s: P.Settings, r: Run)
    requires Coupled(s, r)
    ensures FillIn(r.log).Some? ==> FillIn(r.log) == LimitIn(r.log)
  {
    SoundIsPriced(s, r.log);
    hide Sound;
  }
}
