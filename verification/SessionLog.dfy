/** The append-only log of one shadow session, and what a log must look like. */
module SessionLog {
  import opened Common
  import opened SafetyConfig
  import opened TradeManagement
  import P = ShadowPipeline

  datatype EventType =
    | SESSION_STARTED | DECISION_RECORDED | ENTRY_WORKING | ENTRY_FILLED | ENTRY_UNFILLED
    | POSITION_SNAPSHOT | EXITED | SESSION_COMPLETED | SESSION_ERROR

  datatype SessionState = NEW | OBSERVING | ENTRY_PENDING | POSITION_OPEN | COMPLETE | ERROR

  datatype Channel = DECISION_CHANNEL | ENTRY_QUOTE_CHANNEL | POSITION_QUOTE_CHANNEL

  datatype SampleReason =
    | SAMPLE_ID_MISSING | DUPLICATE_SAMPLE | RECEIVED_TIME_NOT_TIMEZONE_AWARE | SOURCE_TIME_UNKNOWN
    | SOURCE_TIME_TOO_FAR_IN_FUTURE | STALE_SAMPLE | OUT_OF_ORDER_SAMPLE | SAMPLE_ACCEPTED

  datatype ErrorReason = OfSample(sample: SampleReason, channel: Channel, id: string) | OfExit(exit: ExitReason)

  datatype UnfilledReason = SIMULATED_LIMIT_TIMEOUT | SESSION_ENDED_WITH_UNFILLED_SIMULATED_ENTRY

  /** What one monitoring cycle of an open position records. */
  datatype PositionRecord = PositionRecord(
    observedAt: Time, quoteUpdatedAt: Option<Time>, quoteAge: Option<int>, bid: Option<real>, mark: Option<real>,
    holdingMinutes: Option<int>, action: ExitAction, reason: ExitReason)

  datatype Payload =
    | Started(pilot: bool)
    | Recorded(decision: P.Decision, symbol: string)
    | Working(limit: real, symbol: string)
    | Filled(price: real, observedAsk: Option<real>)
    | Unfilled(cause: UnfilledReason, lastAsk: Option<real>)
    | Held(record: PositionRecord)
    | Exited(record: PositionRecord, exitPrice: real, gross: real, friction: real, net: real, returnPct: real)
    | Completed(tradeCount: nat, why: string)
    | Failed(error: ErrorReason)

  datatype Event = Event(sequence: int, recordedAt: int, payload: Payload)

  function TypeOf(p: Payload): EventType {
    match p
    case Started(_) => SESSION_STARTED
    case Recorded(_, _) => DECISION_RECORDED
    case Working(_, _) => ENTRY_WORKING
    case Filled(_, _) => ENTRY_FILLED
    case Unfilled(_, _) => ENTRY_UNFILLED
    case Held(_) => POSITION_SNAPSHOT
    case Exited(_, _, _, _, _, _) => EXITED
    case Completed(_, _) => SESSION_COMPLETED
    case Failed(_) => SESSION_ERROR
  }

  /** The states in which each event is allowed, and where it leads. */
  function Transition(state: SessionState, event: EventType): Option<SessionState> {
    match event
    case SESSION_STARTED => if state == NEW then Some(OBSERVING) else None
    case DECISION_RECORDED => if state == OBSERVING then Some(OBSERVING) else None
    case ENTRY_WORKING => if state == OBSERVING then Some(ENTRY_PENDING) else None
    case SESSION_COMPLETED => if state == OBSERVING then Some(COMPLETE) else None
    case ENTRY_FILLED => if state == ENTRY_PENDING then Some(POSITION_OPEN) else None
    case ENTRY_UNFILLED => if state == ENTRY_PENDING then Some(COMPLETE) else None
    case POSITION_SNAPSHOT => if state == POSITION_OPEN then Some(POSITION_OPEN) else None
    case EXITED => if state == POSITION_OPEN then Some(COMPLETE) else None
    case SESSION_ERROR => if state == COMPLETE || state == ERROR then None else Some(ERROR)
  }

  /** The recorder of one session. */
  class ShadowSessionRecorder {
    var state: SessionState
    var sequence: nat
    var log: seq<Event>

    constructor ()
      ensures state == NEW && sequence == 0 && log == []
    {
      state, sequence, log := NEW, 0, [];
    }

    /** Appends one event, or refuses it and changes nothing. */
    method Append(payload: Payload, now: int) returns (ok: bool)
      modifies this
      ensures ok <==> Transition(old(state), TypeOf(payload)).Some?
      ensures ok ==> Transition(old(state), TypeOf(payload)) == Some(state) && sequence == old(sequence) + 1
                     && log == old(log) + [Event(sequence, now, payload)]
      ensures !ok ==> state == old(state) && sequence == old(sequence) && log == old(log)
    {
      var next := Transition(state, TypeOf(payload));
      if next.None? {
        return false;
      }
      var nextSequence := sequence + 1;
      log := log + [Event(nextSequence, now, payload)];
      sequence := nextSequence;
      state := next.value;
      return true;
    }
  }

  // ------------------------------------------------------------ reading logs

  /** The state a log leads to, if every event was allowed. */
  function Replay(log: seq<Event>): Option<SessionState> {
    if log == [] then Some(NEW)
    else
      var before := Replay(log[..|log| - 1]);
      if before.None? then None else Transition(before.value, TypeOf(log[|log| - 1].payload))
  }

  /** The newest working limit. */
  function LimitIn(log: seq<Event>): Option<real> {
    if log == [] then None
    else
      var p := log[|log| - 1].payload;
      if p.Working? then Some(p.limit) else LimitIn(log[..|log| - 1])
  }

  /** The newest fill price. */
  function FillIn(log: seq<Event>): Option<real> {
    if log == [] then None
    else
      var p := log[|log| - 1].payload;
      if p.Filled? then Some(p.price) else FillIn(log[..|log| - 1])
  }

  function Count(log: seq<Event>, kind: EventType): nat {
    if log == [] then 0
    else Count(log[..|log| - 1], kind) + (if TypeOf(log[|log| - 1].payload) == kind then 1 else 0)
  }

  /** The log ends in a decision to enter that has not been worked yet. */
  predicate Due(log: seq<Event>) {
    log != [] && log[|log| - 1].payload.Recorded? && log[|log| - 1].payload.decision.status == P.SIMULATED_ENTRY
  }

  /** Decisions to enter. */
  function Candidates(log: seq<Event>): nat {
    if log == [] then 0 else Candidates(log[..|log| - 1]) + (if Due(log) then 1 else 0)
  }

  /** Net result of the exits, as recorded. */
  function NetIn(log: seq<Event>): real {
    if log == [] then 0.0
    else
      var p := log[|log| - 1].payload;
      NetIn(log[..|log| - 1]) + (if p.Exited? then p.net else 0.0)
  }

  // ------------------------------------------------------------- sound logs

  predicate FrictionPresent(f: FrictionModel) {
    f.perContractFee.Some? && f.regulatoryExitFee.Some? && f.exitSlippageTicks.Some? && f.tickSize.Some?
  }

  /** Round-trip cost of one contract. */
  function ExitFriction(f: FrictionModel): real
    requires FrictionPresent(f)
  {
    var fees := f.perContractFee.value * 2.0 + f.regulatoryExitFee.value;
    fees + f.exitSlippageTicks.value * f.tickSize.value * 100.0
  }

  predicate CanTrade(config: Config) {
    Safe(ShadowConfig(config))
  }

  function Friction(config: Config): real
    requires CanTrade(config)
  {
    HardCeilings(ShadowConfig(config));
    ExitFriction(config.friction.value)
  }

  /** The premium ceiling of the session's approved stage. */
  function Ceiling(config: Config): real
    requires CanTrade(config)
  {
    StageCeiling(ShadowConfig(config))
  }

  /** A price whose contract the approved stage can pay for. */
  predicate Bounded(config: Config, price: real) {
    CanTrade(config) && 0.0 < price && price * 100.0 <= Ceiling(config)
  }

  /** A decision to enter carries an affordable limit; pilot entries, and only they, are marked. */
  predicate DecisionSound(s: P.Settings, d: P.Decision) {
    && (d.status == P.SIMULATED_ENTRY ==> d.limit.Some? && Bounded(s.config, d.limit.value))
    && (P.PILOT_NOT_STRATEGY_EVIDENCE in d.reasons <==> d.status == P.SIMULATED_ENTRY && s.pilotMode)
  }

  /** The position was judged on a quote no older than the policy allows, and not from the future. */
  predicate FreshRecord(maximumQuoteAge: int, r: PositionRecord) {
    && r.observedAt.Aware? && r.quoteUpdatedAt.Some? && r.quoteUpdatedAt.value.Aware?
    && r.quoteAge == Some(r.observedAt.us - r.quoteUpdatedAt.value.us) && 0 <= r.quoteAge.value <= maximumQuoteAge * SECOND
  }

  /** A snapshot of a position that nothing asks to close. */
  predicate HeldSound(fill: real, r: PositionRecord) {
    && r.action == HOLD && r.bid.Some? && r.mark.Some? && r.holdingMinutes.Some?
    && fill * 0.80 < r.mark.value < fill * 1.30 && 0 <= r.holdingMinutes.value < 60
  }

  /** The money of an exit: sold at the observed bid, against the fill, less the friction. */
  predicate ExitSound(config: Config, fill: real, p: Payload)
    requires p.Exited?
  {
    && CanTrade(config) && p.record.action == EXIT && p.record.bid == Some(p.exitPrice) && 0.0 <= p.exitPrice
    && p.gross == (p.exitPrice - fill) * 100.0 && p.friction == Friction(config) && p.net == p.gross - p.friction
    && p.returnPct * fill == p.gross
  }

  predicate PayloadSound(s: P.Settings, before: seq<Event>, p: Payload) {
    match p
    case Started(pilot) => pilot == s.pilotMode
    case Recorded(d, _) => DecisionSound(s, d)
    case Working(limit, symbol) =>
      Due(before) && before[|before| - 1].payload.decision.limit == Some(limit) && before[|before| - 1].payload.symbol == symbol
    case Filled(price, ask) => LimitIn(before) == Some(price) && ask.Some? && 0.0 < ask.value <= price
    case Held(record) => FreshRecord(s.policy.maximumQuoteAge, record) && FillIn(before).Some? && HeldSound(FillIn(before).value, record)
    case Exited(record, _, _, _, _, _) =>
      FreshRecord(s.policy.maximumQuoteAge, record) && FillIn(before).Some? && ExitSound(s.config, FillIn(before).value, p)
    case _ => true
  }

  /** `e` is a legal next line of the log `before`. */
  predicate EventSound(s: P.Settings, before: seq<Event>, e: Event) {
    && e.sequence == |before| + 1
    && Replay(before).Some? && Transition(Replay(before).value, TypeOf(e.payload)).Some?
    && (Due(before) <==> e.payload.Working?)
    && PayloadSound(s, before, e.payload)
  }

  predicate Sound(s: P.Settings, log: seq<Event>) {
    log != [] ==> Sound(s, log[..|log| - 1]) && EventSound(s, log[..|log| - 1], log[|log| - 1])
  }

  lemma {:induction false} SoundPrefix(s: P.Settings, log: seq<Event>, n: nat)
    requires Sound(s, log) && n <= |log|
    ensures Sound(s, log[..n])
  {
    if n < |log| {
      SoundPrefix(s, log[..|log| - 1], n);
      assert log[..|log| - 1][..n] == log[..n];
    } else {
      assert log[..n] == log;
    }
  }

  /** How often each event occurs in a log that leads to each state. */
  ghost predicate Counted(log: seq<Event>, state: SessionState) {
    var entries, fills, exits := Count(log, ENTRY_WORKING), Count(log, ENTRY_FILLED), Count(log, EXITED);
    && exits <= fills <= entries <= 1
    && (state in {NEW, OBSERVING} ==> entries == 0)
    && (state == ENTRY_PENDING ==> entries == 1 && fills == 0)
    && (state == POSITION_OPEN ==> fills == 1 && exits == 0)
    && Count(log, SESSION_ERROR) == (if state == ERROR then 1 else 0)
    && exits + Count(log, ENTRY_UNFILLED) + Count(log, SESSION_COMPLETED) == (if state == COMPLETE then 1 else 0)
    && (exits == 1 ==> state == COMPLETE)
  }

  lemma CountStep(log: seq<Event>, kind: EventType)
    requires log != []
    ensures Count(log, kind)
            == if TypeOf(log[|log| - 1].payload) == kind then Count(log[..|log| - 1], kind) + 1 else Count(log[..|log| - 1], kind)
  {
  }

  lemma CountedStep(log: seq<Event>, before: SessionState, after: SessionState)
    requires log != [] && Counted(log[..|log| - 1], before)
    requires Transition(before, TypeOf(log[|log| - 1].payload)) == Some(after)
    ensures Counted(log, after)
  {
    forall kind ensures Count(log, kind)
                        == if TypeOf(log[|log| - 1].payload) == kind then Count(log[..|log| - 1], kind) + 1 else Count(log[..|log| - 1], kind) {
      CountStep(log, kind);
    }
    hide Count, TypeOf;
  }

  lemma {:induction false} ReplayCounted(log: seq<Event>)
    requires Replay(log).Some?
    ensures Counted(log, Replay(log).value)
    ensures Replay(log).value == NEW <==> log == []
  {
    if log != [] {
      ReplayCounted(log[..|log| - 1]);
      CountedStep(log, Replay(log[..|log| - 1]).value, Replay(log).value);
    }
    hide Transition;
  }

  lemma {:induction false} SoundReplays(s: P.Settings, log: seq<Event>)
    requires Sound(s, log)
    ensures Replay(log).Some?
    ensures forall i :: 0 <= i < |log| ==> log[i].sequence == i + 1
  {
    if log != [] {
      SoundReplays(s, log[..|log| - 1]);
      hide PayloadSound, Due, Transition;
      assert forall i :: 0 <= i < |log| - 1 ==> log[..|log| - 1][i] == log[i];
    }
  }

  /** Every decision to enter is worked at once: the two are equal in number, up to one still due. */
  lemma {:induction false} CandidatesAreWorked(s: P.Settings, log: seq<Event>)
    requires Sound(s, log)
    ensures Candidates(log) == Count(log, ENTRY_WORKING) + (if Due(log) then 1 else 0)
    ensures Due(log) ==> Replay(log) == Some(OBSERVING)
  {
    if log != [] {
      CandidatesAreWorked(s, log[..|log| - 1]);
      hide Sound, PayloadSound;
    }
  }

  /** The limit and the fill a log speaks of. */
  ghost predicate Priced(s: P.Settings, log: seq<Event>) {
    && (LimitIn(log).Some? <==> 0 < Count(log, ENTRY_WORKING)) && (FillIn(log).Some? <==> 0 < Count(log, ENTRY_FILLED))
    && (LimitIn(log).Some? ==> Bounded(s.config, LimitIn(log).value))
    && (FillIn(log).Some? ==> FillIn(log) == LimitIn(log))
  }

  lemma {:induction false} SoundIsPriced(s: P.Settings, log: seq<Event>)
    requires Sound(s, log)
    ensures Priced(s, log)
  {
    if log != [] {
      SoundIsPriced(s, log[..|log| - 1]);
      PricedStep(s, log);
    }
  }

  lemma PricedStep(s: P.Settings, log: seq<Event>)
    requires log != [] && Sound(s, log) && Priced(s, log[..|log| - 1])
    ensures Priced(s, log)
  {
    CountStep(log, ENTRY_WORKING);
    CountStep(log, ENTRY_FILLED);
    NewPrices(s, log);
    hide Sound, Bounded, Count;
  }

  /** A limit or a fill is only ever recorded once, the fill at the limit. */
  lemma NewPrices(s: P.Settings, log: seq<Event>)
    requires log != [] && Sound(s, log)
    ensures var front, last := log[..|log| - 1], log[|log| - 1].payload;
            && (last.Working? ==> Bounded(s.config, last.limit) && Count(front, ENTRY_FILLED) == 0)
            && (last.Filled? ==> LimitIn(front) == Some(last.price))
  {
    var front, last := log[..|log| - 1], log[|log| - 1];
    assert EventSound(s, front, last);
    if last.payload.Working? {
      DueIsBounded(s, front);
      CandidatesAreWorked(s, front);
      ReplayCounted(front);
    }
    hide Sound, Bounded, Replay, Due, Count, DecisionSound, HeldSound, ExitSound, Transition;
  }

  lemma DueIsBounded(s: P.Settings, log: seq<Event>)
    requires Sound(s, log) && Due(log)
    ensures var d := log[|log| - 1].payload.decision; d.limit.Some? && Bounded(s.config, d.limit.value)
  {
    hide Bounded;
  }

  /** A session enters, fills and exits at most once, in that order. */
  lemma AtMostOneTrade(s: P.Settings, log: seq<Event>)
    requires Sound(s, log)
    ensures Count(log, EXITED) <= Count(log, ENTRY_FILLED) <= Count(log, ENTRY_WORKING) <= Candidates(log) <= 1
    ensures Count(log, SESSION_ERROR) + Count(log, EXITED) + Count(log, ENTRY_UNFILLED) + Count(log, SESSION_COMPLETED) <= 1
  {
    SoundReplays(s, log);
    ReplayCounted(log);
    CandidatesAreWorked(s, log);
  }

  /**
    An exit closes the session's only fill, and loses no more than the ceiling of
    the approved stage plus the friction: 75 dollars in stage one, 120 always.
   */
  ghost predicate BoundedExit(config: Config, log: seq<Event>, i: nat)
    requires i < |log| && log[i].payload.Exited?
  {
    && FillIn(log[..i]).Some? && 0.0 < FillIn(log[..i]).value && CanTrade(config)
    && log[i].payload.net >= -Ceiling(config) - Friction(config) && 0.0 <= Friction(config)
    && Ceiling(config) <= 120.0 && (config.approvedStage == Some(1) ==> Ceiling(config) <= 75.0)
  }

  lemma LossBound(s: P.Settings, log: seq<Event>, i: nat)
    requires Sound(s, log) && i < |log| && log[i].payload.Exited?
    ensures BoundedExit(s.config, log, i)
  {
    var p, before := log[i].payload, log[..i];
    SoundPrefix(s, log, i + 1);
    SoundPrefix(s, log, i);
    assert log[..i + 1][..i] == before && log[..i + 1][i] == log[i];
    SoundIsPriced(s, before);
    var fill := FillIn(before).value;
    hide Sound;
    FrictionIsNonnegative(s.config);
    HardCeilings(ShadowConfig(s.config));
    hide Safe, Friction, Replay, Transition, LimitIn, FillIn, Due, Count;
    assert p.gross == (p.exitPrice - fill) * 100.0;
    assert p.gross >= -(fill * 100.0);
  }

  /** A log with an exit has exactly one entry, one fill and one exit. */
  lemma ExitIsUnique(s: P.Settings, log: seq<Event>, i: nat)
    requires Sound(s, log) && i < |log| && log[i].payload.Exited?
    ensures Count(log, EXITED) == Count(log, ENTRY_FILLED) == Count(log, ENTRY_WORKING) == 1
  {
    AtMostOneTrade(s, log);
    OccursIsCounted(log, i);
    hide Sound, Count;
  }

  lemma {:induction false} OccursIsCounted(log: seq<Event>, i: nat)
    requires i < |log|
    ensures 1 <= Count(log, TypeOf(log[i].payload))
  {
    if i < |log| - 1 {
      OccursIsCounted(log[..|log| - 1], i);
    }
  }

  lemma FrictionIsNonnegative(config: Config)
    requires CanTrade(config)
    ensures 0.0 <= Friction(config)
  {
    HardCeilings(ShadowConfig(config));
    hide Safe;
    NonnegativeProduct(config.friction.value.exitSlippageTicks.value, config.friction.value.tickSize.value);
  }

  lemma NonnegativeProduct(x: real, y: real)
    requires 0.0 <= x && 0.0 <= y
    ensures 0.0 <= x * y * 100.0
  {
    assert 0.0 <= x * y;
  }

  /** Every position snapshot is of a position worth holding. */
  lemma SnapshotDiscipline(s: P.Settings, log: seq<Event>, i: nat)
    requires Sound(s, log) && i < |log| && log[i].payload.Held?
    ensures FillIn(log[..i]).Some?
    ensures var r, fill := log[i].payload.record, FillIn(log[..i]).value;
            && r.action == HOLD && r.mark.Some? && r.holdingMinutes.Some?
            && 0.80 * fill < r.mark.value < 1.30 * fill && r.holdingMinutes.value < 60
            && FreshRecord(s.policy.maximumQuoteAge, r)
  {
    SoundPrefix(s, log, i + 1);
    assert log[..i + 1][..i] == log[..i] && log[..i + 1][i] == log[i];
    hide FillIn;
  }
}
