/**
  What each request does to a session, state by state, and how long a position is held:
  the controller's steps told by their effects on limit, fill, log and reply.
 */
module SessionSteps {
  import opened Common
  import opened SafetyConfig
  import opened TradeManagement
  import opened SampleGate
  import opened SessionLog
  import opened ShadowRunner
  import opened ShadowSession
  import P = ShadowPipeline

  /** The log with one more line. */
  function With(log: seq<Event>, now: int, p: Payload): seq<Event> {
    log + [Event(|log| + 1, now, p)]
  }

  // -------------------------------------------------------------- entry quotes

  /** A quote fills a limit: its ask is real and at or under it. */
  predicate Reaches(ask: Option<real>, limit: real) {
    ask.Some? && 0.0 < ask.value && ask.value <= limit
  }

  ghost predicate AcceptedEntry(s: Session, maximumAge: int, op: Op) {
    op.EntryOp? && Screen(s.samples.entryQuotes, maximumAge, op.id, op.source, op.received) == SAMPLE_ACCEPTED
  }

  /**
    An accepted quote on a working limit fills it, ends the session or leaves it: filled
    exactly if the ask reaches the limit, ended exactly if not so and timed out.
   */
  lemma EntryQuoteResolves(settings: P.Settings, maximumAge: int, s: Session, op: Op)
    requires Coherent(settings, maximumAge, s) && s.run.state == ENTRY_PENDING && AcceptedEntry(s, maximumAge, op)
    ensures s.run.pending.Some?
    ensures var t, reply := Next(s, settings, maximumAge, op).0.run, Next(s, settings, maximumAge, op).1;
            var limit, log := s.run.pending.value, s.run.log;
            && (t.state == POSITION_OPEN <==> Reaches(op.ask, limit))
            && (t.state == COMPLETE <==> !Reaches(op.ask, limit) && op.timedOut)
            && (t.state == ENTRY_PENDING <==> !Reaches(op.ask, limit) && !op.timedOut)
            && (t.state == POSITION_OPEN ==>
                  t == Run(POSITION_OPEN, With(log, op.now, Filled(limit, op.ask)), None, Some(limit), Some(op.received)) && reply == Observed(true))
            && (t.state == COMPLETE ==>
                  t == Run(COMPLETE, With(log, op.now, Unfilled(SIMULATED_LIMIT_TIMEOUT, op.ask)), None, None, None) && reply == Observed(false))
            && (t.state == ENTRY_PENDING ==> t == s.run && reply == Observed(false))
  {
    hide Sound, Replay, Due, LimitIn, FillIn, Screen, Disciplined;
    GatePasses(s, maximumAge, ENTRY_QUOTE_CHANNEL, op.id, op.source, op.received, op.now);
    hide Gate;
  }

  /** Without a working limit, or with one left over in error, an accepted quote logs nothing and ends nothing. */
  lemma EntryQuoteElsewhere(settings: P.Settings, maximumAge: int, s: Session, op: Op)
    requires Coherent(settings, maximumAge, s) && s.run.state != ENTRY_PENDING && AcceptedEntry(s, maximumAge, op)
    ensures var t, reply := Next(s, settings, maximumAge, op).0.run, Next(s, settings, maximumAge, op).1;
            && t.state == s.run.state && t.log == s.run.log && t.pending == s.run.pending
            && (s.run.pending.None? ==> t == s.run && reply == Raised)
            && (s.run.pending.Some? && Reaches(op.ask, s.run.pending.value) ==>
                  t.fill == s.run.pending && t.filledAt == Some(op.received) && reply == Raised)
            && (s.run.pending.Some? && !Reaches(op.ask, s.run.pending.value) ==>
                  t == s.run && reply == if op.timedOut then Raised else Observed(false))
  {
    hide Sound, Replay, Due, LimitIn, FillIn, Screen, Disciplined;
    GatePasses(s, maximumAge, ENTRY_QUOTE_CHANNEL, op.id, op.source, op.received, op.now);
    hide Gate;
  }

  lemma GatePasses(s: Session, maximumAge: int, channel: Channel, id: string, source: Option<Time>, received: Time, now: int)
    requires Screen(s.samples.Of(channel), maximumAge, id, source, received) == SAMPLE_ACCEPTED
    ensures var g := Gate(s, maximumAge, channel, id, source, received, now);
            && g.Passed? && g.session.run == s.run
            && g.session.samples.Of(channel) == s.samples.Of(channel) + [Sample(id, source.value.us, received.us)]
            && forall c: Channel :: c != channel ==> g.session.samples.Of(c) == s.samples.Of(c)
    ensures received.Aware? && source.Some? && source.value.Aware?
  {
  }

  // --------------------------------------------------------- rejected samples

  /** The sample a request puts to a gate. */
  datatype Offered = Offered(channel: Channel, id: string, source: Option<Time>, received: Time, now: int)

  function OfferedBy(op: Op): Option<Offered> {
    match op
    case DecisionOp(id, source, received, _, _, now, _) => Some(Offered(DECISION_CHANNEL, id, source, received, now))
    case EntryOp(id, source, received, _, _, now) => Some(Offered(ENTRY_QUOTE_CHANNEL, id, source, received, now))
    case PositionOp(id, o, now) => Some(Offered(POSITION_QUOTE_CHANNEL, id, o.quoteUpdatedAt, o.observedAt, now))
    case _ => None
  }

  /** A rejected sample ends a live session in error with its verdict logged, and does nothing to an ended one. */
  lemma RejectionEndsSession(settings: P.Settings, maximumAge: int, s: Session, op: Op)
    requires OfferedBy(op).Some?
    requires var x := OfferedBy(op).value; Screen(s.samples.Of(x.channel), maximumAge, x.id, x.source, x.received) != SAMPLE_ACCEPTED
    ensures var x := OfferedBy(op).value;
            var verdict := Screen(s.samples.Of(x.channel), maximumAge, x.id, x.source, x.received);
            var t, reply := Next(s, settings, maximumAge, op).0, Next(s, settings, maximumAge, op).1;
            && t.samples == s.samples && t.run.pending == s.run.pending && t.run.fill == s.run.fill && t.run.filledAt == s.run.filledAt
            && (s.run.state in {COMPLETE, ERROR} ==> t.run == s.run && reply == Raised)
            && (s.run.state !in {COMPLETE, ERROR} ==>
                  t.run.state == ERROR && reply == Declined
                  && t.run.log == With(s.run.log, x.now, SessionLog.Failed(OfSample(verdict, x.channel, x.id))))
  {
    hide Screen, Admit, AfterDecision, AfterEntryQuote, AfterPosition;
  }

  // ----------------------------------------------------------------- decisions

  ghost predicate AcceptedDecision(s: Session, maximumAge: int, op: Op) {
    op.DecisionOp? && Screen(s.samples.decisions, maximumAge, op.id, op.source, op.received) == SAMPLE_ACCEPTED
  }

  /** While observing, a decision is logged, and an entry at once works its limit; elsewhere nothing changes. */
  lemma DecisionIsLogged(settings: P.Settings, maximumAge: int, s: Session, op: Op)
    requires Coherent(settings, maximumAge, s) && Genuine(settings, op) && AcceptedDecision(s, maximumAge, op)
    ensures var t, reply := Next(s, settings, maximumAge, op).0.run, Next(s, settings, maximumAge, op).1;
            && (op.outcome.Failure? || s.run.state != OBSERVING ==> t == s.run && reply == Raised)
            && (op.outcome.Success? && s.run.state == OBSERVING ==>
                  var d, symbol := op.outcome.value, op.snapshot.underlying.symbol;
                  var recorded := With(s.run.log, op.now, Recorded(d, symbol));
                  && reply == Decided(d)
                  && (d.status != P.SIMULATED_ENTRY ==> t == s.run.(log := recorded))
                  && (d.status == P.SIMULATED_ENTRY ==>
                        d.limit.Some? && t == Run(ENTRY_PENDING, With(recorded, op.later, Working(d.limit.value, symbol)), d.limit, None, None)))
  {
    hide P.Conforms, Sound, Replay, Due, LimitIn, FillIn, Screen, Disciplined;
    GatePasses(s, maximumAge, DECISION_CHANNEL, op.id, op.source, op.received, op.now);
    hide Gate;
    if op.outcome.Success? {
      DecisionIsSound(op.snapshot, settings, op.outcome.value);
    }
  }

  // --------------------------------------------------------- start and finish

  lemma StartOpens(settings: P.Settings, maximumAge: int, s: Session, now: int)
    ensures var t, reply := Next(s, settings, maximumAge, StartOp(now)).0, Next(s, settings, maximumAge, StartOp(now)).1;
            if s.run.state == NEW
            then t == s.(run := s.run.(state := OBSERVING, log := With(s.run.log, now, Started(settings.pilotMode)))) && reply == Done
            else t == s && reply == Raised
  {
  }

  /** The day ends a session that observes or waits for its limit, and no other. */
  lemma FinishEnds(settings: P.Settings, maximumAge: int, s: Session, why: string, now: int)
    ensures var t, reply := Next(s, settings, maximumAge, FinishOp(why, now)).0.run, Next(s, settings, maximumAge, FinishOp(why, now)).1;
            && (s.run.state == OBSERVING ==>
                  t == s.run.(state := COMPLETE, log := With(s.run.log, now, SessionLog.Completed(0, why))) && reply == Done)
            && (s.run.state == ENTRY_PENDING ==>
                  t == s.run.(state := COMPLETE, pending := None,
                              log := With(s.run.log, now, Unfilled(SESSION_ENDED_WITH_UNFILLED_SIMULATED_ENTRY, None))) && reply == Done)
            && (s.run.state in {COMPLETE, ERROR} ==> t == s.run && reply == Done)
            && (s.run.state in {NEW, POSITION_OPEN} ==> t == s.run && reply == Raised)
  {
  }

  // ----------------------------------------------------------------- positions

  ghost predicate AcceptedPosition(s: Session, maximumAge: int, op: Op) {
    op.PositionOp? && Screen(s.samples.positionQuotes, maximumAge, op.id, op.observation.quoteUpdatedAt, op.observation.observedAt) == SAMPLE_ACCEPTED
  }

  /** Whole minutes between two zoned times, if the second is not before the first. */
  lemma MinutesHeld(observedAt: Time, filledAt: Time, m: int)
    ensures HoldingMinutes(observedAt, filledAt) == Some(m) <==>
              && observedAt.Aware? && filledAt.Aware? && 0 <= m
              && m * 60_000_000 <= observedAt.us - filledAt.us < (m + 1) * 60_000_000
  {
  }

  /** All that an observation has to say is said: two zoned times, a quote of the allowed age, both prices and the state of the underlying. */
  predicate Informed(s: P.Settings, o: Observation, filledAt: Time) {
    && o.observedAt.Aware? && filledAt.Aware? && filledAt.us <= o.observedAt.us
    && o.quoteUpdatedAt.Some? && o.quoteUpdatedAt.value.Aware?
    && 0 <= o.observedAt.us - o.quoteUpdatedAt.value.us <= s.policy.maximumQuoteAge * 1_000_000
    && o.bid.Some? && 0.0 <= o.bid.value && o.mark.Some? && 0.0 <= o.mark.value && o.vwapStillValid.Some?
  }

  /** Something asks for the exit: a flag, the underlying, the price band, or a full hour. */
  predicate Calls(o: Observation, fill: real, filledAt: Time)
    requires o.observedAt.Aware? && filledAt.Aware? && o.mark.Some? && o.vwapStillValid.Some?
  {
    || o.emergencyExitDue || o.forceExitDue || !o.vwapStillValid.value
    || o.mark.value <= fill * 0.80 || fill * 1.30 <= o.mark.value
    || 3_600_000_000 <= o.observedAt.us - filledAt.us
  }

  /** What is recorded of an observation. */
  ghost predicate Records(o: Observation, filledAt: Time, r: PositionRecord)
    requires o.observedAt.Aware? && filledAt.Aware? && o.quoteUpdatedAt.Some? && o.quoteUpdatedAt.value.Aware?
  {
    && r.observedAt == o.observedAt && r.quoteUpdatedAt == o.quoteUpdatedAt && r.bid == o.bid && r.mark == o.mark
    && r.quoteAge == Some(o.observedAt.us - o.quoteUpdatedAt.value.us)
    && r.holdingMinutes.Some?
    && r.holdingMinutes.value * 60_000_000 <= o.observedAt.us - filledAt.us < (r.holdingMinutes.value + 1) * 60_000_000
  }

  /** The money of an exit, by the configuration's own numbers. */
  ghost predicate Pays(f: FrictionModel, fill: real, bid: real, p: Payload)
    requires p.Exited? && FrictionPresent(f)
  {
    && p.exitPrice == bid && p.gross == (bid - fill) * 100.0
    && p.friction == f.perContractFee.value * 2.0 + f.regulatoryExitFee.value + f.exitSlippageTicks.value * f.tickSize.value * 100.0
    && p.net == p.gross - p.friction && p.returnPct * fill == p.gross
  }

  /** Which call is answered when there are several. */
  function CallReason(o: Observation, fill: real): ExitReason
    requires o.mark.Some? && o.vwapStillValid.Some?
  {
    if o.emergencyExitDue then EMERGENCY_TIME_EXIT
    else if o.forceExitDue then FORCED_TIME_EXIT
    else if !o.vwapStillValid.value then UNDERLYING_VWAP_INVALIDATION
    else if o.mark.value <= fill * 0.80 then OPTION_STOP_LOSS
    else if fill * 1.30 <= o.mark.value then OPTION_PROFIT_TARGET
    else MAX_HOLDING_TIME
  }

  /** What is missing, if an observation is not informed. */
  function FaultReason(s: P.Settings, o: Observation, filledAt: Time): ExitReason {
    if o.observedAt.Naive? || filledAt.Naive? || o.observedAt.us < filledAt.us || o.quoteUpdatedAt.None? || o.quoteUpdatedAt.value.Naive?
       || o.observedAt.us < o.quoteUpdatedAt.value.us || s.policy.maximumQuoteAge * 1_000_000 < o.observedAt.us - o.quoteUpdatedAt.value.us
    then POSITION_OR_QUOTE_STATE_UNKNOWN
    else if o.bid.None? || o.mark.None? || o.bid.value < 0.0 || o.mark.value < 0.0 then EXIT_QUOTE_UNKNOWN
    else UNDERLYING_STATE_UNKNOWN
  }

  /**
    The outcome of observing an open position: held exactly if informed and nothing
    calls, sold at the observed bid exactly if informed and something calls, ended in
    error with the fill kept exactly if not informed.
   */
  ghost predicate Resolves(settings: P.Settings, r: Run, o: Observation, now: int, t: Run)
    requires r.fill.Some? && r.filledAt.Some? && o.observedAt.Aware?
    requires settings.config.friction.Some? && FrictionPresent(settings.config.friction.value)
  {
    var fill, filledAt := r.fill.value, r.filledAt.value;
    && (t.state == ERROR <==> !Informed(settings, o, filledAt))
    && (t.state == COMPLETE <==> Informed(settings, o, filledAt) && Calls(o, fill, filledAt))
    && (t.state == POSITION_OPEN <==> Informed(settings, o, filledAt) && !Calls(o, fill, filledAt))
    && |t.log| == |r.log| + 1 && t.pending.None?
    && var p := t.log[|r.log|].payload;
       && t.log == With(r.log, now, p)
       && (t.state == ERROR ==> t.fill == r.fill && t.filledAt == r.filledAt && p == SessionLog.Failed(OfExit(FaultReason(settings, o, filledAt))))
       && (t.state == COMPLETE ==>
             && t.fill.None? && t.filledAt.None?
             && p.Exited? && p.record.action == EXIT && p.record.reason == CallReason(o, fill) && Records(o, filledAt, p.record)
             && Pays(settings.config.friction.value, fill, o.bid.value, p))
       && (t.state == POSITION_OPEN ==>
             && t.fill == r.fill && t.filledAt == r.filledAt
             && p.Held? && p.record.action == HOLD && p.record.reason == NO_EXIT_TRIGGER && Records(o, filledAt, p.record))
  }

  /** So every accepted observation resolves an open position. */
  lemma PositionResolves(settings: P.Settings, maximumAge: int, s: Session, op: Op)
    requires Coherent(settings, maximumAge, s) && s.run.state == POSITION_OPEN && AcceptedPosition(s, maximumAge, op)
    ensures s.run.fill.Some? && s.run.filledAt.Some? && op.observation.observedAt.Aware?
    ensures settings.config.friction.Some? && FrictionPresent(settings.config.friction.value)
    ensures Resolves(settings, s.run, op.observation, op.now, Next(s, settings, maximumAge, op).0.run)
  {
    hide Sound, Replay, Due, LimitIn, FillIn, Screen, Disciplined, Bounded, Resolves, AfterPosition, CanTrade;
    GatePasses(s, maximumAge, POSITION_QUOTE_CHANNEL, op.id, op.observation.quoteUpdatedAt, op.observation.observedAt, op.now);
    hide Gate;
    OpenFill(settings, s.run);
    FrictionKnown(settings.config);
    OpenIsPaid(settings, s.run);
    RunResolves(settings, s.run, op.observation, op.now);
  }

  lemma OpenIsPaid(settings: P.Settings, r: Run)
    requires Coupled(settings, r) && r.state == POSITION_OPEN
    ensures r.fill.Some? && 0.0 < r.fill.value && r.filledAt.Some? && r.pending.None?
  {
    CoupledHoldings(settings, r);
    hide Sound, Replay, Due, LimitIn, FillIn, Ceiling;
  }

  lemma RunResolves(settings: P.Settings, r: Run, o: Observation, now: int)
    requires r.state == POSITION_OPEN && r.fill.Some? && 0.0 < r.fill.value && r.filledAt.Some? && r.pending.None?
    requires o.observedAt.Aware? && settings.config.friction.Some? && FrictionPresent(settings.config.friction.value)
    ensures Resolves(settings, r, o, now, AfterPosition(r, settings, o, now).0)
  {
    hide EvaluateExit, ExitInputsOf, RecordOf, Informed, Calls, Records, Pays, CallReason, FaultReason, ExitPayload, ExitFriction;
    ObservationIsJudged(settings, r, o);
    var exit := EvaluateExit(ExitInputsOf(r, o, settings.policy.maximumQuoteAge));
    RecordIs(settings, r, o, exit);
    if exit.action == EXIT {
      PaysOut(settings.config.friction.value, r.fill.value, o.bid.value, RecordOf(r, o, exit));
    }
  }

  lemma ObservationIsJudged(settings: P.Settings, r: Run, o: Observation)
    requires r.fill.Some? && 0.0 < r.fill.value && r.filledAt.Some? && o.observedAt.Aware?
    ensures var exit := EvaluateExit(ExitInputsOf(r, o, settings.policy.maximumQuoteAge));
            var fill, filledAt := r.fill.value, r.filledAt.value;
            && (exit.action == MANUAL_INTERVENTION <==> !Informed(settings, o, filledAt))
            && (exit.action == EXIT <==> Informed(settings, o, filledAt) && Calls(o, fill, filledAt))
            && (exit.action == HOLD <==> Informed(settings, o, filledAt) && !Calls(o, fill, filledAt))
            && (exit.action == EXIT ==> exit.price == o.bid && o.bid.Some? && exit.reason == CallReason(o, fill))
            && (exit.action == HOLD ==> exit.reason == NO_EXIT_TRIGGER)
            && (exit.action == MANUAL_INTERVENTION ==> exit.reason == FaultReason(settings, o, filledAt))
  {
  }

  lemma RecordIs(settings: P.Settings, r: Run, o: Observation, exit: ExitDecision)
    requires r.filledAt.Some? && o.observedAt.Aware?
    ensures var record := RecordOf(r, o, exit); record.action == exit.action && record.reason == exit.reason
    ensures Informed(settings, o, r.filledAt.value) ==> Records(o, r.filledAt.value, RecordOf(r, o, exit))
  {
    if Informed(settings, o, r.filledAt.value) {
      var m := (o.observedAt.us - r.filledAt.value.us) / 60_000_000;
      MinutesHeld(o.observedAt, r.filledAt.value, m);
    }
  }

  lemma PaysOut(f: FrictionModel, fill: real, bid: real, record: PositionRecord)
    requires FrictionPresent(f) && fill != 0.0
    ensures var p := ExitPayload(record, bid, fill, ExitFriction(f)); p.Exited? && p.record == record && Pays(f, fill, bid, p)
  {
    ReturnIsGrossOverFill(bid, fill);
  }

  /** With no position open an accepted observation changes nothing, and after an error it logs nothing. */
  lemma PositionElsewhere(settings: P.Settings, maximumAge: int, s: Session, op: Op)
    requires Coherent(settings, maximumAge, s) && s.run.state != POSITION_OPEN && AcceptedPosition(s, maximumAge, op)
    ensures Next(s, settings, maximumAge, op).0.run == s.run && Next(s, settings, maximumAge, op).1 == Raised
  {
    hide Sound, Replay, Due, LimitIn, FillIn, Screen, Disciplined, AfterPosition;
    GatePasses(s, maximumAge, POSITION_QUOTE_CHANNEL, op.id, op.observation.quoteUpdatedAt, op.observation.observedAt, op.now);
    hide Gate;
    NothingToManage(settings, s.run, op.observation, op.now);
    NothingIsRaised(settings, s.run, op.observation, op.now);
  }

  lemma NothingIsRaised(settings: P.Settings, r: Run, o: Observation, now: int)
    requires r.fill.None? || r.state == ERROR
    ensures AfterPosition(r, settings, o, now).1 == Raised
  {
    if r.fill.Some? && r.filledAt.Some? {
      ExitIff(ExitInputsOf(r, o, settings.policy.maximumQuoteAge));
      hide EvaluateExit;
    }
  }

  // ------------------------------------------------------- how long it is held

  /** This request filled the limit. */
  ghost predicate FilledBy(settings: P.Settings, maximumAge: int, ops: seq<Op>, j: int) {
    && 0 <= j < |ops| && ops[j].EntryOp?
    && After(settings, maximumAge, ops[..j]).run.state == ENTRY_PENDING
    && After(settings, maximumAge, ops[..j + 1]).run.state == POSITION_OPEN
  }

  lemma FilledFront(settings: P.Settings, maximumAge: int, ops: seq<Op>, j: int)
    requires ops != [] && FilledBy(settings, maximumAge, ops[..|ops| - 1], j)
    ensures FilledBy(settings, maximumAge, ops, j) && ops[j] == ops[..|ops| - 1][j]
  {
    hide After;
    var front := ops[..|ops| - 1];
    assert front[..j] == ops[..j] && front[..j + 1] == ops[..j + 1];
  }

  /** An open position was filled by one of the run's entry quotes, and is dated with its receipt. */
  lemma {:induction false} FilledAtReceipt(settings: P.Settings, maximumAge: int, ops: seq<Op>) returns (j: int)
    requires forall op :: op in ops ==> Genuine(settings, op)
    requires After(settings, maximumAge, ops).run.state == POSITION_OPEN
    ensures FilledBy(settings, maximumAge, ops, j) && After(settings, maximumAge, ops).run.filledAt == Some(ops[j].received)
  {
    hide After, Next, Genuine, Coherent, FilledBy;
    var n := |ops| - 1;
    BeginsNew(settings, maximumAge, ops);
    var s := After(settings, maximumAge, ops[..n]);
    RunsAreCoherent(settings, maximumAge, ops[..n]);
    LastStep(settings, maximumAge, ops);
    OpensOrStays(settings, maximumAge, s, ops[n]);
    if s.run.state == POSITION_OPEN {
      j := FilledAtReceipt(settings, maximumAge, ops[..n]);
      FilledFront(settings, maximumAge, ops, j);
    } else {
      j := n;
      FilledLast(settings, maximumAge, ops);
    }
  }

  lemma FilledLast(settings: P.Settings, maximumAge: int, ops: seq<Op>)
    requires ops != [] && ops[|ops| - 1].EntryOp?
    requires After(settings, maximumAge, ops[..|ops| - 1]).run.state == ENTRY_PENDING && After(settings, maximumAge, ops).run.state == POSITION_OPEN
    ensures FilledBy(settings, maximumAge, ops, |ops| - 1)
  {
    hide After;
    assert ops[..|ops| - 1 + 1] == ops;
  }

  lemma BeginsNew(settings: P.Settings, maximumAge: int, ops: seq<Op>)
    ensures After(settings, maximumAge, ops).run.state == POSITION_OPEN ==> ops != []
  {
  }

  lemma LastStep(settings: P.Settings, maximumAge: int, ops: seq<Op>)
    requires ops != []
    ensures After(settings, maximumAge, ops)
            == Next(After(settings, maximumAge, ops[..|ops| - 1]), settings, maximumAge, ops[|ops| - 1]).0
  {
    hide Next;
  }

  /** A step that leaves a position open opened it, or left its fill alone. */
  lemma OpensOrStays(settings: P.Settings, maximumAge: int, s: Session, op: Op)
    requires Coherent(settings, maximumAge, s) && Genuine(settings, op)
    requires Next(s, settings, maximumAge, op).0.run.state == POSITION_OPEN
    ensures s.run.state == POSITION_OPEN || (s.run.state == ENTRY_PENDING && op.EntryOp?)
    ensures var t := Next(s, settings, maximumAge, op).0.run;
            t.filledAt == if s.run.state == POSITION_OPEN then s.run.filledAt else Some(op.received)
  {
    hide Coherent, Genuine, Next, Resolves;
    match op
    case StartOp(now) => StartOpens(settings, maximumAge, s, now);
    case FinishOp(why, now) => FinishEnds(settings, maximumAge, s, why, now);
    case DecisionOp(id, source, received, _, _, _, _) =>
      if Screen(s.samples.decisions, maximumAge, id, source, received) == SAMPLE_ACCEPTED {
        DecisionIsLogged(settings, maximumAge, s, op);
      } else {
        RejectionEndsSession(settings, maximumAge, s, op);
      }
    case EntryOp(id, source, received, _, _, _) =>
      if Screen(s.samples.entryQuotes, maximumAge, id, source, received) != SAMPLE_ACCEPTED {
        RejectionEndsSession(settings, maximumAge, s, op);
      } else if s.run.state == ENTRY_PENDING {
        EntryQuoteResolves(settings, maximumAge, s, op);
      } else {
        OpenHasNoLimit(settings, maximumAge, s);
        EntryQuoteElsewhere(settings, maximumAge, s, op);
      }
    case PositionOp(id, o, _) =>
      if Screen(s.samples.positionQuotes, maximumAge, id, o.quoteUpdatedAt, o.observedAt) != SAMPLE_ACCEPTED {
        RejectionEndsSession(settings, maximumAge, s, op);
      } else if s.run.state == POSITION_OPEN {
        PositionResolves(settings, maximumAge, s, op);
        ResolvedKeepsFill(settings, s.run, o, op.now, Next(s, settings, maximumAge, op).0.run);
      } else {
        PositionElsewhere(settings, maximumAge, s, op);
      }
  }

  lemma OpenHasNoLimit(settings: P.Settings, maximumAge: int, s: Session)
    requires Coherent(settings, maximumAge, s)
    ensures s.run.state == POSITION_OPEN ==> s.run.pending.None?
  {
    hide Sound, Replay, Due, LimitIn, FillIn, Disciplined;
  }

  lemma ResolvedKeepsFill(settings: P.Settings, r: Run, o: Observation, now: int, t: Run)
    requires r.fill.Some? && r.filledAt.Some? && o.observedAt.Aware?
    requires settings.config.friction.Some? && FrictionPresent(settings.config.friction.value)
    requires Resolves(settings, r, o, now, t)
    ensures t.state == POSITION_OPEN ==> t.filledAt == r.filledAt
  {
    hide Informed, Calls, Records, Pays;
  }

  /**
    Over any run a position is held for less than an hour after the receipt of the quote
    that filled it: whatever observation leaves it open, the line it adds is dated within
    3600 seconds of that receipt.
   */
  lemma HeldUnderAnHour(settings: P.Settings, maximumAge: int, ops: seq<Op>) returns (j: int)
    requires forall op :: op in ops ==> Genuine(settings, op)
    requires ops != [] && ops[|ops| - 1].PositionOp? && After(settings, maximumAge, ops).run.state == POSITION_OPEN
    ensures FilledBy(settings, maximumAge, ops, j) && ops[j].received.Aware?
    ensures var before, log := After(settings, maximumAge, ops[..|ops| - 1]).run.log, After(settings, maximumAge, ops).run.log;
            && |log| == |before| + 1 && before <= log && log[|before|].payload.Held?
            && var at := log[|before|].payload.record.observedAt;
               && at == ops[|ops| - 1].observation.observedAt && at.Aware?
               && 0 <= at.us - ops[j].received.us < 3_600_000_000
  {
    hide After, Next, Genuine, Coherent, FilledBy, Resolves;
    var n := |ops| - 1;
    var s, op := After(settings, maximumAge, ops[..n]), ops[n];
    RunsAreCoherent(settings, maximumAge, ops[..n]);
    LastStep(settings, maximumAge, ops);
    OpensOrStays(settings, maximumAge, s, op);
    j := FilledAtReceipt(settings, maximumAge, ops);
    StillOpenIsAccepted(settings, maximumAge, s, op);
    PositionResolves(settings, maximumAge, s, op);
    OpenIsRecent(settings, s.run, op.observation, op.now, After(settings, maximumAge, ops).run);
  }

  lemma StillOpenIsAccepted(settings: P.Settings, maximumAge: int, s: Session, op: Op)
    requires op.PositionOp? && Next(s, settings, maximumAge, op).0.run.state == POSITION_OPEN
    ensures AcceptedPosition(s, maximumAge, op)
  {
    hide Next;
    if Screen(s.samples.positionQuotes, maximumAge, op.id, op.observation.quoteUpdatedAt, op.observation.observedAt) != SAMPLE_ACCEPTED {
      RejectionEndsSession(settings, maximumAge, s, op);
    }
  }

  lemma OpenIsRecent(settings: P.Settings, r: Run, o: Observation, now: int, t: Run)
    requires r.fill.Some? && r.filledAt.Some? && o.observedAt.Aware?
    requires settings.config.friction.Some? && FrictionPresent(settings.config.friction.value)
    requires Resolves(settings, r, o, now, t) && t.state == POSITION_OPEN
    ensures r.filledAt.value.Aware? && 0 <= o.observedAt.us - r.filledAt.value.us < 3_600_000_000
    ensures |t.log| == |r.log| + 1 && r.log <= t.log && t.log[|r.log|].payload.Held? && t.log[|r.log|].payload.record.observedAt == o.observedAt
    ensures t.filledAt == r.filledAt
  {
  }

  /** And an observation from a full hour on never leaves it open. */
  lemma HourEndsPosition(settings: P.Settings, maximumAge: int, ops: seq<Op>, op: Op)
    requires forall x :: x in ops + [op] ==> Genuine(settings, x)
    requires var r := After(settings, maximumAge, ops).run;
             && r.state == POSITION_OPEN && r.filledAt.Some? && r.filledAt.value.Aware? && op.PositionOp? && op.observation.observedAt.Aware?
             && 3_600_000_000 <= op.observation.observedAt.us - r.filledAt.value.us
    ensures After(settings, maximumAge, ops + [op]).run.state in {COMPLETE, ERROR}
  {
    hide After, Next, Genuine, Coherent, Resolves;
    var s := After(settings, maximumAge, ops);
    assert (ops + [op])[..|ops + [op]| - 1] == ops;
    RunsAreCoherent(settings, maximumAge, ops);
    LastStep(settings, maximumAge, ops + [op]);
    if AcceptedPosition(s, maximumAge, op) {
      PositionResolves(settings, maximumAge, s, op);
      ResolvedStates(settings, s.run, op.observation, op.now, After(settings, maximumAge, ops + [op]).run);
      if After(settings, maximumAge, ops + [op]).run.state == POSITION_OPEN {
        OpenIsRecent(settings, s.run, op.observation, op.now, After(settings, maximumAge, ops + [op]).run);
      }
    } else {
      RejectionEndsSession(settings, maximumAge, s, op);
    }
  }

  lemma ResolvedStates(settings: P.Settings, r: Run, o: Observation, now: int, t: Run)
    requires r.fill.Some? && r.filledAt.Some? && o.observedAt.Aware?
    requires settings.config.friction.Some? && FrictionPresent(settings.config.friction.value)
    requires Resolves(settings, r, o, now, t)
    ensures t.state in {COMPLETE, ERROR, POSITION_OPEN}
  {
    hide Records, Pays;
  }
}
