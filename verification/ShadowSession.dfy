/** One trading day: gated samples drive the runner; what every run of the controller keeps. */
module ShadowSession {
  import opened Common
  import opened SafetyConfig
  import opened TradeManagement
  import opened SessionLog
  import opened SampleGate
  import opened ShadowRunner
  import P = ShadowPipeline

  /** The samples each channel accepted. */
  datatype Samples = Samples(decisions: seq<Sample>, entryQuotes: seq<Sample>, positionQuotes: seq<Sample>) {
    function Of(c: Channel): seq<Sample> {
      match c
      case DECISION_CHANNEL => decisions
      case ENTRY_QUOTE_CHANNEL => entryQuotes
      case POSITION_QUOTE_CHANNEL => positionQuotes
    }

    function With(c: Channel, accepted: seq<Sample>): Samples {
      match c
      case DECISION_CHANNEL => this.(decisions := accepted)
      case ENTRY_QUOTE_CHANNEL => this.(entryQuotes := accepted)
      case POSITION_QUOTE_CHANNEL => this.(positionQuotes := accepted)
    }
  }

  /** The controller as a value. */
  datatype Session = Session(run: Run, samples: Samples)

  const BEGINNING := Session(FRESH, Samples([], [], []))

  /** What can be asked of a controller, with the clock readings of the lines it logs. */
  datatype Op =
    | StartOp(now: int)
    | DecisionOp(id: string, source: Option<Time>, received: Time, snapshot: P.Snapshot, outcome: Outcome, now: int, later: int)
    | EntryOp(id: string, source: Option<Time>, received: Time, ask: Option<real>, timedOut: bool, now: int)
    | PositionOp(id: string, observation: Observation, now: int)
    | FinishOp(why: string, now: int)

  datatype Gated = Passed(session: Session) | Stopped(session: Session, reply: Reply)

  /** A sample that is not accepted ends the session in error, if it can still end. */
  ghost function Gate(s: Session, maximumAge: int, channel: Channel, id: string, source: Option<Time>, received: Time, now: int): Gated
  {
    var accepted := s.samples.Of(channel);
    var verdict := Screen(accepted, maximumAge, id, source, received);
    if verdict == SAMPLE_ACCEPTED then Passed(s.(samples := s.samples.With(channel, Admit(accepted, maximumAge, id, source, received))))
    else
      var (run, reply) := AppendOnly(s.run, SessionLog.Failed(OfSample(verdict, channel, id)), now, Declined);
      Stopped(s.(run := run), reply)
  }

  /** The session and the reply after one request. */
  ghost function Next(s: Session, settings: P.Settings, maximumAge: int, op: Op): (Session, Reply)
  {
    match op
    case StartOp(now) =>
      var (run, reply) := AppendOnly(s.run, Started(settings.pilotMode), now, Done);
      (s.(run := run), reply)
    case DecisionOp(id, source, received, snapshot, outcome, now, later) =>
      var gated := Gate(s, maximumAge, DECISION_CHANNEL, id, source, received, now);
      if gated.Stopped? then (gated.session, gated.reply)
      else
        var (run, reply) := AfterDecision(gated.session.run, snapshot.underlying.symbol, outcome, now, later);
        (gated.session.(run := run), reply)
    case EntryOp(id, source, received, ask, timedOut, now) =>
      var gated := Gate(s, maximumAge, ENTRY_QUOTE_CHANNEL, id, source, received, now);
      if gated.Stopped? then (gated.session, gated.reply)
      else
        var (run, reply) := AfterEntryQuote(gated.session.run, received, ask, timedOut, now);
        (gated.session.(run := run), reply)
    case PositionOp(id, o, now) =>
      var gated := Gate(s, maximumAge, POSITION_QUOTE_CHANNEL, id, o.quoteUpdatedAt, o.observedAt, now);
      if gated.Stopped? then (gated.session, gated.reply)
      else
        var (run, reply) := AfterPosition(gated.session.run, settings, o, now);
        (gated.session.(run := run), reply)
    case FinishOp(why, now) =>
      var (run, reply) := AfterFinish(s.run, why, now);
      (s.(run := run), reply)
  }

  /** The decision in a request is one that the pipeline makes of its snapshot. */
  ghost predicate Genuine(settings: P.Settings, op: Op) {
    op.DecisionOp? && op.outcome.Success? ==> P.Conforms(op.snapshot, settings, op.outcome.value)
  }

  // ------------------------------------------------------------- controller

  class ShadowSessionController {
    const runner: ShadowRunner
    const maximumSampleAge: int
    var gates: map<Channel, ReadOnlySampleGate>

    ghost predicate Valid()
      reads this, runner, runner.recorder, gates.Values
    {
      && runner.Valid()
      && (forall c :: c in gates ==> gates[c].Valid() && gates[c].maximumAge == maximumSampleAge)
      && (forall c, d :: c in gates && d in gates && c != d ==> gates[c] != gates[d])
    }

    ghost function AcceptedBy(c: Channel): seq<Sample>
      reads this, gates.Values
    {
      if c in gates then gates[c].accepted else []
    }

    ghost function Value(): (s: Session)
      reads this, runner, runner.recorder, gates.Values
      {
      Session(runner.Value(),
              Samples(AcceptedBy(DECISION_CHANNEL), AcceptedBy(ENTRY_QUOTE_CHANNEL), AcceptedBy(POSITION_QUOTE_CHANNEL)))
    }

    constructor (settings: P.Settings, maximumSampleAge: int)
      ensures Valid() && fresh(runner) && fresh(runner.recorder) && gates == map[]
      ensures Value() == BEGINNING && runner.settings == settings && this.maximumSampleAge == maximumSampleAge
    {
      runner := new ShadowRunner(settings);
      this.maximumSampleAge := maximumSampleAge;
      gates := map[];
    }

    /** The channel's gate, made on first use. */
    method GateOf(channel: Channel) returns (gate: ReadOnlySampleGate)
      requires Valid()
      modifies this
      ensures Valid() && channel in gates && gates[channel] == gate && Value() == old(Value())
      ensures fresh(gates.Values - old(gates.Values))
    {
      hide ReadOnlySampleGate.Valid;
      if channel !in gates {
        var made := new ReadOnlySampleGate(maximumSampleAge);
        gates := gates[channel := made];
      }
      gate := gates[channel];
    }

    /** Puts one sample to its channel's gate. */
    method Offer(channel: Channel, id: string, source: Option<Time>, received: Time) returns (verdict: SampleReason)
      requires Valid()
      modifies this, gates.Values
      ensures Valid() && fresh(gates.Values - old(gates.Values))
      ensures var accepted := old(Value()).samples.Of(channel);
              && verdict == Screen(accepted, maximumSampleAge, id, source, received)
              && Value() == old(Value()).(samples :=
                   old(Value()).samples.With(channel, Admit(accepted, maximumSampleAge, id, source, received)))
    {
      hide Screen, Admit;
      ghost var before := Value();
      var gate := GateOf(channel);
      assert gate.accepted == before.samples.Of(channel);
      verdict := gate.Evaluate(id, source, received);
      assert forall c :: c in gates && c != channel ==> gates[c] != gate;
    }

    method Screened(channel: Channel, id: string, source: Option<Time>, received: Time, now: int) returns (stopped: Option<Reply>)
      requires Valid()
      modifies this, runner.recorder, gates.Values
      ensures Valid() && fresh(gates.Values - old(gates.Values))
      ensures var g := Gate(old(Value()), maximumSampleAge, channel, id, source, received, now);
              && Value() == g.session
              && (stopped.None? <==> g.Passed?) && (stopped.Some? ==> stopped.value == g.reply)
    {
      ghost var before := Value();
      var verdict := Offer(channel, id, source, received);
      if verdict == SAMPLE_ACCEPTED {
        return None;
      }
      NothingAdmitted(before.samples, maximumSampleAge, channel, id, source, received);
      hide Screen, Admit;
      assert Value() == before;
      var ok := runner.recorder.Append(SessionLog.Failed(OfSample(verdict, channel, id)), now);
      assert Value().samples == before.samples;
      return Some(if ok then Declined else Raised);
    }

    method Start(now: int) returns (reply: Reply)
      requires Valid()
      modifies runner.recorder
      ensures Valid() && (Value(), reply) == Next(old(Value()), runner.settings, maximumSampleAge, StartOp(now))
    {
      ghost var before := Value();
      reply := runner.Start(now);
      assert Value().samples == before.samples;
    }

    method ProcessDecisionSnapshot(id: string, source: Option<Time>, received: Time, snapshot: P.Snapshot, now: int, later: int)
      returns (reply: Reply, ghost outcome: Outcome)
      requires Valid()
      modifies this, runner, runner.recorder, gates.Values
      ensures Valid() && fresh(gates.Values - old(gates.Values))
      ensures var op := DecisionOp(id, source, received, snapshot, outcome, now, later);
              Genuine(runner.settings, op) && (Value(), reply) == Next(old(Value()), runner.settings, maximumSampleAge, op)
    {
      hide P.Conforms, AfterDecision, Screen, Admit;
      outcome := Failure(P.DivisionByZero);
      var stopped := Screened(DECISION_CHANNEL, id, source, received, now);
      if stopped.Some? {
        return stopped.value, outcome;
      }
      ghost var passed := Value();
      reply, outcome := runner.Evaluate(snapshot, now, later);
      assert Value().samples == passed.samples;
    }

    method ProcessEntryQuote(id: string, updatedAt: Option<Time>, received: Time, ask: Option<real>, timedOut: bool, now: int)
      returns (reply: Reply)
      requires Valid()
      modifies this, runner, runner.recorder, gates.Values
      ensures Valid() && fresh(gates.Values - old(gates.Values))
      ensures (Value(), reply) == Next(old(Value()), runner.settings, maximumSampleAge, EntryOp(id, updatedAt, received, ask, timedOut, now))
    {
      hide AfterEntryQuote, Screen, Admit, ReadOnlySampleGate.Valid;
      var stopped := Screened(ENTRY_QUOTE_CHANNEL, id, updatedAt, received, now);
      if stopped.Some? {
        return stopped.value;
      }
      ghost var passed := Value();
      reply := runner.ObserveEntry(received, ask, timedOut, now);
      assert Value().samples == passed.samples;
    }

    method ProcessPositionObservation(id: string, o: Observation, now: int) returns (reply: Reply)
      requires Valid()
      modifies this, runner, runner.recorder, gates.Values
      ensures Valid() && fresh(gates.Values - old(gates.Values))
      ensures (Value(), reply) == Next(old(Value()), runner.settings, maximumSampleAge, PositionOp(id, o, now))
    {
      hide AfterPosition, Screen, Admit, ReadOnlySampleGate.Valid;
      var stopped := Screened(POSITION_QUOTE_CHANNEL, id, o.quoteUpdatedAt, o.observedAt, now);
      if stopped.Some? {
        return stopped.value;
      }
      ghost var passed := Value();
      reply := runner.ObservePosition(o, now);
      assert Value().samples == passed.samples;
    }

    method FinishDay(why: string, now: int) returns (reply: Reply)
      requires Valid()
      modifies runner, runner.recorder
      ensures Valid() && (Value(), reply) == Next(old(Value()), runner.settings, maximumSampleAge, FinishOp(why, now))
    {
      hide AfterFinish;
      ghost var before := Value();
      reply := runner.Finish(why, now);
      assert Value().samples == before.samples;
    }
  }

  // -------------------------------------------------------------- whole runs

  ghost predicate Coherent(settings: P.Settings, maximumAge: int, s: Session) {
    && Coupled(settings, s.run)
    && forall c: Channel :: Disciplined(s.samples.Of(c), maximumAge)
  }

  /** The session after a sequence of requests. */
  ghost function After(settings: P.Settings, maximumAge: int, ops: seq<Op>): (s: Session)
  {
    if ops == [] then BEGINNING
    else Next(After(settings, maximumAge, ops[..|ops| - 1]), settings, maximumAge, ops[|ops| - 1]).0
  }

  lemma NothingAdmitted(samples: Samples, maximumAge: int, channel: Channel, id: string, source: Option<Time>, received: Time)
    requires Screen(samples.Of(channel), maximumAge, id, source, received) != SAMPLE_ACCEPTED
    ensures samples.With(channel, Admit(samples.Of(channel), maximumAge, id, source, received)) == samples
  {
  }

  lemma GateCoherent(settings: P.Settings, maximumAge: int, s: Session, channel: Channel, id: string, source: Option<Time>,
                     received: Time, now: int)
    requires Coherent(settings, maximumAge, s)
    ensures Coherent(settings, maximumAge, Gate(s, maximumAge, channel, id, source, received, now).session)
  {
    hide Coupled, Disciplined, AppendOnly, Screen, Admit;
    AdmitDisciplined(s.samples.Of(channel), maximumAge, id, source, received);
    var verdict := Screen(s.samples.Of(channel), maximumAge, id, source, received);
    FailureCoupled(settings, s.run, OfSample(verdict, channel, id), now, Declined);
    var after := Gate(s, maximumAge, channel, id, source, received, now).session;
    forall c: Channel ensures Disciplined(after.samples.Of(c), maximumAge) {
      assert Disciplined(s.samples.Of(c), maximumAge);
    }
  }

  lemma NextCoherent(settings: P.Settings, maximumAge: int, s: Session, op: Op)
    requires Coherent(settings, maximumAge, s) && Genuine(settings, op)
    ensures Coherent(settings, maximumAge, Next(s, settings, maximumAge, op).0)
  {
    hide Coupled, Disciplined, AppendOnly, Gate, AfterDecision, AfterEntryQuote, AfterPosition, AfterFinish, P.Conforms;
    match op
    case StartOp(now) => StartCoupled(settings, s.run, now);
    case FinishOp(why, now) => FinishCoupled(settings, s.run, why, now);
    case DecisionOp(id, source, received, snapshot, outcome, now, later) =>
      GateCoherent(settings, maximumAge, s, DECISION_CHANNEL, id, source, received, now);
      var gated := Gate(s, maximumAge, DECISION_CHANNEL, id, source, received, now).session;
      DecisionCoupled(settings, gated.run, snapshot, outcome, now, later);
    case EntryOp(id, source, received, ask, timedOut, now) =>
      GateCoherent(settings, maximumAge, s, ENTRY_QUOTE_CHANNEL, id, source, received, now);
      var gated := Gate(s, maximumAge, ENTRY_QUOTE_CHANNEL, id, source, received, now).session;
      EntryQuoteCoupled(settings, gated.run, received, ask, timedOut, now);
    case PositionOp(id, o, now) =>
      GateCoherent(settings, maximumAge, s, POSITION_QUOTE_CHANNEL, id, o.quoteUpdatedAt, o.observedAt, now);
      var gated := Gate(s, maximumAge, POSITION_QUOTE_CHANNEL, id, o.quoteUpdatedAt, o.observedAt, now).session;
      PositionCoupled(settings, gated.run, o, now);
  }

  /**
    Every run keeps the coupling between runner, recorder and gates: whatever is
    asked, in whatever order, the log is sound, the runner's limit and fill agree
    with it, and each channel's accepted samples are disciplined.
   */
  lemma {:induction false} RunsAreCoherent(settings: P.Settings, maximumAge: int, ops: seq<Op>)
    requires forall op :: op in ops ==> Genuine(settings, op)
    ensures Coherent(settings, maximumAge, After(settings, maximumAge, ops))
  {
    if ops == [] {
      assert Coupled(settings, FRESH);
    } else {
      RunsAreCoherent(settings, maximumAge, ops[..|ops| - 1]);
      hide Coherent, Next;
      NextCoherent(settings, maximumAge, After(settings, maximumAge, ops[..|ops| - 1]), ops[|ops| - 1]);
    }
  }

  lemma CoupledHoldings(settings: P.Settings, r: Run)
    requires Coupled(settings, r)
    ensures r.pending.Some? ==> Bounded(settings.config, r.pending.value)
    ensures r.fill.Some? ==> Bounded(settings.config, r.fill.value)
  {
    SoundIsPriced(settings, r.log);
    hide Sound, Bounded;
  }

  /**
    What the runner holds in each state of a run. A failed session holds nothing
    exactly when it never worked a limit; the limit is left over exactly when no fill
    of it was logged.
   */
  lemma HoldingsOverRuns(settings: P.Settings, maximumAge: int, ops: seq<Op>)
    requires forall op :: op in ops ==> Genuine(settings, op)
    ensures var r := After(settings, maximumAge, ops).run;
            && (r.state in {NEW, OBSERVING, COMPLETE} ==> r.pending.None? && r.fill.None? && r.filledAt.None?)
            && (r.state == ENTRY_PENDING ==> r.pending.Some? && 0.0 < r.pending.value && r.fill.None? && r.filledAt.None?)
            && (r.state == POSITION_OPEN ==> r.fill.Some? && 0.0 < r.fill.value && r.filledAt.Some? && r.pending.None?)
            && (r.pending.Some? ==> Bounded(settings.config, r.pending.value))
            && (r.fill.Some? ==> Bounded(settings.config, r.fill.value))
    ensures var r := After(settings, maximumAge, ops).run;
            var limits, fills := Count(r.log, ENTRY_WORKING), Count(r.log, ENTRY_FILLED);
            r.state == ERROR ==>
              && (r.pending.None? && r.fill.None? <==> limits == 0)
              && (r.pending.Some? <==> limits == 1 && fills == 0)
              && (r.fill.Some? <==> fills == 1 || Doubled(r))
              && (r.pending.Some? ==> r.pending == LimitIn(r.log)) && (r.fill.Some? ==> r.fill == LimitIn(r.log))
  {
    hide After, Genuine, Disciplined;
    RunsAreCoherent(settings, maximumAge, ops);
    var r := After(settings, maximumAge, ops).run;
    CoupledHoldings(settings, r);
    CoupledCounts(settings, r);
    hide Sound, Replay, Due, Count, LimitIn, FillIn, Bounded;
  }

  lemma CoupledCounts(settings: P.Settings, r: Run)
    requires Coupled(settings, r)
    ensures LimitIn(r.log).Some? <==> Count(r.log, ENTRY_WORKING) == 1
    ensures FillIn(r.log).Some? <==> Count(r.log, ENTRY_FILLED) == 1
    ensures Count(r.log, ENTRY_FILLED) <= Count(r.log, ENTRY_WORKING) <= 1
  {
    SoundIsPriced(settings, r.log);
    ReplayCounted(r.log);
    hide Sound, Replay, Due, Count, LimitIn, FillIn;
  }

  // -------------------------------------------- limit and fill side by side

  /** An accepted entry quote meets a limit that an error left over. */
  ghost predicate Meets(s: Session, maximumAge: int, op: Op) {
    && op.EntryOp? && s.run.state == ERROR && s.run.pending.Some?
    && Screen(s.samples.entryQuotes, maximumAge, op.id, op.source, op.received) == SAMPLE_ACCEPTED
    && ShadowEntryFilled(op.ask, s.run.pending.value)
  }

  lemma GateDoubles(s: Session, maximumAge: int, channel: Channel, id: string, source: Option<Time>, received: Time, now: int)
    ensures Doubled(Gate(s, maximumAge, channel, id, source, received, now).session.run) <==> Doubled(s.run)
    ensures var gated := Gate(s, maximumAge, channel, id, source, received, now);
            && (gated.Passed? <==> Screen(s.samples.Of(channel), maximumAge, id, source, received) == SAMPLE_ACCEPTED)
            && (gated.Passed? ==> gated.session.run == s.run)
  {
    hide Screen, Admit;
    AppendDoubles(s.run, SessionLog.Failed(OfSample(Screen(s.samples.Of(channel), maximumAge, id, source, received), channel, id)), now, Declined);
  }

  /** One request brings limit and fill together exactly when it is such a quote; nothing parts them again. */
  lemma NextDoubles(settings: P.Settings, maximumAge: int, s: Session, op: Op)
    requires Coherent(settings, maximumAge, s)
    ensures Doubled(Next(s, settings, maximumAge, op).0.run) <==> Doubled(s.run) || Meets(s, maximumAge, op)
  {
    hide Coupled, Disciplined, AppendOnly, Gate, AfterDecision, AfterEntryQuote, AfterPosition, AfterFinish, Screen, Doubled, ShadowEntryFilled;
    match op
    case StartOp(now) => AppendDoubles(s.run, Started(settings.pilotMode), now, Done);
    case FinishOp(why, now) => FinishDoubles(settings, s.run, why, now);
    case DecisionOp(id, source, received, snapshot, outcome, now, later) =>
      GateDoubles(s, maximumAge, DECISION_CHANNEL, id, source, received, now);
      DecisionDoubles(settings, s.run, snapshot.underlying.symbol, outcome, now, later);
    case EntryOp(id, source, received, ask, timedOut, now) =>
      GateDoubles(s, maximumAge, ENTRY_QUOTE_CHANNEL, id, source, received, now);
      EntryQuoteDoubles(settings, s.run, received, ask, timedOut, now);
    case PositionOp(id, o, now) =>
      GateDoubles(s, maximumAge, POSITION_QUOTE_CHANNEL, id, o.quoteUpdatedAt, o.observedAt, now);
      PositionDoubles(settings, s.run, o, now);
  }

  /** Some request of the run was such a quote. */
  ghost predicate MetLeftover(settings: P.Settings, maximumAge: int, ops: seq<Op>) {
    exists i :: 0 <= i < |ops| && Meets(After(settings, maximumAge, ops[..i]), maximumAge, ops[i])
  }

  lemma MetStep(settings: P.Settings, maximumAge: int, ops: seq<Op>)
    requires ops != []
    ensures MetLeftover(settings, maximumAge, ops) <==>
              var n := |ops| - 1;
              MetLeftover(settings, maximumAge, ops[..n]) || Meets(After(settings, maximumAge, ops[..n]), maximumAge, ops[n])
  {
    hide After, Meets;
    var front := ops[..|ops| - 1];
    assert forall i :: 0 <= i < |front| ==> front[..i] == ops[..i] && front[i] == ops[i];
    if MetLeftover(settings, maximumAge, front) {
      var i :| 0 <= i < |front| && Meets(After(settings, maximumAge, front[..i]), maximumAge, front[i]);
      assert front[..i] == ops[..i];
    }
  }

  /**
    Over any run, limit and fill are held side by side exactly when some request of
    it was an accepted quote that met a limit left over in error.
   */
  lemma {:induction false} LeftoversIff(settings: P.Settings, maximumAge: int, ops: seq<Op>)
    requires forall op :: op in ops ==> Genuine(settings, op)
    ensures Doubled(After(settings, maximumAge, ops).run) <==> MetLeftover(settings, maximumAge, ops)
  {
    hide Doubled, MetLeftover, Meets, Next, Coherent, Genuine;
    if ops == [] {
      NothingMet(settings, maximumAge);
    } else {
      var n := |ops| - 1;
      LeftoversIff(settings, maximumAge, ops[..n]);
      RunsAreCoherent(settings, maximumAge, ops[..n]);
      NextDoubles(settings, maximumAge, After(settings, maximumAge, ops[..n]), ops[n]);
      MetStep(settings, maximumAge, ops);
    }
  }

  lemma NothingMet(settings: P.Settings, maximumAge: int)
    ensures !MetLeftover(settings, maximumAge, []) && !Doubled(After(settings, maximumAge, []).run)
  {
  }

  /**
    The end-to-end bound: whatever a run is asked to do, it trades at most once, and
    an exit it records loses no more than the stage's premium ceiling plus friction.
   */
  lemma LossOverRuns(settings: P.Settings, maximumAge: int, ops: seq<Op>, i: nat)
    requires forall op :: op in ops ==> Genuine(settings, op)
    requires i < |After(settings, maximumAge, ops).run.log| && After(settings, maximumAge, ops).run.log[i].payload.Exited?
    ensures var log := After(settings, maximumAge, ops).run.log;
            && BoundedExit(settings.config, log, i)
            && Count(log, EXITED) == Count(log, ENTRY_FILLED) == Count(log, ENTRY_WORKING) == 1
  {
    RunsAreCoherent(settings, maximumAge, ops);
    var log := After(settings, maximumAge, ops).run.log;
    hide After, Sound, Count, BoundedExit, Genuine, Coherent;
    LoggedSound(settings, maximumAge, ops);
    LossBound(settings, log, i);
    ExitIsUnique(settings, log, i);
  }

  lemma LoggedSound(settings: P.Settings, maximumAge: int, ops: seq<Op>)
    requires Coherent(settings, maximumAge, After(settings, maximumAge, ops))
    ensures Sound(settings, After(settings, maximumAge, ops).run.log)
  {
    hide After, Sound;
  }

  /** Over any run, every position snapshot ever logged is of a position that nothing asked to close. */
  lemma SnapshotsOverRuns(settings: P.Settings, maximumAge: int, ops: seq<Op>, i: nat)
    requires forall op :: op in ops ==> Genuine(settings, op)
    requires i < |After(settings, maximumAge, ops).run.log| && After(settings, maximumAge, ops).run.log[i].payload.Held?
    ensures var log := After(settings, maximumAge, ops).run.log; var r := log[i].payload.record;
            && FillIn(log[..i]).Some? && r.action == HOLD && r.mark.Some? && r.holdingMinutes.Some?
            && 0.80 * FillIn(log[..i]).value < r.mark.value < 1.30 * FillIn(log[..i]).value && r.holdingMinutes.value < 60
            && FreshRecord(settings.policy.maximumQuoteAge, r)
  {
    RunsAreCoherent(settings, maximumAge, ops);
    var log := After(settings, maximumAge, ops).run.log;
    hide After, Sound, Genuine, Coherent, FillIn;
    LoggedSound(settings, maximumAge, ops);
    SnapshotDiscipline(settings, log, i);
  }

  // ------------------------------------------------------- logs only grow

  lemma NextGrows(s: Session, settings: P.Settings, maximumAge: int, op: Op)
    ensures s.run.log <= Next(s, settings, maximumAge, op).0.run.log
    ensures forall c: Channel :: s.samples.Of(c) <= Next(s, settings, maximumAge, op).0.samples.Of(c)
  {
    hide EvaluateExit, ExitInputsOf, Screen;
  }

  /** No later request rewrites a logged line or an accepted sample. */
  lemma {:induction false} LogsOnlyGrow(settings: P.Settings, maximumAge: int, ops: seq<Op>, more: seq<Op>)
    ensures After(settings, maximumAge, ops).run.log <= After(settings, maximumAge, ops + more).run.log
    ensures forall c: Channel :: After(settings, maximumAge, ops).samples.Of(c) <= After(settings, maximumAge, ops + more).samples.Of(c)
  {
    if more == [] {
      assert ops + more == ops;
    } else {
      var n := |more| - 1;
      LogsOnlyGrow(settings, maximumAge, ops, more[..n]);
      assert (ops + more)[..|ops + more| - 1] == ops + more[..n];
      NextGrows(After(settings, maximumAge, ops + more[..n]), settings, maximumAge, more[n]);
      hide Next;
    }
  }

  /** A finished day never reopens. */
  lemma TerminalIsFinal(s: Session, settings: P.Settings, maximumAge: int, op: Op)
    requires (s.run.state == COMPLETE || s.run.state == ERROR)
    ensures Next(s, settings, maximumAge, op).0.run.state == s.run.state
    ensures Next(s, settings, maximumAge, op).0.run.log == s.run.log
  {
    hide EvaluateExit, ExitInputsOf, Screen;
  }
}
