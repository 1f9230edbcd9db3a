/** From the controller's requests to the reports: what a reader of the stored logs can rely on. */
module ReviewedRuns {
  import opened Common
  import opened LogText
  import opened SampleGate
  import opened SessionLog
  import opened SessionText
  import opened ShadowReview
  import opened ShadowRunner
  import opened ShadowSession
  import opened TradeManagement
  import B = BarSet
  import E = ShadowExperiment
  import P = ShadowPipeline
  import R = Regime
  import Risk = OpeningRisk

  /** One session of a day: its settings, what its log repeats, and everything it was asked. */
  datatype Asked = Asked(settings: P.Settings, maximumSampleAge: int, header: Header, ops: seq<Op>)

  ghost predicate GenuineSession(x: Asked) {
    forall op :: op in x.ops ==> Genuine(x.settings, op)
  }

  ghost predicate AllGenuine(day: seq<Asked>) {
    forall x :: x in day ==> GenuineSession(x)
  }

  ghost function LogOf(x: Asked): seq<Event> {
    After(x.settings, x.maximumSampleAge, x.ops).run.log
  }

  // ------------------------------------------------- what a request has logged

  predicate CanFail(state: SessionState) {
    state != COMPLETE && state != ERROR
  }

  /** The texts that a request to the controller has logged: all of them its caller's. */
  ghost function RequestTexts(s: Session, maximumAge: int, op: Op): seq<string> {
    match op
    case StartOp(_) => []
    case DecisionOp(id, source, received, snapshot, outcome, _, _) =>
      if Screen(s.samples.decisions, maximumAge, id, source, received) != SAMPLE_ACCEPTED
      then if CanFail(s.run.state) then [id] else []
      else if s.run.state == OBSERVING && outcome.Success? then ReasonTexts(outcome.value.reasons) + [snapshot.underlying.symbol] else []
    case EntryOp(id, source, received, _, _, _) =>
      if Screen(s.samples.entryQuotes, maximumAge, id, source, received) != SAMPLE_ACCEPTED && CanFail(s.run.state) then [id] else []
    case PositionOp(id, o, _) =>
      if Screen(s.samples.positionQuotes, maximumAge, id, o.quoteUpdatedAt, o.observedAt) != SAMPLE_ACCEPTED && CanFail(s.run.state)
      then [id] else []
    case FinishOp(why, _) => if s.run.state == OBSERVING then [why] else []
  }

  /** The lines that `after` has behind `before` quote no line separator. */
  ghost predicate AddsUnbroken(before: seq<Event>, after: seq<Event>) {
    before <= after && forall i :: |before| <= i < |after| ==> PayloadUnbroken(after[i].payload)
  }

  lemma AddsNothing(log: seq<Event>)
    ensures AddsUnbroken(log, log)
  {
  }

  lemma AddsLine(before: seq<Event>, log: seq<Event>, e: Event)
    requires before <= log
    ensures AddsUnbroken(before, log + [e]) <==> AddsUnbroken(before, log) && PayloadUnbroken(e.payload)
  {
    hide PayloadUnbroken;
    var longer := log + [e];
    assert forall i :: 0 <= i < |log| ==> longer[i] == log[i];
    assert longer[|log|] == e;
  }

  lemma TextsUnbroken(a: seq<string>, t: string)
    ensures AllUnbroken(a + [t]) <==> AllUnbroken(a) && Unbroken(t)
    ensures AllUnbroken([])
  {
    hide Unbroken;
    assert t in a + [t];
  }

  lemma AppendAdds(r: Run, p: Payload, now: int, reply: Reply)
    ensures var after := AppendOnly(r, p, now, reply).0;
            AddsUnbroken(r.log, after.log) <==> (Transition(r.state, TypeOf(p)).Some? ==> PayloadUnbroken(p))
    ensures r.log <= AppendOnly(r, p, now, reply).0.log
  {
    hide Transition, PayloadUnbroken;
    AddsNothing(r.log);
    AddsLine(r.log, r.log, Event(|r.log| + 1, now, p));
    hide AddsUnbroken;
  }

  lemma DecisionAdds(r: Run, symbol: string, outcome: Outcome, now: int, later: int)
    ensures AddsUnbroken(r.log, AfterDecision(r, symbol, outcome, now, later).0.log) <==>
              (r.state == OBSERVING && outcome.Success? ==> AllUnbroken(ReasonTexts(outcome.value.reasons) + [symbol]))
  {
    hide AllUnbroken, Unbroken, ReasonTexts, AddsUnbroken;
    AddsNothing(r.log);
    if outcome.Success? {
      RecordedAdds(r, symbol, outcome.value, now, later);
    }
  }

  lemma RecordedAdds(r: Run, symbol: string, d: P.Decision, now: int, later: int)
    ensures AddsUnbroken(r.log, AfterDecision(r, symbol, Success(d), now, later).0.log) <==>
              (r.state == OBSERVING ==> AllUnbroken(ReasonTexts(d.reasons) + [symbol]))
  {
    hide AllUnbroken, Unbroken, ReasonTexts, AddsUnbroken;
    AddsNothing(r.log);
    var first := Event(|r.log| + 1, now, Recorded(d, symbol));
    AddsLine(r.log, r.log, first);
    if d.limit.Some? {
      AddsLine(r.log, r.log + [first], Event(|r.log| + 2, later, Working(d.limit.value, symbol)));
      WorkingText(d, symbol);
    }
  }

  /** The working line quotes no more than the decision's own. */
  lemma WorkingText(d: P.Decision, symbol: string)
    requires d.limit.Some?
    ensures PayloadUnbroken(Recorded(d, symbol)) ==> PayloadUnbroken(Working(d.limit.value, symbol))
  {
    TextsUnbroken(ReasonTexts(d.reasons), symbol);
    TextsUnbroken([], symbol);
    hide AllUnbroken, Unbroken, ReasonTexts;
    assert [] + [symbol] == [symbol];
  }

  lemma EntryQuoteAdds(r: Run, observedAt: Time, ask: Option<real>, timedOut: bool, now: int)
    ensures AddsUnbroken(r.log, AfterEntryQuote(r, observedAt, ask, timedOut, now).0.log)
  {
    AddsNothing(r.log);
    TextsUnbroken([], "");
    if r.pending.Some? {
      AddsLine(r.log, r.log, Event(|r.log| + 1, now, Filled(r.pending.value, ask)));
      AddsLine(r.log, r.log, Event(|r.log| + 1, now, Unfilled(SIMULATED_LIMIT_TIMEOUT, ask)));
    }
    hide AddsUnbroken, AllUnbroken;
  }

  lemma PositionAdds(r: Run, s: P.Settings, o: Observation, now: int)
    ensures AddsUnbroken(r.log, AfterPosition(r, s, o, now).0.log)
  {
    AddsNothing(r.log);
    TextsUnbroken([], "");
    hide AllUnbroken, EvaluateExit, ExitInputsOf, RecordOf, ExitFriction;
    var after := AfterPosition(r, s, o, now).0.log;
    if after != r.log {
      assert after == r.log + [after[|r.log|]] && PayloadTexts(after[|r.log|].payload) == [];
      AddsLine(r.log, r.log, after[|r.log|]);
    }
    hide AddsUnbroken;
  }

  lemma FinishAdds(r: Run, why: string, now: int)
    ensures AddsUnbroken(r.log, AfterFinish(r, why, now).0.log) <==> (r.state == OBSERVING ==> AllUnbroken([why]))
  {
    AddsNothing(r.log);
    TextsUnbroken([], "");
    AddsLine(r.log, r.log, Event(|r.log| + 1, now, SessionLog.Completed(0, why)));
    AddsLine(r.log, r.log, Event(|r.log| + 1, now, Unfilled(SESSION_ENDED_WITH_UNFILLED_SIMULATED_ENTRY, None)));
    hide AddsUnbroken, AllUnbroken;
  }

  lemma GateAdds(s: Session, maximumAge: int, channel: Channel, id: string, source: Option<Time>, received: Time, now: int)
    ensures var g, rejected := Gate(s, maximumAge, channel, id, source, received, now),
                               Screen(s.samples.Of(channel), maximumAge, id, source, received) != SAMPLE_ACCEPTED;
            && (g.Stopped? <==> rejected) && (g.Passed? ==> g.session.run == s.run)
            && (AddsUnbroken(s.run.log, g.session.run.log) <==> (rejected && CanFail(s.run.state) ==> AllUnbroken([id])))
  {
    var verdict := Screen(s.samples.Of(channel), maximumAge, id, source, received);
    AddsNothing(s.run.log);
    AppendAdds(s.run, SessionLog.Failed(OfSample(verdict, channel, id)), now, Declined);
    hide Screen, Admit, AddsUnbroken, AllUnbroken, AppendOnly;
  }

  /** What a request adds to the log is unbroken exactly if the texts it has logged are. */
  lemma NextAdds(s: Session, settings: P.Settings, maximumAge: int, op: Op)
    ensures AddsUnbroken(s.run.log, Next(s, settings, maximumAge, op).0.run.log) <==> AllUnbroken(RequestTexts(s, maximumAge, op))
  {
    TextsUnbroken([], "");
    hide Screen, AddsUnbroken, AppendOnly, Gate, AfterDecision, AfterEntryQuote, AfterPosition, AfterFinish, ReasonTexts, AllUnbroken;
    match op
    case StartOp(now) => StartAdds(s.run, settings, now);
    case FinishOp(why, now) => FinishAdds(s.run, why, now);
    case DecisionOp(id, source, received, snapshot, outcome, now, later) =>
      GateAdds(s, maximumAge, DECISION_CHANNEL, id, source, received, now);
      DecisionAdds(s.run, snapshot.underlying.symbol, outcome, now, later);
    case EntryOp(id, source, received, ask, timedOut, now) =>
      GateAdds(s, maximumAge, ENTRY_QUOTE_CHANNEL, id, source, received, now);
      EntryQuoteAdds(s.run, received, ask, timedOut, now);
    case PositionOp(id, o, now) =>
      GateAdds(s, maximumAge, POSITION_QUOTE_CHANNEL, id, o.quoteUpdatedAt, o.observedAt, now);
      PositionAdds(s.run, settings, o, now);
  }

  lemma StartAdds(r: Run, settings: P.Settings, now: int)
    ensures AddsUnbroken(r.log, AppendOnly(r, Started(settings.pilotMode), now, Done).0.log)
  {
    AppendAdds(r, Started(settings.pilotMode), now, Done);
    hide AddsUnbroken, AppendOnly;
  }

  /** Everything that the requests of a session have logged is free of line separators. */
  ghost predicate RequestsUnbroken(x: Asked) {
    forall i :: 0 <= i < |x.ops| ==>
      AllUnbroken(RequestTexts(After(x.settings, x.maximumSampleAge, x.ops[..i]), x.maximumSampleAge, x.ops[i]))
  }

  lemma RequestsFront(x: Asked)
    requires x.ops != []
    ensures var n := |x.ops| - 1;
            RequestsUnbroken(x) <==>
              && RequestsUnbroken(x.(ops := x.ops[..n]))
              && AllUnbroken(RequestTexts(After(x.settings, x.maximumSampleAge, x.ops[..n]), x.maximumSampleAge, x.ops[n]))
  {
    hide After, RequestTexts, AllUnbroken;
    var front := x.(ops := x.ops[..|x.ops| - 1]);
    assert forall i :: 0 <= i < |front.ops| ==> front.ops[..i] == x.ops[..i] && front.ops[i] == x.ops[i];
    if RequestsUnbroken(front) {
      forall i | 0 <= i < |front.ops|
        ensures AllUnbroken(RequestTexts(After(x.settings, x.maximumSampleAge, x.ops[..i]), x.maximumSampleAge, x.ops[i])) {
        assert front.ops[..i] == x.ops[..i];
      }
    }
  }

  ghost predicate PayloadsUnbroken(log: seq<Event>) {
    forall i :: 0 <= i < |log| ==> PayloadUnbroken(log[i].payload)
  }

  lemma AddsFrom(before: seq<Event>, after: seq<Event>)
    requires before <= after
    ensures PayloadsUnbroken(after) <==> PayloadsUnbroken(before) && AddsUnbroken(before, after)
  {
    hide PayloadUnbroken;
    assert forall i :: 0 <= i < |before| ==> before[i] == after[i];
  }

  /** The lines of a run quote no line separator exactly if its requests had none logged. */
  lemma {:induction false} RunUnbrokenIff(x: Asked)
    ensures PayloadsUnbroken(LogOf(x)) <==> RequestsUnbroken(x)
    decreases |x.ops|
  {
    if x.ops == [] {
      NothingAsked(x);
    } else {
      var n := |x.ops| - 1;
      var front := x.(ops := x.ops[..n]);
      RunUnbrokenIff(front);
      RequestsFront(x);
      var s := After(x.settings, x.maximumSampleAge, front.ops);
      NextAdds(s, x.settings, x.maximumSampleAge, x.ops[n]);
      NextGrows(s, x.settings, x.maximumSampleAge, x.ops[n]);
      hide Next, RequestTexts, RequestsUnbroken, AllUnbroken, AddsUnbroken, PayloadsUnbroken;
      AddsFrom(s.run.log, LogOf(x));
    }
  }

  lemma NothingAsked(x: Asked)
    requires x.ops == []
    ensures PayloadsUnbroken(LogOf(x)) && RequestsUnbroken(x)
  {
  }

  /** The condition a caller can check: what the log repeats and what its requests have logged. */
  ghost predicate AsksUnbroken(x: Asked) {
    HeaderUnbroken(x.header) && RequestsUnbroken(x)
  }

  lemma AskedIsLogged(x: Asked)
    requires LogOf(x) != []
    ensures LogUnbroken(x.header, LogOf(x)) <==> AsksUnbroken(x)
  {
    RunUnbrokenIff(x);
    LogUnbrokenIff(x.header, LogOf(x));
    hide LogOf, LogUnbroken, RequestsUnbroken, HeaderUnbroken, PayloadUnbroken;
  }

  // ------------------------------------------------------------- a day of runs

  /** The sessions of a day that logged anything: only these have files. */
  ghost function Written(day: seq<Asked>): (r: seq<Asked>)
    ensures forall x :: x in r <==> x in day && LogOf(x) != []
  {
    if day == [] then []
    else
      var last := day[|day| - 1];
      Written(day[..|day| - 1]) + (if LogOf(last) != [] then [last] else [])
  }

  ghost function LogsOf(day: seq<Asked>): seq<seq<Event>> {
    seq(|day|, k requires 0 <= k < |day| => LogOf(day[k]))
  }

  function SettingsOf(day: seq<Asked>): seq<P.Settings> {
    seq(|day|, k requires 0 <= k < |day| => day[k].settings)
  }

  function HeadersOf(day: seq<Asked>): seq<Header> {
    seq(|day|, k requires 0 <= k < |day| => day[k].header)
  }

  /** The day's files, as a reader sees them. */
  ghost function FilesOf(day: seq<Asked>): seq<seq<Line>> {
    EncodeAll(HeadersOf(Written(day)), LogsOf(Written(day)))
  }

  ghost predicate DayAsksUnbroken(day: seq<Asked>) {
    forall x :: x in Written(day) ==> AsksUnbroken(x)
  }

  lemma LogIsSound(x: Asked)
    requires GenuineSession(x)
    ensures Sound(x.settings, LogOf(x))
  {
    RunsAreCoherent(x.settings, x.maximumSampleAge, x.ops);
    hide After, Coherent, Sound;
    LoggedSound(x.settings, x.maximumSampleAge, x.ops);
  }

  lemma DayIsSound(day: seq<Asked>)
    requires AllGenuine(day)
    ensures AllSound(SettingsOf(Written(day)), LogsOf(Written(day)))
    ensures |HeadersOf(Written(day))| == |LogsOf(Written(day))|
    ensures DayUnbroken(HeadersOf(Written(day)), LogsOf(Written(day))) <==> DayAsksUnbroken(day)
  {
    hide GenuineSession, LogOf, Sound, LogUnbroken, AsksUnbroken;
    var w := Written(day);
    forall k | 0 <= k < |w| ensures Sound(w[k].settings, LogOf(w[k])) {
      assert w[k] in w;
      LogIsSound(w[k]);
    }
    UnbrokenDay(w);
  }

  lemma UnbrokenDay(w: seq<Asked>)
    requires forall x :: x in w ==> LogOf(x) != []
    ensures DayUnbroken(HeadersOf(w), LogsOf(w)) <==> forall x :: x in w ==> AsksUnbroken(x)
  {
    hide LogOf, LogUnbroken, AsksUnbroken;
    forall k | 0 <= k < |w| ensures LogUnbroken(HeadersOf(w)[k], LogsOf(w)[k]) <==> AsksUnbroken(w[k]) {
      assert w[k] in w;
      AskedIsLogged(w[k]);
    }
    if DayUnbroken(HeadersOf(w), LogsOf(w)) {
      forall x | x in w ensures AsksUnbroken(x) {
        var k :| 0 <= k < |w| && w[k] == x;
        assert LogUnbroken(HeadersOf(w)[k], LogsOf(w)[k]);
      }
    }
    if forall x :: x in w ==> AsksUnbroken(x) {
      forall k | 0 <= k < |w| ensures LogUnbroken(HeadersOf(w)[k], LogsOf(w)[k]) {
        assert w[k] in w;
      }
    }
  }

  /**
    Whatever the day's sessions were asked, the review of their files succeeds exactly
    if none of them had a line separator logged, and then agrees with them.
   */
  lemma EveryDayReviews(day: seq<Asked>)
    requires AllGenuine(day)
    ensures (forall k :: 0 <= k < |FilesOf(day)| ==> Readable(FilesOf(day)[k])) <==> DayAsksUnbroken(day)
    ensures DayAsksUnbroken(day) ==> Agrees(LogsOf(Written(day)), DayTally(FilesOf(day)))
  {
    hide AllGenuine, AllSound, Readable, Agrees, DayTally, DayUnbroken, DayAsksUnbroken, EncodeLog, Written, LogsOf, HeadersOf, SettingsOf;
    DayIsSound(day);
    var headers, logs := HeadersOf(Written(day)), LogsOf(Written(day));
    ReviewAgrees(SettingsOf(Written(day)), headers, logs);
    assert FilesOf(day) == EncodeAll(headers, logs) && |FilesOf(day)| == |logs|;
    hide EncodeAll, FilesOf;
  }

  /** The experiment report reads a series of such days exactly under the same condition. */
  lemma EveryReportReads(days: seq<seq<Asked>>)
    requires forall k :: 0 <= k < |days| ==> AllGenuine(days[k])
    ensures (forall k :: 0 <= k < |days| ==> E.DayReadable(FilesOf(days[k]))) <==> forall k :: 0 <= k < |days| ==> DayAsksUnbroken(days[k])
  {
    hide AllGenuine, E.DayReadable, DayAsksUnbroken, FilesOf;
    forall k | 0 <= k < |days| ensures E.DayReadable(FilesOf(days[k])) <==> DayAsksUnbroken(days[k]) {
      OneDayReads(days[k]);
    }
  }

  lemma OneDayReads(day: seq<Asked>)
    requires AllGenuine(day)
    ensures E.DayReadable(FilesOf(day)) <==> DayAsksUnbroken(day)
  {
    hide AllGenuine, AllSound, E.DayReadable, DayUnbroken, DayAsksUnbroken, Written, EncodeAll, LogsOf, HeadersOf, SettingsOf;
    DayIsSound(day);
    E.WrittenDayReadable(SettingsOf(Written(day)), HeadersOf(Written(day)), LogsOf(Written(day)));
  }

  // ------------------------------------------------- plain requests are enough

  /** A symbol followed by a fixed code. */
  ghost predicate Names(text: string, symbol: string) {
    exists code :: Unbroken(code) && text == symbol + code
  }

  ghost predicate KnownSymbol(x: P.Snapshot, p: P.Policy, symbol: string) {
    (exists b :: b in x.bars && b.symbol == symbol) || symbol in p.referenceSymbols
  }

  lemma {:induction false} LastEndIsListed(bars: seq<R.CompletedMarketBar>, n: nat, symbol: string)
    requires n <= |bars| && B.LastEnd(bars, n, symbol).Some?
    ensures exists b :: b in bars && b.symbol == symbol
  {
    if bars[n - 1].symbol == symbol {
      assert bars[n - 1] in bars;
    } else {
      LastEndIsListed(bars, n - 1, symbol);
    }
  }

  /** A reported bar reason names the symbol of one of the bars. */
  lemma ReportedNames(bars: seq<R.CompletedMarketBar>, r: B.BarReason, at: Time, interval: int, lag: int, offset: int)
    requires B.Reported(bars, r, at, interval, lag, offset) && BarReasonText(r).Some?
    ensures r != B.DecisionTimeNotTimezoneAware && exists b :: b in bars && b.symbol == r.symbol
  {
    hide B.ValidateCompletedBar, B.LastEnd, B.StepsBack;
    if r.LatestCompletedBarStale? {
      LastEndIsListed(bars, |bars|, r.symbol);
    } else if r.Duplicate? || r.OutOfOrder? {
      var j :| 0 <= j < |bars| && bars[j].symbol == r.symbol;
      assert bars[j] in bars;
    } else {
      var i :| 0 <= i < |bars| && r in B.ValidateCompletedBar(bars[i], at, interval);
      FaultNames(bars[i], at, interval, r);
      assert bars[i] in bars;
    }
  }

  lemma FaultNames(bar: R.CompletedMarketBar, at: Time, interval: int, r: B.BarReason)
    requires r in B.ValidateCompletedBar(bar, at, interval) && r != B.DecisionTimeNotTimezoneAware
    ensures r.symbol == bar.symbol
  {
    hide B.Note;
  }

  lemma {:induction false} RefusalsName(bars: seq<R.CompletedMarketBar>, symbols: seq<string>, n: int, r: R.RegimeReason)
    requires r in R.Refusals(bars, symbols, n)
    ensures r != R.ReferenceSymbolsDisagree && r.symbol in symbols
  {
    if symbols != [] {
      var last := symbols[|symbols| - 1];
      var v := R.Verdict(bars, last, n);
      VerdictNames(bars, last, n);
      hide R.Verdict;
      if !(v.Failure? && r == v.error) {
        RefusalsName(bars, symbols[..|symbols| - 1], n, r);
      }
    }
  }

  lemma VerdictNames(bars: seq<R.CompletedMarketBar>, symbol: string, n: int)
    ensures var v := R.Verdict(bars, symbol, n); v.Failure? ==> v.error != R.ReferenceSymbolsDisagree && v.error.symbol == symbol
  {
    hide R.BarsOf, R.Directions;
  }

  /** Every reason of a genuine decision that quotes a text names a bar or a reference symbol. */
  lemma ReasonsName(x: P.Snapshot, s: P.Settings, d: P.Decision, r: P.Reason)
    requires P.Conforms(x, s, d) && r in d.reasons && ReasonText(r).Some?
    ensures exists symbol :: KnownSymbol(x, s.policy, symbol) && Names(ReasonText(r).value, symbol)
  {
    ReasonIsNamed(x, s, d, r);
    hide P.Conforms, B.Reported, R.Refusals, Unbroken, BarCode, RegimeCode;
    if r.OfBars? {
      BarCodeUnbroken(r.bar);
      assert Names(ReasonText(r).value, r.bar.symbol);
      ReportedNames(x.bars, r.bar, x.clock.now, s.policy.intervalMinutes, P.LatestLag(s.policy), x.clock.hostOffset);
      assert KnownSymbol(x, s.policy, r.bar.symbol);
    } else {
      RegimeCodeUnbroken(r.regime);
      assert Names(ReasonText(r).value, r.regime.symbol);
      RefusalsName(x.bars, s.policy.referenceSymbols, s.policy.confirmations, r.regime);
      assert KnownSymbol(x, s.policy, r.regime.symbol);
    }
  }

  lemma ReasonIsNamed(x: P.Snapshot, s: P.Settings, d: P.Decision, r: P.Reason)
    requires P.Conforms(x, s, d) && r in d.reasons && ReasonText(r).Some?
    ensures r.OfBars? || r.OfRegime?
    ensures r.OfBars? ==> B.Reported(x.bars, r.bar, x.clock.now, s.policy.intervalMinutes, P.LatestLag(s.policy), x.clock.hostOffset)
    ensures r.OfRegime? ==> r.regime in R.Refusals(x.bars, s.policy.referenceSymbols, s.policy.confirmations)
  {
    hide P.SignalOf, P.MarketOf, P.ZeroPrice, P.Judged, B.Reported, BarReasonText, RegimeReasonText, P.LatestLag;
    JudgedReason(x, s, d, r);
    if r.OfRisk? {
      RiskReason(x, s, d, r);
    } else if r.OfRegime? {
      MarketReason(x, s.policy, r.regime);
    }
  }

  /** Behind the signal no reason quotes a bar or a reference symbol. */
  lemma JudgedReason(x: P.Snapshot, s: P.Settings, d: P.Decision, r: P.Reason)
    ensures !P.ZeroPrice(x) && P.Judged(x, s, d) && r in d.reasons ==>
              r.OfCandidate? || r.OfRisk? || r == P.STRATEGY_NOT_ACTIVATED_FOR_SHADOW || r == P.PILOT_NOT_STRATEGY_EVIDENCE
  {
    hide P.SignalOf, P.MarketOf, P.ZeroPrice, P.Objects, P.OrderOf, P.LimitOf, Risk.Violates, Risk.Premium;
  }

  lemma MarketReason(x: P.Snapshot, p: P.Policy, r: R.RegimeReason)
    requires r in P.MarketOf(x, p).reasons && RegimeReasonText(r).Some?
    ensures r in R.Refusals(x.bars, p.referenceSymbols, p.confirmations)
  {
    hide R.Refusals, R.Confirmed, RegimeCode;
  }

  /** The shadow order's kill switch is off, so no violation of it quotes a text. */
  lemma RiskReason(x: P.Snapshot, s: P.Settings, d: P.Decision, r: P.Reason)
    requires P.Conforms(x, s, d) && r in d.reasons && r.OfRisk?
    ensures ReasonText(r).None?
  {
    hide P.SignalOf, P.MarketOf, P.ZeroPrice, P.Objects, P.LimitOf, Risk.Premium, P.BarsFaulty, P.OrderOf, Risk.Violates;
    var limit :| Risk.Violates(r.violation, P.OrderOf(x, s, limit));
    SwitchIsOff(x, s, limit, r.violation);
  }

  lemma SwitchIsOff(x: P.Snapshot, s: P.Settings, limit: real, v: Risk.Violation)
    requires Risk.Violates(v, P.OrderOf(x, s, limit))
    ensures !v.KILL_SWITCH_ENGAGED?
  {
  }

  /** No text of the request, or of the policy it is judged by, has a line separator. */
  ghost predicate PlainRequest(op: Op) {
    match op
    case DecisionOp(id, _, _, snapshot, _, _, _) =>
      && Unbroken(id) && Unbroken(snapshot.underlying.symbol) && forall b :: b in snapshot.bars ==> Unbroken(b.symbol)
    case EntryOp(id, _, _, _, _, _) => Unbroken(id)
    case PositionOp(id, _, _) => Unbroken(id)
    case FinishOp(why, _) => Unbroken(why)
    case StartOp(_) => true
  }

  ghost predicate PlainSession(x: Asked) {
    && HeaderUnbroken(x.header) && (forall op :: op in x.ops ==> PlainRequest(op))
    && forall symbol :: symbol in x.settings.policy.referenceSymbols ==> Unbroken(symbol)
  }

  lemma PlainDecision(x: P.Snapshot, s: P.Settings, d: P.Decision)
    requires P.Conforms(x, s, d) && forall symbol :: KnownSymbol(x, s.policy, symbol) ==> Unbroken(symbol)
    ensures AllUnbroken(ReasonTexts(d.reasons))
  {
    hide Unbroken, KnownSymbol, ReasonText, P.Conforms;
    forall t | t in ReasonTexts(d.reasons) ensures Unbroken(t) {
      var r :| r in d.reasons && ReasonText(r) == Some(t);
      ReasonsName(x, s, d, r);
      var symbol :| KnownSymbol(x, s.policy, symbol) && Names(t, symbol);
      var code :| Unbroken(code) && t == symbol + code;
      AppendUnbroken(symbol, code);
    }
  }

  /** Requests without a line separator have none logged: it is enough to check what is asked. */
  lemma PlainIsUnbroken(x: Asked)
    requires PlainSession(x) && GenuineSession(x)
    ensures AsksUnbroken(x)
  {
    hide After, P.Conforms, AllUnbroken, Unbroken, RequestTexts, PlainRequest;
    forall i | 0 <= i < |x.ops|
      ensures AllUnbroken(RequestTexts(After(x.settings, x.maximumSampleAge, x.ops[..i]), x.maximumSampleAge, x.ops[i])) {
      assert x.ops[i] in x.ops;
      PlainTexts(After(x.settings, x.maximumSampleAge, x.ops[..i]), x, x.ops[i]);
    }
  }

  lemma PlainTexts(s: Session, x: Asked, op: Op)
    requires PlainSession(x) && PlainRequest(op) && Genuine(x.settings, op)
    ensures AllUnbroken(RequestTexts(s, x.maximumSampleAge, op))
  {
    TextsUnbroken([], "");
    match op
    case DecisionOp(id, source, received, snapshot, outcome, _, _) =>
      TextsUnbroken([], id);
      assert [] + [id] == [id];
      if outcome.Success? {
        KnownAreUnbroken(x, snapshot);
        PlainDecision(snapshot, x.settings, outcome.value);
        TextsUnbroken(ReasonTexts(outcome.value.reasons), snapshot.underlying.symbol);
      }
      hide P.Conforms, AllUnbroken, Unbroken, Screen;
    case EntryOp(id, _, _, _, _, _) =>
      TextsUnbroken([], id);
      assert [] + [id] == [id];
    case PositionOp(id, _, _) =>
      TextsUnbroken([], id);
      assert [] + [id] == [id];
    case FinishOp(why, _) =>
      TextsUnbroken([], why);
      assert [] + [why] == [why];
    case StartOp(_) =>
  }

  lemma KnownAreUnbroken(x: Asked, snapshot: P.Snapshot)
    requires (forall symbol :: symbol in x.settings.policy.referenceSymbols ==> Unbroken(symbol))
    requires forall b :: b in snapshot.bars ==> Unbroken(b.symbol)
    ensures forall symbol :: KnownSymbol(snapshot, x.settings.policy, symbol) ==> Unbroken(symbol)
  {
    hide Unbroken;
  }

  /** The worst a day's exits can lose under one configuration. */
  lemma {:induction false} NetIsBounded(settings: P.Settings, logs: seq<seq<Event>>)
    requires CanTrade(settings.config) && forall k :: 0 <= k < |logs| ==> Sound(settings, logs[k])
    ensures NetOf(logs) >= -(Occurrences(logs, EXITED) as real) * (Ceiling(settings.config) + Friction(settings.config))
  {
    hide CanTrade, Ceiling, Friction, Sound, NetIn, Count;
    if logs != [] {
      var n := |logs| - 1;
      NetIsBounded(settings, logs[..n]);
      LogNetIsBounded(settings, logs[n]);
      var worst := Ceiling(settings.config) + Friction(settings.config);
      AddWorst(Occurrences(logs[..n], EXITED), Count(logs[n], EXITED), worst);
    }
  }

  lemma AddWorst(before: int, exits: int, worst: real)
    ensures -((before + exits) as real) * worst == -(before as real) * worst - (exits as real) * worst
  {
  }

  lemma LogNetIsBounded(settings: P.Settings, log: seq<Event>)
    requires CanTrade(settings.config) && Sound(settings, log)
    ensures Count(log, EXITED) == 0 || Count(log, EXITED) == 1
    ensures NetIn(log) >= -(Count(log, EXITED) as real) * (Ceiling(settings.config) + Friction(settings.config))
  {
    hide CanTrade, Ceiling, Friction, Sound, NetIn, Count;
    AtMostOneTrade(settings, log);
    if Count(log, EXITED) == 1 {
      var i := NetIsExit(settings, log);
      LossBound(settings, log, i);
    } else {
      NetOfTrade(settings, log);
    }
  }

  /** The net result of a traded log is that of its exit. */
  lemma {:induction false} NetIsExit(settings: P.Settings, log: seq<Event>) returns (i: nat)
    requires Sound(settings, log) && Count(log, EXITED) == 1
    ensures i < |log| && log[i].payload.Exited? && log[i].payload.net == NetIn(log)
  {
    var n := |log| - 1;
    SoundPrefix(settings, log, n);
    CountStep(log, EXITED);
    if log[n].payload.Exited? {
      NetOfTrade(settings, log[..n]);
      i := n;
    } else {
      i := NetIsExit(settings, log[..n]);
    }
  }

  /**
    The end-to-end bound of a day: sessions under one configuration, asked anything
    that has no line separator logged, are reviewed with a net loss of at most the
    ceiling plus friction per exit.
   */
  lemma DayLossBound(settings: P.Settings, day: seq<Asked>)
    requires CanTrade(settings.config) && AllGenuine(day) && forall x :: x in day ==> x.settings == settings
    requires DayAsksUnbroken(day)
    ensures var t := DayTally(FilesOf(day)).trades;
            && t.net >= -(t.exits as real) * (Ceiling(settings.config) + Friction(settings.config))
            && 0 <= t.exits <= |Written(day)| <= |day|
  {
    hide GenuineSession, LogOf, Sound, Readable, DayTally, CanTrade, Ceiling, Friction, DayAsksUnbroken, FilesOf, Written;
    EveryDayReviews(day);
    WrittenIsShorter(day);
    WrittenAreSound(settings, day);
    NetIsBounded(settings, LogsOf(Written(day)));
  }

  lemma WrittenAreSound(settings: P.Settings, day: seq<Asked>)
    requires AllGenuine(day) && forall x :: x in day ==> x.settings == settings
    ensures forall k :: 0 <= k < |Written(day)| ==> Sound(settings, LogsOf(Written(day))[k])
  {
    hide GenuineSession, LogOf, Sound;
    var w := Written(day);
    forall k | 0 <= k < |w| ensures Sound(settings, LogsOf(w)[k]) {
      assert w[k] in w;
      LogIsSound(w[k]);
    }
  }

  lemma {:induction false} WrittenIsShorter(day: seq<Asked>)
    ensures |Written(day)| <= |day|
  {
    if day != [] {
      WrittenIsShorter(day[..|day| - 1]);
    }
  }

  // ----------------------------------------------------------- a failing run

  /** A started session, and then a quote of another second whose id ends in a line separator. */
  const SEPARATED := [
    StartOp(0),
    EntryOp("quote\U{2028}", Some(Aware(0)), Aware(20 * SECOND), None, false, 20 * SECOND)]

  lemma SeparatedRun(settings: P.Settings)
    ensures var log := After(settings, MAXIMUM_SAMPLE_AGE, SEPARATED).run.log;
            && |log| == 2 && log[0].payload == Started(settings.pilotMode)
            && log[1].payload == SessionLog.Failed(OfSample(STALE_SAMPLE, ENTRY_QUOTE_CHANNEL, "quote\U{2028}"))
  {
    var begun := AppendOnly(FRESH, Started(settings.pilotMode), 0, Done).0;
    assert SEPARATED[..1][..0] == [] && SEPARATED[..1][0] == SEPARATED[0];
    assert After(settings, MAXIMUM_SAMPLE_AGE, SEPARATED[..1]) == BEGINNING.(run := begun) by {
      assert After(settings, MAXIMUM_SAMPLE_AGE, []) == BEGINNING;
    }
    assert SEPARATED[1].id[0] == 'q';
    assert SEPARATED[..|SEPARATED| - 1] == SEPARATED[..1];
    hide After;
    assert After(settings, MAXIMUM_SAMPLE_AGE, SEPARATED) == Next(BEGINNING.(run := begun), settings, MAXIMUM_SAMPLE_AGE, SEPARATED[1]).0;
  }

  lemma SeparatedIdIsBroken()
    ensures !PayloadUnbroken(SessionLog.Failed(OfSample(STALE_SAMPLE, ENTRY_QUOTE_CHANNEL, "quote\U{2028}")))
  {
    var id := "quote\U{2028}";
    assert Separator(id[5]);
    TextsUnbroken([], id);
    assert [] + [id] == [id];
    hide AllUnbroken;
  }

  /** Under any settings the rejected id is logged, and the review of the day raises. */
  lemma SeparatorStopsReview(settings: P.Settings, h: Header)
    ensures var x := Asked(settings, MAXIMUM_SAMPLE_AGE, h, SEPARATED);
            && GenuineSession(x) && |LogOf(x)| == 2
            && LogOf(x)[1].payload == SessionLog.Failed(OfSample(STALE_SAMPLE, ENTRY_QUOTE_CHANNEL, "quote\U{2028}"))
            && !AsksUnbroken(x) && !Readable(EncodeLog(h, LogOf(x)))
  {
    var x := Asked(settings, MAXIMUM_SAMPLE_AGE, h, SEPARATED);
    assert GenuineSession(x) by {
      hide P.Conforms;
    }
    hide Genuine, GenuineSession, After, PayloadUnbroken, AsksUnbroken, LogUnbroken, Readable, EncodeLog, Sound;
    SeparatedRun(settings);
    SeparatedIdIsBroken();
    LogUnbrokenIff(h, LogOf(x));
    AskedIsLogged(x);
    LogIsSound(x);
    ReadableIff(settings, h, LogOf(x));
  }
}
