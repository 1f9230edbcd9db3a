/** The texts a session's log quotes, and the lines a reader cuts its stored form into. */
module SessionText {
  import opened Common
  import opened LogText
  import opened SessionLog
  import B = BarSet
  import P = ShadowPipeline
  import R = Regime
  import Risk = OpeningRisk

  /** What every line of a session's log repeats. */
  datatype Header = Header(strategyVersion: string, sessionId: string)

  /** The code behind the symbol in a reason about a bar. */
  function BarCode(r: B.BarReason): string {
    match r
    case TimeMetadataMissing(_) => "_BAR_TIME_METADATA_MISSING"
    case TimeNotTimezoneAware(_) => "_BAR_TIME_NOT_TIMEZONE_AWARE"
    case DecisionTimeNotTimezoneAware => ""
    case NotCompleted(_) => "_BAR_NOT_COMPLETED"
    case IntervalInvalid(_) => "_BAR_INTERVAL_INVALID"
    case DurationInvalid(_) => "_BAR_DURATION_INVALID"
    case TimelineInvalid(_) => "_BAR_TIMELINE_INVALID"
    case SourceTimelineInvalid(_) => "_BAR_SOURCE_TIMELINE_INVALID"
    case FromFuture(_) => "_BAR_FROM_FUTURE"
    case Duplicate(_) => "_BAR_DUPLICATE"
    case OutOfOrder(_) => "_BAR_OUT_OF_ORDER"
    case LatestCompletedBarStale(_) => "_LATEST_COMPLETED_BAR_STALE"
  }

  function BarReasonText(r: B.BarReason): Option<string> {
    if r == B.DecisionTimeNotTimezoneAware then None else Some(r.symbol + BarCode(r))
  }

  function RegimeCode(r: R.RegimeReason): string {
    match r
    case ConfirmationBarsMissing(_) => "_CONFIRMATION_BARS_MISSING"
    case IndicatorUnknown(_) => "_INDICATOR_UNKNOWN"
    case IndicatorsNotAligned(_) => "_INDICATORS_NOT_ALIGNED"
    case DirectionNotConfirmed(_) => "_DIRECTION_NOT_CONFIRMED"
    case ReferenceSymbolsDisagree => ""
  }

  function RegimeReasonText(r: R.RegimeReason): Option<string> {
    if r == R.ReferenceSymbolsDisagree then None else Some(r.symbol + RegimeCode(r))
  }

  lemma TimeCodes()
    ensures Unbroken("_BAR_TIME_METADATA_MISSING") && Unbroken("_BAR_TIME_NOT_TIMEZONE_AWARE") && Unbroken("_BAR_FROM_FUTURE")
  {
  }

  lemma ShapeCodes()
    ensures Unbroken("_BAR_NOT_COMPLETED") && Unbroken("_BAR_INTERVAL_INVALID") && Unbroken("_BAR_DURATION_INVALID")
  {
  }

  lemma LineCodes()
    ensures Unbroken("_BAR_TIMELINE_INVALID") && Unbroken("_BAR_SOURCE_TIMELINE_INVALID") && Unbroken("")
  {
  }

  lemma OrderCodes()
    ensures Unbroken("_BAR_DUPLICATE") && Unbroken("_BAR_OUT_OF_ORDER") && Unbroken("_LATEST_COMPLETED_BAR_STALE")
  {
  }

  lemma BarCodeUnbroken(r: B.BarReason)
    ensures Unbroken(BarCode(r))
  {
    hide Unbroken;
    TimeCodes();
    ShapeCodes();
    LineCodes();
    OrderCodes();
  }

  lemma RegimeCodeUnbroken(r: R.RegimeReason)
    ensures Unbroken(RegimeCode(r))
  {
    match r
    case ConfirmationBarsMissing(_) => assert Unbroken("_CONFIRMATION_BARS_MISSING");
    case IndicatorUnknown(_) => assert Unbroken("_INDICATOR_UNKNOWN");
    case IndicatorsNotAligned(_) => assert Unbroken("_INDICATORS_NOT_ALIGNED");
    case DirectionNotConfirmed(_) => assert Unbroken("_DIRECTION_NOT_CONFIRMED");
    case ReferenceSymbolsDisagree => assert Unbroken("");
  }

  /** The text of a reason that quotes one; all others are fixed codes. */
  function ReasonText(r: P.Reason): Option<string> {
    match r
    case OfBars(bar) => BarReasonText(bar)
    case OfRegime(regime) => RegimeReasonText(regime)
    case OfRisk(violation) =>
      if violation.KILL_SWITCH_ENGAGED? && violation.why != "" then Some("KILL_SWITCH_ENGAGED:" + violation.why) else None
    case _ => None
  }

  /** A reason quotes the symbol it names, in front of its code, or why the kill switch was pulled, and nothing else. */
  lemma ReasonQuotes(r: P.Reason)
    ensures r.OfBars? && r.bar != B.DecisionTimeNotTimezoneAware ==>
              ReasonText(r).Some? && r.bar.symbol <= ReasonText(r).value && Unbroken(ReasonText(r).value[|r.bar.symbol|..])
    ensures r.OfRegime? && r.regime != R.ReferenceSymbolsDisagree ==>
              ReasonText(r).Some? && r.regime.symbol <= ReasonText(r).value && Unbroken(ReasonText(r).value[|r.regime.symbol|..])
    ensures r.OfRisk? && r.violation.KILL_SWITCH_ENGAGED? && r.violation.why != "" ==>
              ReasonText(r) == Some("KILL_SWITCH_ENGAGED:" + r.violation.why)
    ensures r.OfSignal? || r.OfCandidate? || (r.OfRisk? && !r.violation.KILL_SWITCH_ENGAGED?) ==> ReasonText(r) == None
  {
    hide BarCode, RegimeCode, Unbroken;
    match r
    case OfBars(bar) =>
      if bar != B.DecisionTimeNotTimezoneAware {
        BarCodeUnbroken(bar);
        BehindSymbol(bar.symbol, BarCode(bar));
      }
    case OfRegime(regime) =>
      if regime != R.ReferenceSymbolsDisagree {
        RegimeCodeUnbroken(regime);
        BehindSymbol(regime.symbol, RegimeCode(regime));
      }
    case _ =>
  }

  lemma BehindSymbol(symbol: string, code: string)
    ensures symbol <= symbol + code && (symbol + code)[|symbol|..] == code
  {
  }

  function ReasonTexts(reasons: seq<P.Reason>): (texts: seq<string>)
    ensures forall t :: t in texts <==> exists r :: r in reasons && ReasonText(r) == Some(t)
  {
    if reasons == [] then []
    else
      var last := ReasonText(reasons[|reasons| - 1]);
      ReasonTexts(reasons[..|reasons| - 1]) + (if last.Some? then [last.value] else [])
  }

  function PayloadTexts(p: Payload): seq<string> {
    match p
    case Recorded(decision, symbol) => ReasonTexts(decision.reasons) + [symbol]
    case Working(_, symbol) => [symbol]
    case Completed(_, why) => [why]
    case Failed(error) => if error.OfSample? then [error.id] else []
    case _ => []
  }

  /** The texts quoted in the stored line of an event, in the order of its sorted keys. */
  function LineTexts(h: Header, e: Event): seq<string> {
    PayloadTexts(e.payload) + [h.sessionId, h.strategyVersion]
  }

  ghost predicate PayloadUnbroken(p: Payload) {
    AllUnbroken(PayloadTexts(p))
  }

  ghost predicate HeaderUnbroken(h: Header) {
    Unbroken(h.strategyVersion) && Unbroken(h.sessionId)
  }

  /** No line of the log quotes a line separator. */
  ghost predicate LogUnbroken(h: Header, log: seq<Event>) {
    forall i :: 0 <= i < |log| ==> AllUnbroken(LineTexts(h, log[i]))
  }

  lemma LineUnbrokenIff(h: Header, e: Event)
    ensures AllUnbroken(LineTexts(h, e)) <==> HeaderUnbroken(h) && PayloadUnbroken(e.payload)
  {
    hide Unbroken, PayloadTexts;
    var texts := LineTexts(h, e);
    assert texts[|PayloadTexts(e.payload)|] == h.sessionId && texts[|PayloadTexts(e.payload)| + 1] == h.strategyVersion;
  }

  /** A log is unbroken exactly if its header, where it has lines, and every payload are. */
  lemma LogUnbrokenIff(h: Header, log: seq<Event>)
    ensures LogUnbroken(h, log) <==>
              (log == [] || HeaderUnbroken(h)) && forall i :: 0 <= i < |log| ==> PayloadUnbroken(log[i].payload)
  {
    hide AllUnbroken, PayloadUnbroken, HeaderUnbroken, LineTexts;
    forall i | 0 <= i < |log|
      ensures AllUnbroken(LineTexts(h, log[i])) <==> HeaderUnbroken(h) && PayloadUnbroken(log[i].payload) {
      LineUnbrokenIff(h, log[i]);
    }
    if log != [] && LogUnbroken(h, log) {
      assert AllUnbroken(LineTexts(h, log[0]));
    }
  }

  /** Text in front of a fixed code without separators. */
  lemma AppendUnbroken(text: string, code: string)
    requires Unbroken(code)
    ensures Unbroken(text + code) <==> Unbroken(text)
  {
    hide Separator;
    var s := text + code;
    assert forall k :: 0 <= k < |text| ==> s[k] == text[k];
    assert forall k :: |text| <= k < |s| ==> s[k] == code[k - |text|];
  }

  // -------------------------------------------------------------- stored form

  /** How many pieces a reader cuts the stored line of an event into. */
  function Pieces(h: Header, e: Event): nat {
    1 + Breaks(LineTexts(h, e))
  }

  /**
    However the rest of a line is laid out, its stored text is cut into that many
    pieces. It is one, the line itself, exactly if no quoted text has a separator;
    otherwise the first piece ends inside a string and is no JSON.
   */
  lemma StoredEvent(h: Header, e: Event, segments: seq<Segment>, rest: string)
    requires WellMade(segments) && TextsOf(segments) == LineTexts(h, e)
    ensures var line := Render(segments); var pieces := SplitLines(line + "\n");
            && SplitLines(line + "\n" + rest) == pieces + SplitLines(rest) && |pieces| == Pieces(h, e)
            && (Pieces(h, e) == 1 <==> AllUnbroken(LineTexts(h, e)))
            && (Pieces(h, e) == 1 ==> pieces == [line]) && (Pieces(h, e) != 1 ==> Scan(Outside, pieces[0]) == Inside)
  {
    StoredLine(segments, rest);
    NoBreaks(LineTexts(h, e));
    hide SplitLines, Render, Breaks, AllUnbroken;
  }
}
