/** Provenance checks on the bars a decision is made from. */
module BarSet {
  import opened Common
  import opened Regime

  datatype BarReason =
    | TimeMetadataMissing(symbol: string)
    | TimeNotTimezoneAware(symbol: string)
    | DecisionTimeNotTimezoneAware
    | NotCompleted(symbol: string)
    | IntervalInvalid(symbol: string)
    | DurationInvalid(symbol: string)
    | TimelineInvalid(symbol: string)
    | SourceTimelineInvalid(symbol: string)
    | FromFuture(symbol: string)
    | Duplicate(symbol: string)
    | OutOfOrder(symbol: string)
    | LatestCompletedBarStale(symbol: string)

  /** Comparing a zoned with an unzoned timestamp is an error in the host language. */
  datatype BarSetError = MixedTimestampComparison

  /** An unzoned timestamp is read in the host's own zone when it is converted. */
  function Utc(t: Time, hostOffset: int): int {
    if t.Aware? then t.us else t.us - hostOffset
  }

  function Note(condition: bool, reason: BarReason): (r: seq<BarReason>)
    ensures forall c :: c in r <==> condition && c == reason
  {
    if condition then [reason] else []
  }

  function ValidateCompletedBar(bar: CompletedMarketBar, decisionTime: Time, expectedIntervalMinutes: int): seq<BarReason> {
    if bar.startedAt.None? || bar.endedAt.None? || bar.receivedAt.None? then [TimeMetadataMissing(bar.symbol)]
    else
      var start, end, received := bar.startedAt.value, bar.endedAt.value, bar.receivedAt.value;
      var source := bar.sourceUpdatedAt;
      if start.Naive? || end.Naive? || received.Naive? || (source.Some? && source.value.Naive?)
        then [TimeNotTimezoneAware(bar.symbol)]
      else if decisionTime.Naive? then [DecisionTimeNotTimezoneAware]
      else
        Note(bar.completed != Some(true), NotCompleted(bar.symbol))
        + Note(bar.intervalMinutes != Some(expectedIntervalMinutes), IntervalInvalid(bar.symbol))
        + Note(end.us - start.us != expectedIntervalMinutes * MINUTE, DurationInvalid(bar.symbol))
        + Note(!(start.us < end.us <= received.us), TimelineInvalid(bar.symbol))
        + Note(source.Some? && !(end.us <= source.value.us <= received.us), SourceTimelineInvalid(bar.symbol))
        + Note(end.us > decisionTime.us, FromFuture(bar.symbol))
  }

  // -------------------------------------------------- meaning of the reasons

  /** The end of the newest bar of `symbol` among the first `n`, if it has one. */
  function LastEnd(bars: seq<CompletedMarketBar>, n: nat, symbol: string): Option<Time>
    requires n <= |bars|
  {
    if n == 0 then None
    else if bars[n - 1].symbol == symbol && bars[n - 1].endedAt.Some? then bars[n - 1].endedAt
    else LastEnd(bars, n - 1, symbol)
  }

  ghost predicate HasFault(bars: seq<CompletedMarketBar>, n: nat, reason: BarReason, decisionTime: Time, interval: int)
    requires n <= |bars|
  {
    exists i :: 0 <= i < n && reason in ValidateCompletedBar(bars[i], decisionTime, interval)
  }

  ghost predicate HasDuplicate(bars: seq<CompletedMarketBar>, n: nat, symbol: string)
    requires n <= |bars|
  {
    exists i, j :: 0 <= i < j < n && bars[i].symbol == symbol == bars[j].symbol && bars[i].endedAt == bars[j].endedAt
  }

  /** Bar `j` ends no later than the bar of its symbol before it. */
  ghost predicate StepsBack(bars: seq<CompletedMarketBar>, j: nat)
    requires j < |bars|
  {
    var previous := LastEnd(bars, j, bars[j].symbol);
    bars[j].endedAt.Some? && previous.Some? && bars[j].endedAt.value.us <= previous.value.us
  }

  ghost predicate HasDisorder(bars: seq<CompletedMarketBar>, n: nat, symbol: string)
    requires n <= |bars|
  {
    exists j :: 0 <= j < n && bars[j].symbol == symbol && StepsBack(bars, j)
  }

  ghost predicate IsStale(bars: seq<CompletedMarketBar>, symbol: string, decisionTime: Time, lagSeconds: int, hostOffset: int) {
    var last := LastEnd(bars, |bars|, symbol);
    last.Some? && decisionTime.Aware? && decisionTime.us - Utc(last.value, hostOffset) > lagSeconds * SECOND
  }

  /** Exactly when each reason is reported about the first `n` bars, staleness aside. */
  ghost predicate Noted(bars: seq<CompletedMarketBar>, n: nat, reason: BarReason, decisionTime: Time, interval: int)
    requires n <= |bars|
  {
    match reason
    case Duplicate(symbol) => HasDuplicate(bars, n, symbol)
    case OutOfOrder(symbol) => HasDisorder(bars, n, symbol)
    case LatestCompletedBarStale(_) => false
    case _ => HasFault(bars, n, reason, decisionTime, interval)
  }

  /** Exactly when each reason is reported. */
  ghost predicate Reported(bars: seq<CompletedMarketBar>, reason: BarReason, decisionTime: Time, interval: int,
                           lagSeconds: int, hostOffset: int) {
    match reason
    case LatestCompletedBarStale(symbol) => IsStale(bars, symbol, decisionTime, lagSeconds, hostOffset)
    case _ => Noted(bars, |bars|, reason, decisionTime, interval)
  }

  function MaximumLag(interval: int, receiptDelay: int, latestLag: Option<int>): int {
    if latestLag.Some? then latestLag.value else interval * 60 + receiptDelay
  }

  /** Bar `i` and the bar of its symbol before it end at timestamps that cannot be compared. */
  ghost predicate MixedAt(bars: seq<CompletedMarketBar>, i: nat)
    requires i < |bars|
  {
    var previous := LastEnd(bars, i, bars[i].symbol);
    bars[i].endedAt.Some? && previous.Some? && previous.value.Aware? != bars[i].endedAt.value.Aware?
  }

  ghost predicate Mixed(bars: seq<CompletedMarketBar>) {
    exists i :: 0 <= i < |bars| && MixedAt(bars, i)
  }

  lemma MixedIff(bars: seq<CompletedMarketBar>, i: nat)
    requires i < |bars|
    ensures MixedAt(bars, i) <==>
            var previous := LastEnd(bars, i, bars[i].symbol);
            bars[i].endedAt.Some? && previous.Some? && previous.value.Aware? != bars[i].endedAt.value.Aware?
  {
  }

  /** The error needs an unzoned bar end. */
  lemma MixedHasNaive(bars: seq<CompletedMarketBar>)
    requires Mixed(bars)
    ensures exists b :: b in bars && b.endedAt.Some? && b.endedAt.value.Naive?
  {
    var i :| 0 <= i < |bars| && MixedAt(bars, i);
    LastEndIsSome(bars, i, bars[i].symbol);
    hide LastEnd;
    var j :| 0 <= j < i && bars[j].symbol == bars[i].symbol && bars[j].endedAt == LastEnd(bars, i, bars[i].symbol);
    assert bars[i] in bars && bars[j] in bars;
  }

  /**
    Collects the reasons against a set of bars. A reason is reported exactly when
    it applies. The only other outcome is the comparison error, exactly when two
    consecutive bars of a symbol end at a zoned and at an unzoned timestamp.
   */
  method ValidateBarSet(bars: seq<CompletedMarketBar>, decisionTime: Time, expectedIntervalMinutes: int,
                        maximumReceiptDelaySeconds: int, maximumLatestBarLagSeconds: Option<int>, hostOffset: int)
    returns (r: Result<seq<BarReason>, BarSetError>)
    ensures r.Success? ==>
              forall c :: c in r.value <==>
                Reported(bars, c, decisionTime, expectedIntervalMinutes,
                         if maximumLatestBarLagSeconds.Some? then maximumLatestBarLagSeconds.value
                         else expectedIntervalMinutes * 60 + maximumReceiptDelaySeconds, hostOffset)
    ensures r.Success? ==> forall i, j :: 0 <= i < j < |r.value| ==> r.value[i] != r.value[j]
    ensures r.Failure? <==> Mixed(bars)
  {
    hide Noted, ValidateCompletedBar, LastEnd, StepsBack, Reported, IsStale, MixedAt;
    NothingNoted(bars, decisionTime, expectedIntervalMinutes);
    var reasons: seq<BarReason> := [];
    var seen: set<(string, Option<Time>)> := {};
    var lastEnd: map<string, Time> := map[];
    var order: seq<string> := [];
    for i := 0 to |bars|
      invariant forall j :: 0 <= j < i ==> !MixedAt(bars, j)
      invariant forall c :: c in reasons <==> Noted(bars, i, c, decisionTime, expectedIntervalMinutes)
      invariant forall key :: key in seen <==> exists j :: 0 <= j < i && key == (bars[j].symbol, bars[j].endedAt)
      invariant forall s :: LastEnd(bars, i, s) == if s in lastEnd then Some(lastEnd[s]) else None
      invariant forall s :: s in order <==> s in lastEnd
    {
      var bar := bars[i];
      var faults := ValidateCompletedBar(bar, decisionTime, expectedIntervalMinutes);
      var key := (bar.symbol, bar.endedAt);
      var duplicate := key in seen;
      MixedIff(bars, i);
      if bar.endedAt.Some? && bar.symbol in lastEnd && lastEnd[bar.symbol].Aware? != bar.endedAt.value.Aware? {
        return Failure(MixedTimestampComparison);
      }
      var disorder := bar.endedAt.Some? && bar.symbol in lastEnd && bar.endedAt.value.us <= lastEnd[bar.symbol].us;
      StepsBackIff(bars, i);
      reasons := reasons + faults + Note(duplicate, Duplicate(bar.symbol)) + Note(disorder, OutOfOrder(bar.symbol));
      forall c ensures c in reasons <==> Noted(bars, i + 1, c, decisionTime, expectedIntervalMinutes) {
        NotedStep(bars, i, decisionTime, expectedIntervalMinutes, duplicate, disorder, c);
      }
      seen := seen + {key};
      if bar.endedAt.Some? {
        if bar.symbol !in lastEnd {
          order := order + [bar.symbol];
        }
        lastEnd := lastEnd[bar.symbol := bar.endedAt.value];
      }
      forall s ensures LastEnd(bars, i + 1, s) == if s in lastEnd then Some(lastEnd[s]) else None {
        LastEndStep(bars, i, s);
      }
    }
    var maximumLag := MaximumLag(expectedIntervalMinutes, maximumReceiptDelaySeconds, maximumLatestBarLagSeconds);
    ReportedSplit(bars, decisionTime, expectedIntervalMinutes, maximumLag, hostOffset);
    if decisionTime.Aware? {
      var stale := StaleSymbols(bars, order, lastEnd, decisionTime, maximumLag, hostOffset);
      reasons := reasons + stale;
    }
    return Success(Dedup(reasons));
  }

  lemma StepsBackIff(bars: seq<CompletedMarketBar>, i: nat)
    requires i < |bars|
    ensures StepsBack(bars, i) <==>
            var previous := LastEnd(bars, i, bars[i].symbol);
            bars[i].endedAt.Some? && previous.Some? && bars[i].endedAt.value.us <= previous.value.us
  {
  }

  lemma LastEndStep(bars: seq<CompletedMarketBar>, i: nat, symbol: string)
    requires i < |bars|
    ensures LastEnd(bars, i + 1, symbol)
            == if bars[i].symbol == symbol && bars[i].endedAt.Some? then bars[i].endedAt else LastEnd(bars, i, symbol)
  {
  }

  lemma NothingNoted(bars: seq<CompletedMarketBar>, decisionTime: Time, interval: int)
    ensures forall c :: !Noted(bars, 0, c, decisionTime, interval)
    ensures forall s :: LastEnd(bars, 0, s).None?
  {
  }

  lemma ReportedSplit(bars: seq<CompletedMarketBar>, decisionTime: Time, interval: int, lagSeconds: int, hostOffset: int)
    ensures forall c :: Reported(bars, c, decisionTime, interval, lagSeconds, hostOffset) <==>
              || Noted(bars, |bars|, c, decisionTime, interval)
              || (c.LatestCompletedBarStale? && IsStale(bars, c.symbol, decisionTime, lagSeconds, hostOffset))
    ensures decisionTime.Naive? ==> forall s :: !IsStale(bars, s, decisionTime, lagSeconds, hostOffset)
  {
  }

  method StaleSymbols(bars: seq<CompletedMarketBar>, order: seq<string>, lastEnd: map<string, Time>, decisionTime: Time,
                      maximumLag: int, hostOffset: int) returns (reasons: seq<BarReason>)
    requires decisionTime.Aware? && forall s :: s in order <==> s in lastEnd
    requires forall s :: LastEnd(bars, |bars|, s) == if s in lastEnd then Some(lastEnd[s]) else None
    ensures forall c :: c in reasons <==>
              c.LatestCompletedBarStale? && IsStale(bars, c.symbol, decisionTime, maximumLag, hostOffset)
  {
    reasons := [];
    for i := 0 to |order|
      invariant forall c :: c in reasons <==>
                  && c.LatestCompletedBarStale? && c.symbol in order[..i]
                  && IsStale(bars, c.symbol, decisionTime, maximumLag, hostOffset)
    {
      var symbol := order[i];
      var lag := decisionTime.us - Utc(lastEnd[symbol], hostOffset);
      assert IsStale(bars, symbol, decisionTime, maximumLag, hostOffset) <==> lag > maximumLag * SECOND;
      reasons := reasons + Note(lag > maximumLag * SECOND, LatestCompletedBarStale(symbol));
      hide IsStale, Utc;
      assert order[..i + 1] == order[..i] + [symbol];
    }
    assert order[..|order|] == order;
  }

  lemma {:induction false} LastEndIsSome(bars: seq<CompletedMarketBar>, n: nat, symbol: string)
    requires n <= |bars| && LastEnd(bars, n, symbol).Some?
    ensures exists i :: 0 <= i < n && bars[i].symbol == symbol && bars[i].endedAt == LastEnd(bars, n, symbol)
  {
    if !(bars[n - 1].symbol == symbol && bars[n - 1].endedAt.Some?) {
      LastEndIsSome(bars, n - 1, symbol);
    }
  }

  /** What one more bar adds to the reported reasons. */
  lemma NotedStep(bars: seq<CompletedMarketBar>, i: nat, decisionTime: Time, interval: int, duplicate: bool, disorder: bool,
                  c: BarReason)
    requires i < |bars|
    requires duplicate <==> exists j :: 0 <= j < i && bars[j].symbol == bars[i].symbol && bars[j].endedAt == bars[i].endedAt
    requires disorder <==> StepsBack(bars, i)
    ensures Noted(bars, i + 1, c, decisionTime, interval) <==>
              || Noted(bars, i, c, decisionTime, interval)
              || c in ValidateCompletedBar(bars[i], decisionTime, interval)
              || (duplicate && c == Duplicate(bars[i].symbol))
              || (disorder && c == OutOfOrder(bars[i].symbol))
  {
    hide ValidateCompletedBar, StepsBack, HasDuplicate;
    FaultsAreFaults(bars[i], decisionTime, interval);
    match c
    case Duplicate(symbol) => DuplicateStep(bars, i, symbol);
    case OutOfOrder(symbol) =>
      assert HasDisorder(bars, i + 1, symbol) <==>
             HasDisorder(bars, i, symbol) || (bars[i].symbol == symbol && StepsBack(bars, i));
    case LatestCompletedBarStale(_) =>
    case _ =>
      assert HasFault(bars, i + 1, c, decisionTime, interval) <==>
             HasFault(bars, i, c, decisionTime, interval) || c in ValidateCompletedBar(bars[i], decisionTime, interval);
  }

  lemma DuplicateStep(bars: seq<CompletedMarketBar>, i: nat, symbol: string)
    requires i < |bars|
    ensures HasDuplicate(bars, i + 1, symbol) <==>
            || HasDuplicate(bars, i, symbol)
            || (&& bars[i].symbol == symbol
                && exists j :: 0 <= j < i && bars[j].symbol == symbol && bars[j].endedAt == bars[i].endedAt)
  {
  }

  predicate IsFault(c: BarReason) {
    !c.Duplicate? && !c.OutOfOrder? && !c.LatestCompletedBarStale?
  }

  /** A single bar is never reported as a duplicate, out of order or stale. */
  lemma FaultsAreFaults(bar: CompletedMarketBar, decisionTime: Time, interval: int)
    ensures forall c :: c in ValidateCompletedBar(bar, decisionTime, interval) ==> IsFault(c)
  {
    hide Note;
  }

  // -------------------------------------------------------- the sound bar set

  /** One bar with complete, consistent provenance that had closed by the decision. */
  predicate BarSound(bar: CompletedMarketBar, decision: int, interval: int) {
    && bar.startedAt.Some? && bar.endedAt.Some? && bar.receivedAt.Some?
    && bar.startedAt.value.Aware? && bar.endedAt.value.Aware? && bar.receivedAt.value.Aware?
    && bar.completed == Some(true) && bar.intervalMinutes == Some(interval)
    && bar.endedAt.value.us == bar.startedAt.value.us + interval * MINUTE
    && bar.startedAt.value.us < bar.endedAt.value.us <= bar.receivedAt.value.us
    && (bar.sourceUpdatedAt.Some? ==>
          && bar.sourceUpdatedAt.value.Aware?
          && bar.endedAt.value.us <= bar.sourceUpdatedAt.value.us <= bar.receivedAt.value.us)
    && bar.endedAt.value.us <= decision
  }

  /** Sound bars, strictly increasing within each symbol, whose newest ends are fresh. */
  ghost predicate BarSetSound(bars: seq<CompletedMarketBar>, decision: int, interval: int, lagSeconds: int) {
    && (forall i :: 0 <= i < |bars| ==> BarSound(bars[i], decision, interval))
    && (forall i, j :: 0 <= i < j < |bars| && bars[i].symbol == bars[j].symbol
          ==> bars[i].endedAt.value.us < bars[j].endedAt.value.us)
    && (forall i :: 0 <= i < |bars| && (forall j :: i < j < |bars| ==> bars[j].symbol != bars[i].symbol)
          ==> decision - bars[i].endedAt.value.us <= lagSeconds * SECOND)
  }

  lemma NoFaultsIff(bar: CompletedMarketBar, decision: int, interval: int)
    ensures ValidateCompletedBar(bar, Aware(decision), interval) == [] <==> BarSound(bar, decision, interval)
  {
  }

  /** A fault of one bar, on its own terms; a bar is measured only when its decision and all its times are zoned. */
  predicate Faulty(bar: CompletedMarketBar, c: BarReason, decision: Time, interval: int) {
    var timed := bar.startedAt.Some? && bar.endedAt.Some? && bar.receivedAt.Some?;
    var zoned := timed && bar.startedAt.value.Aware? && bar.endedAt.value.Aware? && bar.receivedAt.value.Aware?
                 && (bar.sourceUpdatedAt.Some? ==> bar.sourceUpdatedAt.value.Aware?);
    match c
    case TimeMetadataMissing(s) => s == bar.symbol && !timed
    case TimeNotTimezoneAware(s) => s == bar.symbol && timed && !zoned
    case DecisionTimeNotTimezoneAware => zoned && decision.Naive?
    case NotCompleted(s) => s == bar.symbol && zoned && decision.Aware? && (bar.completed.None? || !bar.completed.value)
    case IntervalInvalid(s) => s == bar.symbol && zoned && decision.Aware? && !(bar.intervalMinutes.Some? && bar.intervalMinutes.value == interval)
    case DurationInvalid(s) =>
      s == bar.symbol && zoned && decision.Aware? && bar.endedAt.value.us != bar.startedAt.value.us + interval * 60_000_000
    case TimelineInvalid(s) =>
      s == bar.symbol && zoned && decision.Aware?
      && (bar.endedAt.value.us <= bar.startedAt.value.us || bar.receivedAt.value.us < bar.endedAt.value.us)
    case SourceTimelineInvalid(s) =>
      s == bar.symbol && zoned && decision.Aware? && bar.sourceUpdatedAt.Some?
      && (bar.sourceUpdatedAt.value.us < bar.endedAt.value.us || bar.receivedAt.value.us < bar.sourceUpdatedAt.value.us)
    case FromFuture(s) => s == bar.symbol && zoned && decision.Aware? && decision.us < bar.endedAt.value.us
    case Duplicate(_) => false
    case OutOfOrder(_) => false
    case LatestCompletedBarStale(_) => false
  }

  lemma FaultyIff(bar: CompletedMarketBar, c: BarReason, decision: Time, interval: int)
    ensures c in ValidateCompletedBar(bar, decision, interval) <==> Faulty(bar, c, decision, interval)
  {
    hide Note;
  }

  /** The newest ended bar of a symbol, by position. */
  ghost predicate EndsLast(bars: seq<CompletedMarketBar>, n: nat, symbol: string, i: int)
    requires n <= |bars|
  {
    0 <= i < n && bars[i].symbol == symbol && bars[i].endedAt.Some?
    && forall j :: i < j < n && bars[j].symbol == symbol ==> bars[j].endedAt.None?
  }

  lemma {:induction false} LastEndIs(bars: seq<CompletedMarketBar>, n: nat, symbol: string, end: Time)
    requires n <= |bars|
    ensures LastEnd(bars, n, symbol) == Some(end) <==> exists i :: EndsLast(bars, n, symbol, i) && bars[i].endedAt == Some(end)
  {
    if n > 0 && !(bars[n - 1].symbol == symbol && bars[n - 1].endedAt.Some?) {
      LastEndIs(bars, n - 1, symbol, end);
      assert forall i :: 0 <= i < n - 1 ==> (EndsLast(bars, n, symbol, i) <==> EndsLast(bars, n - 1, symbol, i));
      assert !EndsLast(bars, n, symbol, n - 1);
    } else if n > 0 {
      assert EndsLast(bars, n, symbol, n - 1);
    }
  }

  /** The symbol's newest end is read in the host's zone when it has none, and lies further back than the lag allows. */
  lemma StaleIff(bars: seq<CompletedMarketBar>, symbol: string, decision: Time, lagSeconds: int, hostOffset: int)
    ensures IsStale(bars, symbol, decision, lagSeconds, hostOffset) <==>
              && decision.Aware?
              && exists i :: EndsLast(bars, |bars|, symbol, i)
                   && var end := bars[i].endedAt.value;
                      decision.us - (if end.Naive? then end.us - hostOffset else end.us) > lagSeconds * 1_000_000
  {
    forall end: Time ensures LastEnd(bars, |bars|, symbol) == Some(end)
                             <==> exists i :: EndsLast(bars, |bars|, symbol, i) && bars[i].endedAt == Some(end) {
      LastEndIs(bars, |bars|, symbol, end);
    }
    hide LastEnd;
  }

  lemma {:induction false} LastEndOfSound(bars: seq<CompletedMarketBar>, n: nat, symbol: string)
    requires n <= |bars| && forall i :: 0 <= i < n ==> bars[i].endedAt.Some?
    ensures LastEnd(bars, n, symbol).None? ==> forall i :: 0 <= i < n ==> bars[i].symbol != symbol
    ensures LastEnd(bars, n, symbol).Some? ==>
              exists i :: 0 <= i < n && bars[i].symbol == symbol && bars[i].endedAt == LastEnd(bars, n, symbol)
                          && forall j :: i < j < n ==> bars[j].symbol != symbol
  {
    if n > 0 && bars[n - 1].symbol != symbol {
      LastEndOfSound(bars, n - 1, symbol);
    }
  }

  /** When no bar steps back, a symbol's ends increase over any distance. */
  lemma {:induction false} NoStepsBack(bars: seq<CompletedMarketBar>, i: nat, j: nat)
    requires i < j < |bars| && bars[i].symbol == bars[j].symbol
    requires forall k :: 0 <= k < |bars| ==> bars[k].endedAt.Some? && !StepsBack(bars, k)
    ensures bars[i].endedAt.value.us < bars[j].endedAt.value.us
    decreases j
  {
    hide StepsBack, LastEnd;
    LastEndOfSound(bars, j, bars[j].symbol);
    StepsBackIff(bars, j);
    assert !StepsBack(bars, j);
    var previous :| 0 <= previous < j && bars[previous].symbol == bars[j].symbol
                    && bars[previous].endedAt == LastEnd(bars, j, bars[j].symbol)
                    && forall k :: previous < k < j ==> bars[k].symbol != bars[j].symbol;
    if i < previous {
      NoStepsBack(bars, i, previous);
    }
  }

  /** The validator is silent, at a zoned decision time, exactly on sound bar sets. */
  lemma NoReasonsIff(bars: seq<CompletedMarketBar>, decision: int, interval: int, lagSeconds: int, hostOffset: int)
    ensures (forall c :: !Reported(bars, c, Aware(decision), interval, lagSeconds, hostOffset))
            <==> BarSetSound(bars, decision, interval, lagSeconds)
  {
    if forall c :: !Reported(bars, c, Aware(decision), interval, lagSeconds, hostOffset) {
      SilentIsSound(bars, decision, interval, lagSeconds, hostOffset);
    }
    if BarSetSound(bars, decision, interval, lagSeconds) {
      forall c ensures !Reported(bars, c, Aware(decision), interval, lagSeconds, hostOffset) {
        SoundIsSilent(bars, decision, interval, lagSeconds, hostOffset, c);
      }
    }
  }

  lemma SilentIsSound(bars: seq<CompletedMarketBar>, decision: int, interval: int, lagSeconds: int, hostOffset: int)
    requires forall c :: !Reported(bars, c, Aware(decision), interval, lagSeconds, hostOffset)
    ensures BarSetSound(bars, decision, interval, lagSeconds)
  {
    forall i | 0 <= i < |bars| ensures BarSound(bars[i], decision, interval) {
      SilentBarSound(bars, i, decision, interval, lagSeconds, hostOffset);
    }
    forall k | 0 <= k < |bars| ensures bars[k].endedAt.Some? && !StepsBack(bars, k) {
      assert !Reported(bars, OutOfOrder(bars[k].symbol), Aware(decision), interval, lagSeconds, hostOffset);
    }
    forall i | 0 <= i < |bars| && (forall j :: i < j < |bars| ==> bars[j].symbol != bars[i].symbol)
      ensures decision - bars[i].endedAt.value.us <= lagSeconds * SECOND
    {
      assert BarSound(bars[i], decision, interval);
      assert !Reported(bars, LatestCompletedBarStale(bars[i].symbol), Aware(decision), interval, lagSeconds, hostOffset);
      NewestEnd(bars, i);
    }
    hide Reported, BarSound, StepsBack;
    forall i, j | 0 <= i < j < |bars| && bars[i].symbol == bars[j].symbol
      ensures bars[i].endedAt.value.us < bars[j].endedAt.value.us
    {
      NoStepsBack(bars, i, j);
    }
  }

  lemma NewestEnd(bars: seq<CompletedMarketBar>, i: nat)
    requires i < |bars| && forall k :: 0 <= k < |bars| ==> bars[k].endedAt.Some?
    requires forall j :: i < j < |bars| ==> bars[j].symbol != bars[i].symbol
    ensures LastEnd(bars, |bars|, bars[i].symbol) == bars[i].endedAt
  {
    LastEndOfSound(bars, |bars|, bars[i].symbol);
    hide LastEnd;
  }

  lemma SilentBarSound(bars: seq<CompletedMarketBar>, i: nat, decision: int, interval: int, lagSeconds: int, hostOffset: int)
    requires i < |bars| && forall c :: !Reported(bars, c, Aware(decision), interval, lagSeconds, hostOffset)
    ensures BarSound(bars[i], decision, interval)
  {
    NoFaultsIff(bars[i], decision, interval);
    FaultsAreFaults(bars[i], Aware(decision), interval);
    hide ValidateCompletedBar, BarSound;
    var faults := ValidateCompletedBar(bars[i], Aware(decision), interval);
    if faults != [] {
      assert faults[0] in faults;
      FaultIsReported(bars, i, faults[0], Aware(decision), interval, lagSeconds, hostOffset);
    }
  }

  lemma FaultIsReported(bars: seq<CompletedMarketBar>, i: nat, c: BarReason, decisionTime: Time, interval: int,
                        lagSeconds: int, hostOffset: int)
    requires i < |bars| && c in ValidateCompletedBar(bars[i], decisionTime, interval)
    ensures Reported(bars, c, decisionTime, interval, lagSeconds, hostOffset)
  {
    FaultsAreFaults(bars[i], decisionTime, interval);
    hide ValidateCompletedBar;
    assert HasFault(bars, |bars|, c, decisionTime, interval);
  }

  lemma SoundIsSilent(bars: seq<CompletedMarketBar>, decision: int, interval: int, lagSeconds: int, hostOffset: int, c: BarReason)
    requires BarSetSound(bars, decision, interval, lagSeconds)
    ensures !Reported(bars, c, Aware(decision), interval, lagSeconds, hostOffset)
  {
    assert forall i :: 0 <= i < |bars| ==> BarSound(bars[i], decision, interval);
    match c
    case Duplicate(symbol) =>
    case OutOfOrder(symbol) =>
      forall j | 0 <= j < |bars| && bars[j].symbol == symbol ensures !StepsBack(bars, j) {
        LastEndOfSound(bars, j, symbol);
      }
    case LatestCompletedBarStale(symbol) =>
      LastEndOfSound(bars, |bars|, symbol);
    case _ =>
      forall i | 0 <= i < |bars| ensures c !in ValidateCompletedBar(bars[i], Aware(decision), interval) {
        NoFaultsIff(bars[i], decision, interval);
      }
      hide ValidateCompletedBar;
  }
}
