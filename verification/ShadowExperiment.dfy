/** The experiment report over all days: what counts as strategy performance, and what is quarantined. */
module ShadowExperiment {
  import opened Common
  import opened SessionLog
  import opened SessionText
  import opened ShadowReview
  import opened Performance
  import P = ShadowPipeline

  datatype Day = Day(date: int, files: seq<seq<Line>>)

  datatype ReportError = NoDatedLogs | Unreadable(log: InvalidLog) | MissingRecordedAt | ZeroInitialCapital

  datatype Thresholds = Thresholds(minimumDays: int, minimumTrades: int, minimumProfitFactor: real, maximumDrawdownPct: real)

  datatype Gates = Gates(
    shadowDays: bool, completedTrades: bool, positiveNet: bool, profitFactor: bool, drawdown: bool, noErrors: bool,
    noViolations: bool, noPilots: bool, noUnauthorized: bool, authorized: bool)

  datatype Report = Report(
    startDate: int, endDate: int, observedDays: int, eligibleDays: int, trades: int, pilotDecisions: int,
    unauthorizedSessions: int, authorized: bool, errors: int, violations: int, net: real, grossProfit: real, grossLoss: real,
    profitFactor: Option<real>, drawdown: real, drawdownPct: real, gates: Gates)

  // ---------------------------------------------------------- specification

  predicate IsDecision(line: Line) {
    line.Json? && line.kind == Some(DECISION_RECORDED)
  }

  predicate IsExit(line: Line) {
    line.Json? && line.kind == Some(EXITED)
  }

  predicate Marked(line: Line) {
    line.Json? && line.payload.Some? && P.PILOT_NOT_STRATEGY_EVIDENCE in line.payload.value.reasons
  }

  /** Whether the newest decision of a session is marked as a pilot's. */
  predicate PilotSession(lines: seq<Line>) {
    lines != [] &&
    if IsDecision(lines[|lines| - 1]) then Marked(lines[|lines| - 1]) else PilotSession(lines[..|lines| - 1])
  }

  ghost predicate Timed(lines: seq<Line>) {
    forall i :: 0 <= i < |lines| && IsExit(lines[i]) ==> lines[i].recordedAt.Some?
  }

  function ExitTrade(line: Line): Trade
    requires line.Json? && line.recordedAt.Some? && line.payload.Some? && line.payload.value.pnl.Some?
  {
    Trade(line.recordedAt.value, line.payload.value.pnl.value)
  }

  /** The exits of a readable session, with the times they were recorded at. */
  function Exits(lines: seq<Line>): seq<Trade> {
    if lines == [] then []
    else
      var last := lines[|lines| - 1];
      if IsExit(last) && last.recordedAt.Some? && last.payload.Some? && last.payload.value.pnl.Some?
      then Exits(lines[..|lines| - 1]) + [ExitTrade(last)]
      else Exits(lines[..|lines| - 1])
  }

  /** The trades of the sessions that count: none without authorization, and never a pilot's. */
  function Performing(files: seq<seq<Line>>, authorized: bool): seq<Trade> {
    if files == [] then []
    else
      var lines := files[|files| - 1];
      if PilotSession(lines) || !authorized then Performing(files[..|files| - 1], authorized)
      else Performing(files[..|files| - 1], authorized) + Exits(lines)
  }

  function Unauthorized(files: seq<seq<Line>>, authorized: bool): int {
    if files == [] then 0
    else Unauthorized(files[..|files| - 1], authorized) + Bit(!authorized && !PilotSession(files[|files| - 1]))
  }

  /** Net result of the quarantined pilot sessions. */
  function PilotNet(files: seq<seq<Line>>): real {
    if files == [] then 0.0
    else PilotNet(files[..|files| - 1]) + (if PilotSession(files[|files| - 1]) then FileTally(files[|files| - 1]).trades.net else 0.0)
  }

  ghost predicate DayReadable(files: seq<seq<Line>>) {
    forall k :: 0 <= k < |files| ==> Readable(files[k]) && Timed(files[k])
  }

  /** What the days add up to. */
  datatype Totals = Totals(eligible: int, pilots: int, errors: int, violations: int, unauthorized: int, performing: seq<Trade>)

  function DayTotals(day: Day, authorized: bool): Totals {
    var t := DayTally(day.files);
    Totals(Bit(EvidenceEligible(|day.files|, t)), t.decisions.pilots, t.endings.errors, t.decisions.hard,
           Unauthorized(day.files, authorized), Performing(day.files, authorized))
  }

  function AddTotals(a: Totals, b: Totals): Totals {
    Totals(a.eligible + b.eligible, a.pilots + b.pilots, a.errors + b.errors, a.violations + b.violations,
           a.unauthorized + b.unauthorized, a.performing + b.performing)
  }

  function AllTotals(days: seq<Day>, authorized: bool): Totals {
    if days == [] then Totals(0, 0, 0, 0, 0, [])
    else AddTotals(AllTotals(days[..|days| - 1], authorized), DayTotals(days[|days| - 1], authorized))
  }

  /** What a completed report says. */
  ghost predicate Reports(days: seq<Day>, authorized: bool, capital: real, th: Thresholds, r: Report)
    requires days != [] && capital != 0.0
  {
    var t := AllTotals(days, authorized);
    var values := Net(Chronological(t.performing));
    && r.startDate == days[0].date && r.endDate == days[|days| - 1].date && r.observedDays == |days|
    && r.eligibleDays == t.eligible && r.trades == |t.performing| && r.pilotDecisions == t.pilots
    && r.unauthorizedSessions == t.unauthorized && r.authorized == authorized && r.errors == t.errors
    && r.violations == t.violations && r.net == Sum(Net(t.performing)) && r.grossProfit - r.grossLoss == r.net
    && r.grossProfit == GrossProfit(values) && r.profitFactor == ProfitFactor(values)
    && IsDrawdown(values, r.drawdown) && r.drawdownPct == r.drawdown / capital * 100.0
    && r.gates == Gates(th.minimumDays <= t.eligible, th.minimumTrades <= |t.performing|, 0.0 < r.net,
                        r.profitFactor.Some? && th.minimumProfitFactor <= r.profitFactor.value,
                        r.drawdownPct <= th.maximumDrawdownPct, t.errors == 0, t.violations == 0, t.pilots == 0,
                        t.unauthorized == 0, authorized)
  }

  // ----------------------------------------------------------------- report

  /** Reads one session: its exits, and whether it was a pilot's. */
  method ReadSession(lines: seq<Line>) returns (r: Result<(seq<Trade>, bool), ReportError>)
    requires Readable(lines)
    ensures r.Success? <==> Timed(lines)
    ensures r.Success? ==> r.value == (Exits(lines), PilotSession(lines))
    ensures r.Failure? ==> r.error == MissingRecordedAt
  {
    var exits: seq<Trade> := [];
    var pilot := false;
    for i := 0 to |lines|
      invariant forall j :: 0 <= j < i && IsExit(lines[j]) ==> lines[j].recordedAt.Some?
      invariant exits == Exits(lines[..i]) && pilot == PilotSession(lines[..i])
    {
      var line := lines[i];
      assert LineFault(line, i + 1).None?;
      assert lines[..i + 1][..i] == lines[..i];
      if IsDecision(line) {
        pilot := Marked(line);
      }
      if IsExit(line) {
        if line.recordedAt.None? {
          return Failure(MissingRecordedAt);
        }
        exits := exits + [ExitTrade(line)];
      }
    }
    assert lines[..|lines|] == lines;
    return Success((exits, pilot));
  }

  /** One day's review, and the trades of its sessions that count. */
  method ReadDay(day: Day, authorized: bool) returns (r: Result<Totals, ReportError>)
    ensures r.Success? <==> DayReadable(day.files)
    ensures r.Success? ==> r.value == DayTotals(day, authorized)
    ensures r.Failure? ==> r.error.Unreadable? || r.error == MissingRecordedAt
  {
    hide DayTally, Readable, Timed, Exits, PilotSession;
    var review := ReviewShadowDay(day.files);
    if review.Failure? {
      return Failure(Unreadable(review.error));
    }
    var t := review.value;
    var unauthorized := 0;
    var performing: seq<Trade> := [];
    for k := 0 to |day.files|
      invariant forall j :: 0 <= j < k ==> Timed(day.files[j])
      invariant unauthorized == Unauthorized(day.files[..k], authorized)
      invariant performing == Performing(day.files[..k], authorized)
    {
      assert day.files[..k + 1][..k] == day.files[..k];
      var session := ReadSession(day.files[k]);
      if session.Failure? {
        return Failure(session.error);
      }
      var (exits, pilot) := session.value;
      if pilot {
        continue;
      }
      if !authorized {
        unauthorized := unauthorized + 1;
        continue;
      }
      performing := performing + exits;
    }
    assert day.files[..|day.files|] == day.files;
    return Success(Totals(Bit(EvidenceEligible(|day.files|, t)), t.decisions.pilots, t.endings.errors, t.decisions.hard,
                          unauthorized, performing));
  }

  method ReadDays(days: seq<Day>, authorized: bool) returns (r: Result<Totals, ReportError>)
    ensures r.Success? <==> forall k :: 0 <= k < |days| ==> DayReadable(days[k].files)
    ensures r.Success? ==> r.value == AllTotals(days, authorized)
    ensures r.Failure? ==> r.error.Unreadable? || r.error == MissingRecordedAt
  {
    hide DayReadable, DayTotals;
    var t := Totals(0, 0, 0, 0, 0, []);
    for k := 0 to |days|
      invariant t == AllTotals(days[..k], authorized) && forall j :: 0 <= j < k ==> DayReadable(days[j].files)
    {
      assert days[..k + 1][..k] == days[..k];
      var day := ReadDay(days[k], authorized);
      if day.Failure? {
        return Failure(day.error);
      }
      t := AddTotals(t, day.value);
    }
    assert days[..|days|] == days;
    return Success(t);
  }

  method BuildShadowExperimentReport(days: seq<Day>, authorized: bool, capital: real, th: Thresholds) returns (r: Result<Report, ReportError>)
    ensures r.Success? <==> days != [] && capital != 0.0 && forall k :: 0 <= k < |days| ==> DayReadable(days[k].files)
    ensures r.Success? ==> Reports(days, authorized, capital, th, r.value)
  {
    hide AllTotals, DayReadable, Chronological, Net, Sum, Gains, Losses, IsDrawdown;
    if days == [] {
      return Failure(NoDatedLogs);
    }
    var read := ReadDays(days, authorized);
    if read.Failure? {
      return Failure(read.error);
    }
    var t := read.value;
    var values := Net(Chronological(t.performing));
    var grossProfit, grossLoss := Sum(Gains(values)), -Sum(Losses(values));
    var net := Sum(values);
    NetOfChronological(t.performing);
    GrossNet(values);
    var factor := if 0.0 < grossLoss then Some(grossProfit / grossLoss) else None;
    var drawdown := MaximumDrawdown(values, capital);
    if capital == 0.0 {
      return Failure(ZeroInitialCapital);
    }
    var pct := drawdown / capital * 100.0;
    var gates := Gates(t.eligible >= th.minimumDays, |t.performing| >= th.minimumTrades, net > 0.0,
                       factor.Some? && factor.value >= th.minimumProfitFactor, pct <= th.maximumDrawdownPct,
                       t.errors == 0, t.violations == 0, t.pilots == 0, t.unauthorized == 0, authorized);
    return Success(Report(days[0].date, days[|days| - 1].date, |days|, t.eligible, |t.performing|, t.pilots, t.unauthorized,
                          authorized, t.errors, t.violations, net, grossProfit, grossLoss, factor, drawdown, pct, gates));
  }

  // ------------------------------------------------------------ conservation

  lemma NetConcat(a: seq<Trade>, b: seq<Trade>)
    ensures Sum(Net(a + b)) == Sum(Net(a)) + Sum(Net(b))
  {
    assert Net(a + b) == Net(a) + Net(b);
    SumConcat(Net(a), Net(b));
  }

  lemma LastIsReadable(lines: seq<Line>)
    requires lines != [] && Readable(lines) && Timed(lines)
    ensures var last := lines[|lines| - 1];
            && last.Json? && last.payload.Some?
            && (IsExit(last) ==> last.recordedAt.Some? && last.payload.value.pnl.Some?)
  {
    assert LineFault(lines[|lines| - 1], |lines|).None?;
  }

  lemma ExitsStep(lines: seq<Line>)
    requires lines != [] && Readable(lines) && Timed(lines)
    ensures var front, last := lines[..|lines| - 1], lines[|lines| - 1];
            if IsExit(last) then
              && last.recordedAt.Some? && last.payload.Some? && last.payload.value.pnl.Some?
              && Exits(lines) == Exits(front) + [ExitTrade(last)]
            else Exits(lines) == Exits(front)
  {
    LastIsReadable(lines);
    hide Readable, Timed;
  }

  lemma AllButLast(lines: seq<Line>)
    requires lines != []
    ensures LinesTally(lines) == Plus(LinesTally(lines[..|lines| - 1]), LineTally(lines[|lines| - 1]))
  {
    hide Plus, LineTally;
  }

  lemma LineTradesOf(line: Line)
    requires line.Json? && line.payload.Some? && (IsExit(line) ==> line.payload.value.pnl.Some?)
    ensures var t := LineTally(line).trades;
            t.exits == Bit(IsExit(line)) && t.net == if IsExit(line) then line.payload.value.pnl.value else 0.0
  {
    hide LineDecisions, LineEndings;
  }

  lemma FrontReadable(lines: seq<Line>)
    requires lines != [] && Readable(lines) && Timed(lines)
    ensures Readable(lines[..|lines| - 1]) && Timed(lines[..|lines| - 1])
  {
    assert forall i :: 0 <= i < |lines| - 1 ==> lines[..|lines| - 1][i] == lines[i];
  }

  /** The trades read from a session carry exactly the result that its review counts. */
  lemma {:induction false} SessionNet(lines: seq<Line>)
    requires Readable(lines) && Timed(lines)
    ensures Sum(Net(Exits(lines))) == LinesTally(lines).trades.net
    ensures |Exits(lines)| == LinesTally(lines).trades.exits
  {
    if lines == [] {
      NothingNet();
    } else {
      FrontReadable(lines);
      hide Net, Sum, Readable, Timed, LinesTally, LineTally, Exits, PlusDecisions, PlusEndings;
      SessionNet(lines[..|lines| - 1]);
      ExitsStep(lines);
      LastIsReadable(lines);
      AllButLast(lines);
      LineTradesOf(lines[|lines| - 1]);
      if IsExit(lines[|lines| - 1]) {
        NetStep(Exits(lines));
        assert Exits(lines)[..|Exits(lines)| - 1] == Exits(lines[..|lines| - 1]);
      }
    }
  }

  /** With authorization, a day's counted and quarantined results are all of its result. */
  lemma {:induction false} DayConserves(files: seq<seq<Line>>)
    requires DayReadable(files)
    ensures Sum(Net(Performing(files, true))) + PilotNet(files) == DayTally(files).trades.net
  {
    if files != [] {
      var front, lines := files[..|files| - 1], files[|files| - 1];
      hide Readable, Timed, LinesTally, Exits, Net, Sum, PilotSession, FileTally;
      DayConserves(front);
      assert Readable(lines) && Timed(lines);
      SessionNet(lines);
      FileParts(lines);
      NetConcat(Performing(front, true), Exits(lines));
    } else {
      assert Net([]) == [];
    }
  }

  function ReviewedNet(days: seq<Day>): real {
    if days == [] then 0.0 else ReviewedNet(days[..|days| - 1]) + DayTally(days[|days| - 1].files).trades.net
  }

  function QuarantinedNet(days: seq<Day>): real {
    if days == [] then 0.0 else QuarantinedNet(days[..|days| - 1]) + PilotNet(days[|days| - 1].files)
  }

  lemma {:induction false} DaysConserve(days: seq<Day>)
    requires forall k :: 0 <= k < |days| ==> DayReadable(days[k].files)
    ensures Sum(Net(AllTotals(days, true).performing)) + QuarantinedNet(days) == ReviewedNet(days)
  {
    hide Net, Sum, Performing, PilotNet, DayTally, DayReadable;
    if days != [] {
      var front, day := days[..|days| - 1], days[|days| - 1];
      DaysConserve(front);
      DayConserves(day.files);
      NetConcat(AllTotals(front, true).performing, Performing(day.files, true));
    } else {
      NothingNet();
    }
  }

  lemma NothingNet()
    ensures Sum(Net([])) == 0.0
  {
    assert Net([]) == [];
  }

  /**
    No money is lost between the daily reviews and the report: under formal
    authorization its net result and the quarantined pilot results add up to theirs.
   */
  lemma ReportConserves(days: seq<Day>, capital: real, th: Thresholds, r: Report)
    requires days != [] && capital != 0.0 && forall k :: 0 <= k < |days| ==> DayReadable(days[k].files)
    requires Reports(days, true, capital, th, r)
    ensures r.net + QuarantinedNet(days) == ReviewedNet(days)
  {
    hide DayReadable, AllTotals, QuarantinedNet, ReviewedNet, Net, Sum, IsDrawdown, Chronological;
    DaysConserve(days);
  }

  lemma {:induction false} NothingPerforms(days: seq<Day>)
    ensures AllTotals(days, false).performing == []
  {
    if days != [] {
      NothingPerforms(days[..|days| - 1]);
      DayDoesNotPerform(days[|days| - 1].files);
    }
  }

  lemma {:induction false} DayDoesNotPerform(files: seq<seq<Line>>)
    ensures Performing(files, false) == []
  {
    if files != [] {
      DayDoesNotPerform(files[..|files| - 1]);
    }
  }

  /** Without authorization nothing counts, and no report passes all its gates. */
  lemma UnauthorizedCountsNothing(days: seq<Day>, capital: real, th: Thresholds, r: Report)
    requires days != [] && capital != 0.0 && Reports(days, false, capital, th, r)
    ensures r.trades == 0 && r.net == 0.0 && !r.gates.authorized && !r.gates.positiveNet
  {
    NothingPerforms(days);
    NothingNet();
    hide AllTotals, IsDrawdown;
  }

  /** The report and the performance summary of the same trades agree, whatever the starting capital. */
  lemma SummaryAgrees(days: seq<Day>, capital: real, th: Thresholds, r: Report, s: Summary)
    requires days != [] && capital != 0.0 && Reports(days, true, capital, th, r)
    requires var trades := AllTotals(days, true).performing;
             s.net == Sum(Net(trades)) && IsDrawdown(Net(Chronological(trades)), s.drawdown)
             && s.profitFactor == ProfitFactor(Net(Chronological(trades)))
    ensures r.net == s.net && r.drawdown == s.drawdown && r.profitFactor == s.profitFactor
  {
    hide AllTotals, Net, Sum, IsDrawdown, Chronological, ProfitFactor;
    DrawdownIsDetermined(Net(Chronological(AllTotals(days, true).performing)), r.drawdown, s.drawdown);
  }

  // ---------------------------------------------- agreement with the writer

  lemma {:induction false} WholePilotIff(s: P.Settings, log: seq<Event>)
    requires Sound(s, log)
    ensures PilotSession(WholeLog(log)) <==> s.pilotMode && 0 < Candidates(log)
  {
    if log != [] {
      var front, e := log[..|log| - 1], log[|log| - 1];
      WholePilotIff(s, front);
      hide Sound, WholeLog, Candidates;
      EncodeStep(log);
      EncodedFlags(e);
      MarkedIff(s, log);
      CandidatesStep(s, log);
      PilotStep(WholeLog(log));
    }
  }

  /** A writer's session reads as a pilot's exactly when a pilot session decided to enter. */
  lemma PilotIff(s: P.Settings, h: Header, log: seq<Event>)
    requires Sound(s, log) && LogUnbroken(h, log)
    ensures PilotSession(EncodeLog(h, log)) <==> s.pilotMode && 0 < Candidates(log)
  {
    hide Sound, LogUnbroken, EncodeLog, WholeLog, Candidates, PilotSession;
    UnbrokenIsWhole(h, log);
    WholePilotIff(s, log);
  }

  lemma PilotStep(lines: seq<Line>)
    requires lines != []
    ensures PilotSession(lines) == if IsDecision(lines[|lines| - 1]) then Marked(lines[|lines| - 1]) else PilotSession(lines[..|lines| - 1])
  {
  }

  lemma EncodedFlags(e: Event)
    ensures IsDecision(Encode(e)) <==> e.payload.Recorded?
    ensures e.payload.Recorded? ==> (Marked(Encode(e)) <==> P.PILOT_NOT_STRATEGY_EVIDENCE in e.payload.decision.reasons)
  {
  }

  /** No decision follows the decision to enter. */
  lemma CandidatesStep(s: P.Settings, log: seq<Event>)
    requires log != [] && Sound(s, log)
    ensures Candidates(log) == Candidates(log[..|log| - 1]) + (if Due(log) then 1 else 0)
    ensures log[|log| - 1].payload.Recorded? ==> Candidates(log[..|log| - 1]) == 0
  {
    var front := log[..|log| - 1];
    assert EventSound(s, front, log[|log| - 1]);
    CandidatesAreWorked(s, front);
    ReplayCounted(front);
    hide Sound, PayloadSound, Replay, Count;
  }

  /** A traded session is quarantined exactly when it ran in pilot mode. */
  lemma TradedPilotIsQuarantined(s: P.Settings, h: Header, log: seq<Event>)
    requires Sound(s, log) && LogUnbroken(h, log) && Count(log, EXITED) == 1
    ensures PilotSession(EncodeLog(h, log)) <==> s.pilotMode
  {
    AtMostOneTrade(s, log);
    PilotIff(s, h, log);
    hide Sound, EncodeLog, Count, Candidates, LogUnbroken;
  }

  lemma {:induction false} WholeIsTimed(log: seq<Event>)
    ensures Timed(WholeLog(log))
  {
  }

  /** The files of a writer's day stop the report exactly where they stop its review. */
  lemma WrittenDayReadable(settings: seq<P.Settings>, headers: seq<Header>, logs: seq<seq<Event>>)
    requires AllSound(settings, logs) && |headers| == |logs|
    ensures DayReadable(EncodeAll(headers, logs)) <==> DayUnbroken(headers, logs)
  {
    ReviewAgrees(settings, headers, logs);
    if DayUnbroken(headers, logs) {
      DayIsWhole(headers, logs);
      hide Readable, WholeLog, Timed;
      forall k | 0 <= k < |logs| ensures Timed(WholeAll(logs)[k]) {
        WholeIsTimed(logs[k]);
      }
    }
    hide AllSound, Agrees, Readable, Timed, DayTally;
  }
}
