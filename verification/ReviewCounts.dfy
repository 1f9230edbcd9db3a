/** The daily review and the experiment report as counts over the lines themselves. */
module ReviewCounts {
  import opened Common
  import opened SessionLog
  import opened ShadowReview
  import opened ShadowExperiment
  import opened Performance
  import P = ShadowPipeline

  // ----------------------------------------------------------------- counting

  function Number(lines: seq<Line>, p: Line -> bool): nat {
    |Filter(lines, p)|
  }

  lemma OneMore(lines: seq<Line>, last: Line, p: Line -> bool)
    ensures Number(lines + [last], p) == Number(lines, p) + if p(last) then 1 else 0
  {
    FilterConcat(lines, [last], p);
  }

  lemma NumberConcat(a: seq<Line>, b: seq<Line>, p: Line -> bool)
    ensures Number(a + b, p) == Number(a, p) + Number(b, p)
  {
    FilterConcat(a, b, p);
  }

  function Of(kind: EventType): Line -> bool {
    (l: Line) => l.Json? && l.payload.Some? && l.kind == Some(kind)
  }

  function Decided(status: P.PipelineStatus): Line -> bool {
    (l: Line) => l.Json? && l.payload.Some? && l.kind == Some(DECISION_RECORDED) && l.payload.value.status == Some(status)
  }

  function HardRule(): Line -> bool {
    (l: Line) => l.Json? && l.payload.Some? && l.kind == Some(DECISION_RECORDED) && l.payload.value.hardRule == Some(true)
  }

  /** An error line with a code; a line without one counts as unknown. */
  function Coded(code: ErrorCode): Line -> bool {
    (l: Line) => l.Json? && l.payload.Some? && l.kind == Some(SESSION_ERROR)
                 && (l.payload.value.reason == Some(code) || (l.payload.value.reason == None && code == UNKNOWN_REASON))
  }

  /** How often the decisions give a reason. */
  function Given(lines: seq<Line>, reason: P.Reason): nat {
    if lines == [] then 0
    else
      var last := lines[|lines| - 1];
      Given(lines[..|lines| - 1], reason) + if Of(DECISION_RECORDED)(last) then multiset(last.payload.value.reasons)[reason] else 0
  }

  /** What the exits brought in together. */
  function Earned(lines: seq<Line>): real {
    if lines == [] then 0.0
    else
      var last := lines[|lines| - 1];
      Earned(lines[..|lines| - 1]) + if Of(EXITED)(last) && last.payload.value.pnl.Some? then last.payload.value.pnl.value else 0.0
  }

  ghost predicate DecisionsCounted(d: Decisions, lines: seq<Line>) {
    && d.total == Number(lines, Of(DECISION_RECORDED))
    && d.noTrade == Number(lines, Decided(P.NO_ENTRY)) && d.rejected == Number(lines, Decided(P.REJECTED))
    && d.candidates == Number(lines, Decided(P.SIMULATED_ENTRY)) && d.hard == Number(lines, HardRule())
    && d.pilots == Given(lines, P.PILOT_NOT_STRATEGY_EVIDENCE)
    && forall r :: d.reasons[r] == Given(lines, r)
  }

  ghost predicate TradesCounted(t: Trades, lines: seq<Line>) {
    && t.fills == Number(lines, Of(ENTRY_FILLED)) && t.unfilled == Number(lines, Of(ENTRY_UNFILLED))
    && t.exits == Number(lines, Of(EXITED)) && t.net == Earned(lines)
  }

  ghost predicate ErrorsCounted(e: Endings, lines: seq<Line>) {
    && e.errors == Number(lines, Of(SESSION_ERROR)) && e.completed == 0
    && forall c :: e.codes[c] == Number(lines, Coded(c))
  }

  lemma {:induction false} LinesAreCounted(lines: seq<Line>)
    ensures var t := LinesTally(lines);
            DecisionsCounted(t.decisions, lines) && TradesCounted(t.trades, lines) && ErrorsCounted(t.endings, lines)
  {
    if lines != [] {
      var front, last := lines[..|lines| - 1], lines[|lines| - 1];
      assert lines == front + [last];
      LinesAreCounted(front);
      DecisionsStep(LinesTally(front).decisions, front, last);
      TradesStep(LinesTally(front).trades, front, last);
      ErrorsStep(LinesTally(front).endings, front, last);
      hide PlusDecisions, PlusTrades, PlusEndings, LineTally, DecisionsCounted, TradesCounted, ErrorsCounted;
    }
  }

  lemma DecisionsStep(d: Decisions, front: seq<Line>, last: Line)
    requires DecisionsCounted(d, front)
    ensures DecisionsCounted(PlusDecisions(d, LineTally(last).decisions), front + [last])
  {
    OneMore(front, last, Of(DECISION_RECORDED));
    OneMore(front, last, Decided(P.NO_ENTRY));
    OneMore(front, last, Decided(P.REJECTED));
    OneMore(front, last, Decided(P.SIMULATED_ENTRY));
    OneMore(front, last, HardRule());
    assert (front + [last])[..|front|] == front;
    hide Number, LineEndings, LineTrades;
  }

  lemma TradesStep(t: Trades, front: seq<Line>, last: Line)
    requires TradesCounted(t, front)
    ensures TradesCounted(PlusTrades(t, LineTally(last).trades), front + [last])
  {
    OneMore(front, last, Of(ENTRY_FILLED));
    OneMore(front, last, Of(ENTRY_UNFILLED));
    OneMore(front, last, Of(EXITED));
    assert (front + [last])[..|front|] == front;
    hide Number, LineEndings, LineDecisions;
  }

  lemma ErrorsStep(e: Endings, front: seq<Line>, last: Line)
    requires ErrorsCounted(e, front)
    ensures ErrorsCounted(PlusEndings(e, LineTally(last).endings), front + [last])
  {
    OneMore(front, last, Of(SESSION_ERROR));
    forall c ensures Number(front + [last], Coded(c)) == Number(front, Coded(c)) + if Coded(c)(last) then 1 else 0 {
      OneMore(front, last, Coded(c));
    }
    hide Number, LineTrades, LineDecisions;
  }

  // ----------------------------------------------------------------- the ending

  /** A line that ends its session, with an error or without. */
  predicate Ends(line: Line) {
    line.Json? && line.kind.Some? && line.kind.value in {ENTRY_UNFILLED, EXITED, SESSION_COMPLETED, SESSION_ERROR}
  }

  predicate Errs(line: Line) {
    line.Json? && line.kind == Some(SESSION_ERROR)
  }

  ghost predicate Unended(lines: seq<Line>) {
    forall j :: 0 <= j < |lines| ==> !Ends(lines[j])
  }

  /** The newest line that ends the session, by position. */
  ghost predicate EndsAt(lines: seq<Line>, i: int) {
    0 <= i < |lines| && Ends(lines[i]) && forall j :: i < j < |lines| ==> !Ends(lines[j])
  }

  /** A file's terminal state is that of its newest ending line; without such a line it has none. */
  lemma {:induction false} TerminalIs(lines: seq<Line>)
    ensures if Unended(lines) then Terminal(lines).None?
            else exists i :: EndsAt(lines, i) && Terminal(lines) == Some(if Errs(lines[i]) then ERROR else COMPLETE)
  {
    if lines != [] {
      var n := |lines| - 1;
      TerminalIs(lines[..n]);
      LastLine(Terminal(lines[..n]), lines[n]);
      hide Ends, Errs, TerminalAfter;
      if Ends(lines[n]) {
        assert EndsAt(lines, n);
      } else {
        EndingsIn(lines);
      }
    }
  }

  /** A last line that ends nothing leaves the newest ending where it was. */
  lemma EndingsIn(lines: seq<Line>)
    requires lines != [] && !Ends(lines[|lines| - 1])
    ensures var front := lines[..|lines| - 1];
            && (Unended(lines) <==> Unended(front))
            && forall i :: EndsAt(front, i) ==> EndsAt(lines, i) && lines[i] == front[i]
  {
    hide Ends;
  }

  lemma LastLine(before: Option<SessionState>, line: Line)
    ensures TerminalAfter(before, line) == if Ends(line) then Some(if Errs(line) then ERROR else COMPLETE) else before
  {
  }

  lemma EndsOnce(lines: seq<Line>, i: int, j: int)
    requires EndsAt(lines, i) && EndsAt(lines, j)
    ensures i == j
  {
  }

  /** A file ends complete when its newest ending line is no error. */
  ghost predicate Completes(lines: seq<Line>) {
    exists i :: EndsAt(lines, i) && !Errs(lines[i])
  }

  lemma ClosingIs(lines: seq<Line>)
    ensures var e := Closing(Terminal(lines)).endings;
            && e.completed == Bit(Completes(lines)) && e.errors == Bit(Unended(lines))
            && forall c :: e.codes[c] == Bit(Unended(lines) && c == NON_TERMINAL_SESSION_LOG)
    ensures var t := Closing(Terminal(lines)); t.decisions == NO_DECISIONS && t.trades == NO_TRADES
  {
    TerminalIs(lines);
    hide Terminal, Ends, Errs;
    if !Unended(lines) {
      var i :| EndsAt(lines, i) && Terminal(lines) == Some(if Errs(lines[i]) then ERROR else COMPLETE);
      forall j | EndsAt(lines, j) ensures i == j {
        EndsOnce(lines, i, j);
      }
      assert Completes(lines) <==> !Errs(lines[i]);
    } else {
      assert forall j :: !EndsAt(lines, j);
    }
  }

  // ------------------------------------------------------------------- the day

  function AllLines(files: seq<seq<Line>>): seq<Line> {
    if files == [] then [] else AllLines(files[..|files| - 1]) + files[|files| - 1]
  }

  /** How many files end in a way. */
  ghost function Files(files: seq<seq<Line>>, complete: bool): nat {
    if files == [] then 0
    else
      var last := files[|files| - 1];
      Files(files[..|files| - 1], complete) + if (if complete then Completes(last) else Unended(last)) then 1 else 0
  }

  /** Complete files, error lines, and an error with its code for every file that does not end at all. */
  ghost predicate EndingsCounted(e: Endings, lines: seq<Line>, complete: nat, unended: nat) {
    && e.completed == complete && e.errors == Number(lines, Of(SESSION_ERROR)) + unended
    && forall c :: e.codes[c] == Number(lines, Coded(c)) + if c == NON_TERMINAL_SESSION_LOG then unended else 0
  }

  /** A tally, count by count, over lines of which some files end complete and some do not end at all. */
  ghost predicate Counted(t: Tally, lines: seq<Line>, complete: nat, unended: nat) {
    DecisionsCounted(t.decisions, lines) && TradesCounted(t.trades, lines) && EndingsCounted(t.endings, lines, complete, unended)
  }

  /** A day's tally counts the lines of all its files. */
  lemma {:induction false} DayIsCounted(files: seq<seq<Line>>)
    ensures Counted(DayTally(files), AllLines(files), Files(files, true), Files(files, false))
  {
    hide Counted, Completes, Unended, Plus, FileTally;
    if files == [] {
      NothingCounted();
      return;
    }
    var front, last := files[..|files| - 1], files[|files| - 1];
    DayIsCounted(front);
    FileIsCounted(last);
    CountedJoin(DayTally(front), FileTally(last), AllLines(front), last,
                Files(front, true), Bit(Completes(last)), Files(front, false), Bit(Unended(last)));
  }

  lemma CountedJoin(t: Tally, u: Tally, a: seq<Line>, b: seq<Line>, c1: nat, c2: nat, u1: nat, u2: nat)
    requires Counted(t, a, c1, u1) && Counted(u, b, c2, u2)
    ensures Counted(Plus(t, u), a + b, c1 + c2, u1 + u2)
  {
    hide DecisionsCounted, TradesCounted, EndingsCounted, PlusDecisions, PlusTrades, PlusEndings;
    DecisionsJoin(t.decisions, u.decisions, a, b);
    TradesJoin(t.trades, u.trades, a, b);
    EndingsJoin(t.endings, u.endings, a, b, c1, c2, u1, u2);
  }

  lemma EndingsJoin(e: Endings, f: Endings, a: seq<Line>, b: seq<Line>, c1: nat, c2: nat, u1: nat, u2: nat)
    requires EndingsCounted(e, a, c1, u1) && EndingsCounted(f, b, c2, u2)
    ensures EndingsCounted(PlusEndings(e, f), a + b, c1 + c2, u1 + u2)
  {
    hide Number, Of, Coded;
    NumberConcat(a, b, Of(SESSION_ERROR));
    forall c ensures Number(a + b, Coded(c)) == Number(a, Coded(c)) + Number(b, Coded(c)) {
      NumberConcat(a, b, Coded(c));
    }
  }

  lemma NothingCounted()
    ensures Counted(ZERO, [], 0, 0)
    ensures DayTally([]) == ZERO && AllLines([]) == [] && Files([], true) == Files([], false) == 0
  {
    assert LinesTally([]) == ZERO && AllLines([]) == [] && Files([], true) == Files([], false) == 0 && DayTally([]) == ZERO;
    hide DecisionsCounted, TradesCounted, ErrorsCounted, EndingsCounted;
    LinesAreCounted([]);
    ErrorsAlone(NO_ENDINGS, []);
  }

  lemma ErrorsAlone(e: Endings, lines: seq<Line>)
    requires ErrorsCounted(e, lines)
    ensures EndingsCounted(e, lines, 0, 0)
  {
    hide Number, Of, Coded;
  }

  lemma FileIsCounted(lines: seq<Line>)
    ensures Counted(FileTally(lines), lines, Bit(Completes(lines)), Bit(Unended(lines)))
  {
    LinesAreCounted(lines);
    ClosingIs(lines);
    hide Completes, Unended, LinesTally, DecisionsCounted, TradesCounted, Coded, Number, Of, Closing;
    var t := LinesTally(lines);
    assert PlusDecisions(t.decisions, NO_DECISIONS) == t.decisions && PlusTrades(t.trades, NO_TRADES) == t.trades;
  }

  lemma {:induction false} GivenConcat(a: seq<Line>, b: seq<Line>, r: P.Reason)
    ensures Given(a + b, r) == Given(a, r) + Given(b, r)
  {
    if b == [] {
      assert a + b == a;
    } else {
      assert (a + b)[..|a + b| - 1] == a + b[..|b| - 1];
      GivenConcat(a, b[..|b| - 1], r);
    }
  }

  lemma {:induction false} EarnedConcat(a: seq<Line>, b: seq<Line>)
    ensures Earned(a + b) == Earned(a) + Earned(b)
  {
    if b == [] {
      assert a + b == a;
    } else {
      assert (a + b)[..|a + b| - 1] == a + b[..|b| - 1];
      EarnedConcat(a, b[..|b| - 1]);
    }
  }

  lemma DecisionsJoin(d: Decisions, e: Decisions, a: seq<Line>, b: seq<Line>)
    requires DecisionsCounted(d, a) && DecisionsCounted(e, b)
    ensures DecisionsCounted(PlusDecisions(d, e), a + b)
  {
    hide Number, Given, Of, Decided, HardRule;
    NumberConcat(a, b, Of(DECISION_RECORDED));
    NumberConcat(a, b, Decided(P.NO_ENTRY));
    NumberConcat(a, b, Decided(P.REJECTED));
    NumberConcat(a, b, Decided(P.SIMULATED_ENTRY));
    NumberConcat(a, b, HardRule());
    forall r ensures Given(a + b, r) == Given(a, r) + Given(b, r) {
      GivenConcat(a, b, r);
    }
  }

  lemma TradesJoin(t: Trades, u: Trades, a: seq<Line>, b: seq<Line>)
    requires TradesCounted(t, a) && TradesCounted(u, b)
    ensures TradesCounted(PlusTrades(t, u), a + b)
  {
    hide Number, Earned, Of;
    NumberConcat(a, b, Of(ENTRY_FILLED));
    NumberConcat(a, b, Of(ENTRY_UNFILLED));
    NumberConcat(a, b, Of(EXITED));
    EarnedConcat(a, b);
  }

  // ------------------------------------------------------------ what follows

  lemma ReadableLines(lines: seq<Line>)
    ensures Readable(lines) <==>
              forall i :: 0 <= i < |lines| ==>
                && lines[i].Json? && lines[i].sequence == Some(i + 1) && lines[i].payload.Some?
                && (lines[i].kind == Some(EXITED) ==> lines[i].payload.value.pnl.Some?)
  {
  }

  lemma NumberIsZero(lines: seq<Line>, p: Line -> bool)
    ensures Number(lines, p) == 0 <==> forall i :: 0 <= i < |lines| ==> !p(lines[i])
  {
    var kept := Filter(lines, p);
    if kept != [] {
      assert kept[0] in lines && p(kept[0]);
    }
    if i :| 0 <= i < |lines| && p(lines[i]) {
      assert lines[i] in kept;
    }
  }

  lemma {:induction false} GivenIsZero(lines: seq<Line>, r: P.Reason)
    ensures Given(lines, r) == 0 <==>
              forall i :: 0 <= i < |lines| && Of(DECISION_RECORDED)(lines[i]) ==> r !in lines[i].payload.value.reasons
  {
    if lines != [] {
      GivenIsZero(lines[..|lines| - 1], r);
    }
  }

  lemma {:induction false} AllFilesEnd(files: seq<seq<Line>>)
    ensures Files(files, false) == 0 <==> forall k :: 0 <= k < |files| ==> !Unended(files[k])
  {
    hide Unended, Completes;
    if files != [] {
      AllFilesEnd(files[..|files| - 1]);
    }
  }

  /**
    A day is evidence exactly when it has sessions, each of them ended, none with an
    error line, no decision broke a hard rule, and none was a pilot's.
   */
  lemma EligibleIff(files: seq<seq<Line>>)
    ensures var all := AllLines(files);
            EvidenceEligible(|files|, DayTally(files)) <==>
              && files != [] && (forall k :: 0 <= k < |files| ==> !Unended(files[k]))
              && (forall i :: 0 <= i < |all| ==> !Of(SESSION_ERROR)(all[i]) && !HardRule()(all[i]))
              && forall i :: 0 <= i < |all| && Of(DECISION_RECORDED)(all[i]) ==>
                               P.PILOT_NOT_STRATEGY_EVIDENCE !in all[i].payload.value.reasons
  {
    hide AllLines, DayTally, Unended, HardRule, Number, Given, Files;
    DayIsCounted(files);
    AllFilesEnd(files);
    NumberIsZero(AllLines(files), Of(SESSION_ERROR));
    NumberIsZero(AllLines(files), HardRule());
    GivenIsZero(AllLines(files), P.PILOT_NOT_STRATEGY_EVIDENCE);
  }

  // ---------------------------------------------------------------- the report

  /** The newest decision of the session, by position, marked as a pilot's. */
  ghost predicate PilotAt(lines: seq<Line>, i: int) {
    && 0 <= i < |lines| && Of(DECISION_RECORDED)(lines[i]) && P.PILOT_NOT_STRATEGY_EVIDENCE in lines[i].payload.value.reasons
    && forall j :: i < j < |lines| ==> !Of(DECISION_RECORDED)(lines[j])
  }

  ghost predicate ByPilot(lines: seq<Line>) {
    exists i :: PilotAt(lines, i)
  }

  lemma {:induction false} PilotSessionIff(lines: seq<Line>)
    requires Readable(lines)
    ensures PilotSession(lines) <==> ByPilot(lines)
  {
    if lines != [] {
      var n := |lines| - 1;
      assert Readable(lines[..n]) by {
        assert forall i :: 0 <= i < n ==> lines[..n][i] == lines[i];
      }
      assert LineFault(lines[n], n + 1).None?;
      PilotSessionIff(lines[..n]);
      PilotLast(lines);
    }
  }

  lemma PilotLast(lines: seq<Line>)
    requires lines != [] && lines[|lines| - 1].Json? && lines[|lines| - 1].payload.Some?
    ensures var last := lines[|lines| - 1];
            ByPilot(lines) <==> if IsDecision(last) then Marked(last) else ByPilot(lines[..|lines| - 1])
  {
    var n := |lines| - 1;
    assert Of(DECISION_RECORDED)(lines[n]) <==> IsDecision(lines[n]);
    hide Of;
    if IsDecision(lines[n]) {
      assert PilotAt(lines, n) <==> Marked(lines[n]);
    } else {
      forall i ensures PilotAt(lines, i) <==> PilotAt(lines[..n], i) {
        PilotBefore(lines, i);
      }
    }
  }

  lemma PilotBefore(lines: seq<Line>, i: int)
    requires lines != [] && !Of(DECISION_RECORDED)(lines[|lines| - 1])
    ensures PilotAt(lines, i) <==> PilotAt(lines[..|lines| - 1], i)
  {
    hide Of;
    var front := lines[..|lines| - 1];
    if PilotAt(front, i) {
      forall j | i < j < |lines| ensures !Of(DECISION_RECORDED)(lines[j]) {
        if j < |front| { assert lines[j] == front[j]; }
      }
    }
  }

  /** The sessions that are no pilot's. */
  ghost function Own(files: seq<seq<Line>>): seq<seq<Line>> {
    Filter(files, (lines: seq<Line>) => !ByPilot(lines))
  }

  ghost predicate Readables(files: seq<seq<Line>>) {
    forall k :: 0 <= k < |files| ==> Readable(files[k]) && Timed(files[k])
  }

  lemma OwnStep(files: seq<seq<Line>>)
    requires files != []
    ensures var front, last := files[..|files| - 1], files[|files| - 1];
            Own(files) == if ByPilot(last) then Own(front) else Own(front) + [last]
  {
    hide ByPilot;
  }

  lemma AllLinesAppend(files: seq<seq<Line>>, last: seq<Line>)
    ensures AllLines(files + [last]) == AllLines(files) + last
  {
    assert (files + [last])[..|files|] == files;
  }

  /** The exits of one readable session. */
  lemma ExitsAre(lines: seq<Line>)
    requires Readable(lines) && Timed(lines)
    ensures |Exits(lines)| == Number(lines, Of(EXITED)) && Sum(Net(Exits(lines))) == Earned(lines)
  {
    SessionNet(lines);
    LinesAreCounted(lines);
    hide Readable, Timed, Exits, Number, Earned, Of, LinesTally, DecisionsCounted, ErrorsCounted, Net, Sum;
  }

  /** Authorized trades are the exits of the sessions that are no pilot's; the other sessions are counted without authorization. */
  lemma {:induction false} DayPerforms(files: seq<seq<Line>>)
    requires Readables(files)
    ensures |Performing(files, true)| == Number(AllLines(Own(files)), Of(EXITED))
    ensures Sum(Net(Performing(files, true))) == Earned(AllLines(Own(files)))
    ensures Unauthorized(files, true) == 0 && Unauthorized(files, false) == |Own(files)|
  {
    hide Readable, Timed, ByPilot, Exits, Number, Earned, Of, Net, Sum, PilotSession;
    if files == [] {
      NothingPerformed();
      return;
    }
    var front, last := files[..|files| - 1], files[|files| - 1];
    assert Readable(last) && Timed(last);
    DayPerforms(front);
    PilotSessionIff(last);
    OwnStep(files);
    hide Own;
    if !ByPilot(last) {
      ExitsAre(last);
      AllLinesAppend(Own(front), last);
      NumberConcat(AllLines(Own(front)), last, Of(EXITED));
      EarnedConcat(AllLines(Own(front)), last);
      NetConcat(Performing(front, true), Exits(last));
    }
  }

  lemma NothingPerformed()
    ensures Own([]) == [] && AllLines([]) == [] && Number([], Of(EXITED)) == 0 && Earned([]) == 0.0 && Sum(Net([])) == 0.0
  {
    NothingNet();
    hide ByPilot, Of, Net;
  }

  /** All session logs of all days. */
  function AllFiles(days: seq<Day>): seq<seq<Line>> {
    if days == [] then [] else AllFiles(days[..|days| - 1]) + days[|days| - 1].files
  }

  /** Days whose sessions are evidence: some, all ended, none with an error, a broken hard rule or a pilot's decision. */
  ghost predicate IsEvidence(day: Day) {
    var all := AllLines(day.files);
    && day.files != [] && (forall k :: 0 <= k < |day.files| ==> !Unended(day.files[k]))
    && (forall i :: 0 <= i < |all| ==> !Of(SESSION_ERROR)(all[i]) && !HardRule()(all[i]))
    && forall i :: 0 <= i < |all| && Of(DECISION_RECORDED)(all[i]) ==> P.PILOT_NOT_STRATEGY_EVIDENCE !in all[i].payload.value.reasons
  }

  ghost function EvidenceDays(days: seq<Day>): nat {
    |Filter(days, (day: Day) => IsEvidence(day))|
  }

  /** What the days add up to, over the lines of all their logs. */
  ghost predicate TotalsCounted(t: Totals, days: seq<Day>, authorized: bool) {
    var files := AllFiles(days);
    && t.eligible == EvidenceDays(days) && t.pilots == Given(AllLines(files), P.PILOT_NOT_STRATEGY_EVIDENCE)
    && t.errors == Number(AllLines(files), Of(SESSION_ERROR)) + Files(files, false)
    && t.violations == Number(AllLines(files), HardRule())
    && t.unauthorized == (if authorized then 0 else |Own(files)|)
    && |t.performing| == (if authorized then Number(AllLines(Own(files)), Of(EXITED)) else 0)
    && Sum(Net(t.performing)) == if authorized then Earned(AllLines(Own(files))) else 0.0
  }

  lemma {:induction false} FilesConcat(a: seq<seq<Line>>, b: seq<seq<Line>>)
    ensures AllLines(a + b) == AllLines(a) + AllLines(b) && Files(a + b, false) == Files(a, false) + Files(b, false)
  {
    hide Unended, Completes;
    if b == [] {
      assert a + b == a;
      return;
    }
    var front, last := b[..|b| - 1], b[|b| - 1];
    assert (a + b)[..|a + b| - 1] == a + front && (a + b)[|a + b| - 1] == last;
    assert AllLines(a + b) == AllLines(a + front) + last && AllLines(b) == AllLines(front) + last;
    assert Files(a + b, false) - Files(a + front, false) == Files(b, false) - Files(front, false);
    hide AllLines, Files;
    FilesConcat(a, front);
  }

  lemma OwnConcat(a: seq<seq<Line>>, b: seq<seq<Line>>)
    ensures Own(a + b) == Own(a) + Own(b)
  {
    hide ByPilot;
    FilterConcat(a, b, (lines: seq<Line>) => !ByPilot(lines));
  }

  lemma EvidenceStep(days: seq<Day>, day: Day)
    ensures EvidenceDays(days + [day]) == EvidenceDays(days) + if IsEvidence(day) then 1 else 0
  {
    hide IsEvidence;
    FilterConcat(days, [day], (d: Day) => IsEvidence(d));
  }

  lemma {:induction false} DaysAreCounted(days: seq<Day>, authorized: bool)
    requires forall k :: 0 <= k < |days| ==> Readables(days[k].files)
    ensures TotalsCounted(AllTotals(days, authorized), days, authorized)
  {
    hide Readables, TotalsCounted, DayTotals, AddTotals;
    if days == [] {
      NoDays(authorized);
      return;
    }
    var front, day := days[..|days| - 1], days[|days| - 1];
    assert days == front + [day];
    DaysAreCounted(front, authorized);
    DayIsTotalled(AllTotals(front, authorized), front, day, authorized);
  }

  lemma NoDays(authorized: bool)
    ensures TotalsCounted(AllTotals([], authorized), [], authorized)
  {
    NothingPerformed();
    NumberIsZero([], Of(SESSION_ERROR));
    NumberIsZero([], HardRule());
    assert AllFiles([]) == [] && EvidenceDays([]) == 0;
    hide EvidenceDays, Own, Number, Net, Sum, AllLines, Earned, AllFiles;
  }

  /** One more day adds its own counts. */
  lemma DayIsTotalled(t: Totals, front: seq<Day>, day: Day, authorized: bool)
    requires TotalsCounted(t, front, authorized) && Readables(day.files)
    ensures TotalsCounted(AddTotals(t, DayTotals(day, authorized)), front + [day], authorized)
  {
    hide Readables, Performing, Unauthorized, DayTally, EvidenceDays, AllLines, Files, Own, Number, Given, Earned, Of, HardRule, Net, Sum;
    var a, b := AllFiles(front), day.files;
    assert AllFiles(front + [day]) == a + b by {
      assert (front + [day])[..|front|] == front;
    }
    hide AllFiles;
    FilesConcat(a, b);
    OwnConcat(a, b);
    FilesConcat(Own(a), Own(b));
    EvidenceStep(front, day);
    EligibleIff(b);
    DayIsCounted(b);
    NumberConcat(AllLines(a), AllLines(b), Of(SESSION_ERROR));
    NumberConcat(AllLines(a), AllLines(b), HardRule());
    GivenConcat(AllLines(a), AllLines(b), P.PILOT_NOT_STRATEGY_EVIDENCE);
    NumberConcat(AllLines(Own(a)), AllLines(Own(b)), Of(EXITED));
    EarnedConcat(AllLines(Own(a)), AllLines(Own(b)));
    DayTrades(t.performing, b, authorized);
  }

  lemma DayTrades(trades: seq<Trade>, b: seq<seq<Line>>, authorized: bool)
    requires Readables(b)
    ensures Unauthorized(b, authorized) == if authorized then 0 else |Own(b)|
    ensures var all := trades + Performing(b, authorized);
            if authorized then
              && |all| == |trades| + Number(AllLines(Own(b)), Of(EXITED))
              && Sum(Net(all)) == Sum(Net(trades)) + Earned(AllLines(Own(b)))
            else all == trades
  {
    hide Readables, AllLines, Own, Number, Earned, Of, Net, Sum;
    DayPerforms(b);
    NetConcat(trades, Performing(b, true));
    DayDoesNotPerform(b);
  }

  /**
    The report, figure by figure, over the lines of all the logs it read: every count,
    the money, and every gate against its own threshold.
   */
  lemma ReportCounts(days: seq<Day>, authorized: bool, capital: real, th: Thresholds, r: Report)
    requires days != [] && capital != 0.0 && (forall k :: 0 <= k < |days| ==> Readables(days[k].files))
    requires Reports(days, authorized, capital, th, r)
    ensures var files := AllFiles(days);
            && r.startDate == days[0].date && r.endDate == days[|days| - 1].date && r.observedDays == |days|
            && r.eligibleDays == EvidenceDays(days) && r.authorized == authorized
            && r.pilotDecisions == Given(AllLines(files), P.PILOT_NOT_STRATEGY_EVIDENCE)
            && r.errors == Number(AllLines(files), Of(SESSION_ERROR)) + Files(files, false)
            && r.violations == Number(AllLines(files), HardRule())
            && r.unauthorizedSessions == (if authorized then 0 else |Own(files)|)
            && r.trades == (if authorized then Number(AllLines(Own(files)), Of(EXITED)) else 0)
            && r.net == (if authorized then Earned(AllLines(Own(files))) else 0.0)
            && r.drawdownPct * capital == r.drawdown * 100.0
    ensures var g := r.gates;
            && (g.shadowDays <==> th.minimumDays <= r.eligibleDays) && (g.completedTrades <==> th.minimumTrades <= r.trades)
            && (g.positiveNet <==> 0.0 < r.net) && (g.drawdown <==> r.drawdownPct <= th.maximumDrawdownPct)
            && (g.profitFactor <==> 0.0 < r.grossLoss && th.minimumProfitFactor * r.grossLoss <= r.grossProfit)
            && (g.noErrors <==> r.errors == 0) && (g.noViolations <==> r.violations == 0) && (g.noPilots <==> r.pilotDecisions == 0)
            && (g.noUnauthorized <==> r.unauthorizedSessions == 0) && (g.authorized <==> authorized)
  {
    hide Readables, AllTotals, EvidenceDays, AllLines, Files, Own, Number, Given, Earned, Of, HardRule, Net, Sum, IsDrawdown;
    hide Chronological, Gains, Losses;
    DaysAreCounted(days, authorized);
    QuotientTimes(r.drawdown, capital);
    var values := Net(Chronological(AllTotals(days, authorized).performing));
    GrossNet(values);
    NetOfChronological(AllTotals(days, authorized).performing);
    if 0.0 < GrossLoss(values) {
      FactorIff(r.grossProfit, r.grossLoss, th.minimumProfitFactor);
    }
  }

  lemma QuotientTimes(x: real, y: real)
    requires y != 0.0
    ensures (x / y * 100.0) * y == x * 100.0
  {
    var q := x / y;
    assert q * y == x;
    assert (q * 100.0) * y == (q * y) * 100.0;
  }

  lemma FactorIff(profit: real, loss: real, minimum: real)
    requires 0.0 < loss
    ensures minimum <= profit / loss <==> minimum * loss <= profit
  {
    var q := profit / loss;
    assert q * loss == profit;
    assert (q - minimum) * loss == q * loss - minimum * loss;
    SignTimes(q - minimum, loss);
  }

  lemma SignTimes(d: real, loss: real)
    requires 0.0 < loss
    ensures 0.0 <= d <==> 0.0 <= d * loss
  {
    if d < 0.0 {
      assert (-d) * loss > 0.0;
      assert d * loss == -((-d) * loss);
    }
  }
}
