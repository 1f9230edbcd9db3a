/** The daily review: an independent reader that replays the logs of one day. */
module ShadowReview {
  import opened Common
  import opened SessionLog
  import opened SessionText
  import LogText
  import P = ShadowPipeline
  import TradeManagement

  /** The fields of a parsed payload that a reader looks at. */
  datatype RawPayload = RawPayload(
    status: Option<P.PipelineStatus>, reasons: seq<P.Reason>, hardRule: Option<bool>, pnl: Option<real>, reason: Option<ErrorCode>)

  /** One line of a log file as found on disk; `None` is a missing or unusable field. */
  datatype Line = NotJson | Json(sequence: Option<int>, kind: Option<EventType>, recordedAt: Option<int>, payload: Option<RawPayload>)

  datatype InvalidLog = InvalidJson | BrokenSequence | MissingPayload | InvalidDecimal

  datatype ErrorCode =
    | SampleCode(sample: SampleReason) | ExitCode(exit: TradeManagement.ExitReason) | UNKNOWN_REASON | NON_TERMINAL_SESSION_LOG

  /** How sessions ended, and with which error codes. */
  datatype Endings = Endings(completed: int, errors: int, codes: multiset<ErrorCode>)

  /** What was decided, and for which reasons. */
  datatype Decisions = Decisions(total: int, noTrade: int, rejected: int, candidates: int, pilots: int, hard: int,
                                 reasons: multiset<P.Reason>)

  /** What was simulated, and its net result. */
  datatype Trades = Trades(fills: int, unfilled: int, exits: int, net: real)

  datatype Tally = Tally(endings: Endings, decisions: Decisions, trades: Trades)

  const NO_ENDINGS := Endings(0, 0, multiset{})
  const NO_DECISIONS := Decisions(0, 0, 0, 0, 0, 0, multiset{})
  const NO_TRADES := Trades(0, 0, 0, 0.0)
  const ZERO := Tally(NO_ENDINGS, NO_DECISIONS, NO_TRADES)

  function PlusEndings(a: Endings, b: Endings): Endings {
    Endings(a.completed + b.completed, a.errors + b.errors, a.codes + b.codes)
  }

  function PlusDecisions(a: Decisions, b: Decisions): Decisions {
    Decisions(a.total + b.total, a.noTrade + b.noTrade, a.rejected + b.rejected, a.candidates + b.candidates,
              a.pilots + b.pilots, a.hard + b.hard, a.reasons + b.reasons)
  }

  function PlusTrades(a: Trades, b: Trades): Trades {
    Trades(a.fills + b.fills, a.unfilled + b.unfilled, a.exits + b.exits, a.net + b.net)
  }

  function Plus(a: Tally, b: Tally): Tally {
    Tally(PlusEndings(a.endings, b.endings), PlusDecisions(a.decisions, b.decisions), PlusTrades(a.trades, b.trades))
  }

  // ---------------------------------------------------------- specification

  /** Why a line at a position cannot be read. */
  function LineFault(line: Line, expected: int): Option<InvalidLog> {
    if line.NotJson? then Some(InvalidJson)
    else if line.sequence != Some(expected) then Some(BrokenSequence)
    else if line.payload.None? then Some(MissingPayload)
    else if line.kind == Some(EXITED) && line.payload.value.pnl.None? then Some(InvalidDecimal)
    else None
  }

  ghost predicate Readable(lines: seq<Line>) {
    forall i :: 0 <= i < |lines| ==> LineFault(lines[i], i + 1).None?
  }

  function Bit(b: bool): nat {
    if b then 1 else 0
  }

  function LineEndings(kind: EventType, p: RawPayload): Endings {
    if kind == SESSION_ERROR
    then Endings(0, 1, multiset{if p.reason.Some? then p.reason.value else UNKNOWN_REASON}) else NO_ENDINGS
  }

  function LineDecisions(kind: EventType, p: RawPayload): Decisions {
    if kind != DECISION_RECORDED then NO_DECISIONS
    else
      var marks := multiset(p.reasons);
      Decisions(1, Bit(p.status == Some(P.NO_ENTRY)), Bit(p.status == Some(P.REJECTED)), Bit(p.status == Some(P.SIMULATED_ENTRY)),
                marks[P.PILOT_NOT_STRATEGY_EVIDENCE], Bit(p.hardRule == Some(true)), marks)
  }

  function LineTrades(kind: EventType, p: RawPayload): Trades {
    match kind
    case ENTRY_FILLED => NO_TRADES.(fills := 1)
    case ENTRY_UNFILLED => NO_TRADES.(unfilled := 1)
    case EXITED => NO_TRADES.(exits := 1, net := if p.pnl.Some? then p.pnl.value else 0.0)
    case _ => NO_TRADES
  }

  /** What one readable line contributes. */
  function LineTally(line: Line): Tally {
    if line.NotJson? || line.kind.None? || line.payload.None? then ZERO
    else
      var kind, p := line.kind.value, line.payload.value;
      Tally(LineEndings(kind, p), LineDecisions(kind, p), LineTrades(kind, p))
  }

  function LinesTally(lines: seq<Line>): Tally {
    if lines == [] then ZERO else Plus(LinesTally(lines[..|lines| - 1]), LineTally(lines[|lines| - 1]))
  }

  function TerminalAfter(terminal: Option<SessionState>, line: Line): Option<SessionState> {
    if line.NotJson? || line.kind.None? then terminal
    else
      match line.kind.value
      case ENTRY_UNFILLED => Some(COMPLETE)
      case EXITED => Some(COMPLETE)
      case SESSION_COMPLETED => Some(COMPLETE)
      case SESSION_ERROR => Some(ERROR)
      case _ => terminal
  }

  /** The state the newest terminal line of a file declares. */
  function Terminal(lines: seq<Line>): Option<SessionState> {
    if lines == [] then None else TerminalAfter(Terminal(lines[..|lines| - 1]), lines[|lines| - 1])
  }

  function Closing(terminal: Option<SessionState>): Tally {
    if terminal == Some(COMPLETE) then ZERO.(endings := Endings(1, 0, multiset{}))
    else if terminal == None then ZERO.(endings := Endings(0, 1, multiset{NON_TERMINAL_SESSION_LOG}))
    else ZERO
  }

  function FileTally(lines: seq<Line>): Tally {
    Plus(LinesTally(lines), Closing(Terminal(lines)))
  }

  function DayTally(files: seq<seq<Line>>): Tally {
    if files == [] then ZERO else Plus(DayTally(files[..|files| - 1]), FileTally(files[|files| - 1]))
  }

  // ----------------------------------------------------------------- review

  lemma PlusAssociates(a: Tally, b: Tally, c: Tally)
    ensures Plus(Plus(a, b), c) == Plus(a, Plus(b, c))
  {
  }

  /** Folds one readable line into the running counts. */
  method CountLine(t: Tally, line: Line) returns (r: Tally)
    requires line.Json? && line.payload.Some? && (line.kind == Some(EXITED) ==> line.payload.value.pnl.Some?)
    ensures r == Plus(t, LineTally(line))
  {
    r := t;
    if line.kind.None? {
      PlusZero(t);
      return;
    }
    var p := line.payload.value;
    hide Plus, LineDecisions, LineTrades, LineEndings, PlusDecisions, PlusTrades, PlusEndings;
    var kind := line.kind.value;
    PlusParts(t, kind, p);
    if kind == DECISION_RECORDED {
      var decisions := CountDecision(t.decisions, p);
      r := r.(decisions := decisions);
    } else if kind == SESSION_ERROR {
      var endings := CountError(t.endings, p);
      r := r.(endings := endings);
    } else if kind in {ENTRY_FILLED, ENTRY_UNFILLED, EXITED} {
      var trades := CountTrade(t.trades, kind, p);
      r := r.(trades := trades);
    }
  }

  method CountError(e: Endings, p: RawPayload) returns (r: Endings)
    ensures r == PlusEndings(e, LineEndings(SESSION_ERROR, p))
  {
    var code := if p.reason.Some? then p.reason.value else UNKNOWN_REASON;
    r := e.(errors := e.errors + 1, codes := e.codes + multiset{code});
  }

  method CountTrade(t: Trades, kind: EventType, p: RawPayload) returns (r: Trades)
    requires kind in {ENTRY_FILLED, ENTRY_UNFILLED, EXITED} && (kind == EXITED ==> p.pnl.Some?)
    ensures r == PlusTrades(t, LineTrades(kind, p))
  {
    r := t;
    if kind == ENTRY_FILLED {
      r := r.(fills := r.fills + 1);
    } else if kind == ENTRY_UNFILLED {
      r := r.(unfilled := r.unfilled + 1);
    } else {
      r := r.(exits := r.exits + 1, net := r.net + p.pnl.value);
    }
  }

  /** A line changes only the group its kind belongs to. */
  lemma PlusParts(t: Tally, kind: EventType, p: RawPayload)
    ensures Plus(t, Tally(LineEndings(kind, p), LineDecisions(kind, p), LineTrades(kind, p)))
            == Tally(if kind == SESSION_ERROR then PlusEndings(t.endings, LineEndings(kind, p)) else t.endings,
                     if kind == DECISION_RECORDED then PlusDecisions(t.decisions, LineDecisions(kind, p)) else t.decisions,
                     if kind in {ENTRY_FILLED, ENTRY_UNFILLED, EXITED} then PlusTrades(t.trades, LineTrades(kind, p)) else t.trades)
  {
    PlusZero(t);
  }

  method CountDecision(d: Decisions, p: RawPayload) returns (r: Decisions)
    ensures r == PlusDecisions(d, LineDecisions(DECISION_RECORDED, p))
  {
    r := d.(total := d.total + 1);
    if p.status == Some(P.NO_ENTRY) {
      r := r.(noTrade := r.noTrade + 1);
    } else if p.status == Some(P.REJECTED) {
      r := r.(rejected := r.rejected + 1);
    } else if p.status == Some(P.SIMULATED_ENTRY) {
      r := r.(candidates := r.candidates + 1);
    }
    var pilots, marks := CountReasons(p.reasons);
    r := r.(pilots := r.pilots + pilots, reasons := r.reasons + marks);
    if p.hardRule == Some(true) {
      r := r.(hard := r.hard + 1);
    }
  }

  method CountReasons(reasons: seq<P.Reason>) returns (pilots: int, marks: multiset<P.Reason>)
    ensures marks == multiset(reasons) && pilots == multiset(reasons)[P.PILOT_NOT_STRATEGY_EVIDENCE]
  {
    pilots, marks := 0, multiset{};
    for i := 0 to |reasons|
      invariant marks == multiset(reasons[..i]) && pilots == marks[P.PILOT_NOT_STRATEGY_EVIDENCE]
    {
      assert reasons[..i + 1] == reasons[..i] + [reasons[i]];
      marks := marks + multiset{reasons[i]};
      if reasons[i] == P.PILOT_NOT_STRATEGY_EVIDENCE {
        pilots := pilots + 1;
      }
    }
    assert reasons[..|reasons|] == reasons;
  }

  /** Reads one file on top of the running counts. */
  method ReviewFile(t: Tally, lines: seq<Line>) returns (r: Result<Tally, InvalidLog>)
    ensures r.Success? <==> Readable(lines)
    ensures r.Success? ==> r.value == Plus(t, FileTally(lines))
    ensures r.Failure? ==> exists i :: 0 <= i < |lines| && LineFault(lines[i], i + 1) == Some(r.error)
                                       && forall j :: 0 <= j < i ==> LineFault(lines[j], j + 1).None?
  {
    hide LineTally, Plus, Closing;
    var running := t;
    var terminal: Option<SessionState> := None;
    PlusZero(t);
    for i := 0 to |lines|
      invariant forall j :: 0 <= j < i ==> LineFault(lines[j], j + 1).None?
      invariant running == Plus(t, LinesTally(lines[..i])) && terminal == Terminal(lines[..i])
    {
      var fault := LineFault(lines[i], i + 1);
      if fault.Some? {
        return Failure(fault.value);
      }
      assert lines[..i + 1][..i] == lines[..i];
      running := CountLine(running, lines[i]);
      PlusAssociates(t, LinesTally(lines[..i]), LineTally(lines[i]));
      terminal := TerminalAfter(terminal, lines[i]);
    }
    assert lines[..|lines|] == lines;
    PlusAssociates(t, LinesTally(lines), Closing(terminal));
    return Success(Close(running, terminal));
  }

  lemma PlusZero(t: Tally)
    ensures Plus(t, ZERO) == t
  {
  }

  function Close(t: Tally, terminal: Option<SessionState>): (r: Tally)
    ensures r == Plus(t, Closing(terminal))
  {
    PlusZero(t);
    if terminal == Some(COMPLETE) then t.(endings := t.endings.(completed := t.endings.completed + 1))
    else if terminal == None then
      t.(endings := t.endings.(errors := t.endings.errors + 1, codes := t.endings.codes + multiset{NON_TERMINAL_SESSION_LOG}))
    else t
  }

  /** Reviews all the logs of a day; the first unreadable line stops it. */
  method ReviewShadowDay(files: seq<seq<Line>>) returns (r: Result<Tally, InvalidLog>)
    ensures r.Success? <==> forall k :: 0 <= k < |files| ==> Readable(files[k])
    ensures r.Success? ==> r.value == DayTally(files)
  {
    hide FileTally, Plus, Readable;
    var running := ZERO;
    for k := 0 to |files|
      invariant running == DayTally(files[..k]) && forall j :: 0 <= j < k ==> Readable(files[j])
    {
      assert files[..k + 1][..k] == files[..k];
      var next := ReviewFile(running, files[k]);
      if next.Failure? {
        return next;
      }
      running := next.value;
    }
    assert files[..|files|] == files;
    return Success(running);
  }

  predicate EvidenceEligible(sessions: nat, t: Tally) {
    t.endings.errors == 0 && t.decisions.hard == 0 && t.decisions.pilots == 0 && 0 < sessions
  }

  // ---------------------------------------------- agreement with the writer

  /** What the stored line of an event says, read whole. */
  function Encode(e: Event): Line {
    Json(Some(e.sequence), Some(TypeOf(e.payload)), Some(e.recordedAt), Some(RawOf(e.payload)))
  }

  function CodeOf(error: ErrorReason): ErrorCode {
    match error
    case OfSample(sample, _, _) => SampleCode(sample)
    case OfExit(exit) => ExitCode(exit)
  }

  function RawOf(p: Payload): RawPayload {
    match p
    case Recorded(d, _) => RawPayload(Some(d.status), d.reasons, Some(d.hardRuleRejection), None, None)
    case Exited(record, _, _, _, net, _) => RawPayload(None, [], None, Some(net), Some(ExitCode(record.reason)))
    case Failed(error) => RawPayload(None, [], None, None, Some(CodeOf(error)))
    case _ => RawPayload(None, [], None, None, None)
  }

  /**
    The lines a reader sees for one event: its own, or the pieces it is cut into. Of
    these only the first matters: it is no JSON, and no reader gets past it.
   */
  function EncodeEvent(h: Header, e: Event): (lines: seq<Line>)
    ensures |lines| == Pieces(h, e)
  {
    if Pieces(h, e) == 1 then [Encode(e)] else seq(Pieces(h, e), _ => NotJson)
  }

  /** The lines a reader sees for a log. */
  function EncodeLog(h: Header, log: seq<Event>): seq<Line> {
    if log == [] then [] else EncodeLog(h, log[..|log| - 1]) + EncodeEvent(h, log[|log| - 1])
  }

  /** The lines of a log that is nowhere cut. */
  function WholeLog(log: seq<Event>): seq<Line> {
    seq(|log|, i requires 0 <= i < |log| => Encode(log[i]))
  }

  lemma EncodedWhole(h: Header, e: Event)
    ensures LogText.AllUnbroken(LineTexts(h, e)) ==> EncodeEvent(h, e) == [Encode(e)]
    ensures !LogText.AllUnbroken(LineTexts(h, e)) ==> EncodeEvent(h, e) != [] && EncodeEvent(h, e)[0] == NotJson
  {
    LogText.NoBreaks(LineTexts(h, e));
    hide LogText.Breaks, LogText.AllUnbroken, LineTexts;
  }

  lemma UnbrokenFront(h: Header, log: seq<Event>)
    requires log != []
    ensures LogUnbroken(h, log) <==> LogUnbroken(h, log[..|log| - 1]) && LogText.AllUnbroken(LineTexts(h, log[|log| - 1]))
  {
    hide LogText.AllUnbroken, LineTexts;
    var front := log[..|log| - 1];
    assert forall i :: 0 <= i < |front| ==> front[i] == log[i];
  }

  /** A log without line separators is read as it was written. */
  lemma {:induction false} UnbrokenIsWhole(h: Header, log: seq<Event>)
    requires LogUnbroken(h, log)
    ensures EncodeLog(h, log) == WholeLog(log)
  {
    if log != [] {
      hide Encode, LogUnbroken, EncodeEvent, WholeLog, LineTexts, LogText.AllUnbroken;
      UnbrokenFront(h, log);
      UnbrokenIsWhole(h, log[..|log| - 1]);
      EncodedWhole(h, log[|log| - 1]);
      WholeStep(log);
    } else {
      assert WholeLog(log) == [];
    }
  }

  lemma WholeStep(log: seq<Event>)
    requires log != []
    ensures WholeLog(log) == WholeLog(log[..|log| - 1]) + [Encode(log[|log| - 1])]
  {
    hide Encode;
  }

  /** Any other has a line that is no JSON. */
  lemma {:induction false} BrokenIsCut(h: Header, log: seq<Event>) returns (i: nat)
    requires !LogUnbroken(h, log)
    ensures i < |EncodeLog(h, log)| && EncodeLog(h, log)[i] == NotJson
  {
    hide LogUnbroken, EncodeEvent;
    if log == [] {
      NothingBroken(h);
    } else {
      var front := log[..|log| - 1];
      UnbrokenFront(h, log);
      EncodedWhole(h, log[|log| - 1]);
      if LogUnbroken(h, front) {
        i := |EncodeLog(h, front)|;
      } else {
        i := BrokenIsCut(h, front);
      }
    }
  }

  lemma NothingBroken(h: Header)
    ensures LogUnbroken(h, [])
  {
  }

  /** A state as the review reports it. */
  function TerminalState(state: SessionState): Option<SessionState> {
    if state == COMPLETE || state == ERROR then Some(state) else None
  }

  lemma EncodeStep(log: seq<Event>)
    requires log != []
    ensures var front, lines := log[..|log| - 1], WholeLog(log);
            lines[..|lines| - 1] == WholeLog(front) && lines[|lines| - 1] == Encode(log[|log| - 1])
  {
  }

  lemma {:induction false} WholeTerminal(log: seq<Event>)
    requires Replay(log).Some?
    ensures Terminal(WholeLog(log)) == TerminalState(Replay(log).value)
  {
    if log != [] {
      WholeTerminal(log[..|log| - 1]);
      EncodeStep(log);
      hide WholeLog;
    }
  }

  /** The reader's terminal flag is the writer's final state, and none while the session is open. */
  lemma TerminalIsState(h: Header, log: seq<Event>)
    requires Replay(log).Some? && LogUnbroken(h, log)
    ensures Terminal(EncodeLog(h, log)) == TerminalState(Replay(log).value)
  {
    UnbrokenIsWhole(h, log);
    WholeTerminal(log);
    hide Replay, Terminal, EncodeLog, WholeLog;
  }

  lemma SoundIsReadable(s: P.Settings, log: seq<Event>)
    requires Sound(s, log)
    ensures Readable(WholeLog(log))
  {
    SoundReplays(s, log);
  }

  /** A writer's log stops the review exactly if one of its lines quotes a line separator. */
  lemma ReadableIff(s: P.Settings, h: Header, log: seq<Event>)
    requires Sound(s, log)
    ensures Readable(EncodeLog(h, log)) <==> LogUnbroken(h, log)
  {
    hide Sound, LogUnbroken, EncodeLog, WholeLog;
    if LogUnbroken(h, log) {
      UnbrokenIsWhole(h, log);
      SoundIsReadable(s, log);
    } else {
      var i := BrokenIsCut(h, log);
      assert LineFault(EncodeLog(h, log)[i], i + 1) == Some(InvalidJson);
    }
  }

  /** The counts a writer's log amounts to. */
  function TradesIn(log: seq<Event>): Trades {
    Trades(Count(log, ENTRY_FILLED), Count(log, ENTRY_UNFILLED), Count(log, EXITED), NetIn(log))
  }

  lemma LinesStep(log: seq<Event>)
    requires log != []
    ensures LinesTally(WholeLog(log)) == Plus(LinesTally(WholeLog(log[..|log| - 1])), LineTally(Encode(log[|log| - 1])))
  {
    EncodeStep(log);
    hide WholeLog, Plus, LineTally, Encode;
  }

  lemma EncodedParts(e: Event)
    ensures LineTally(Encode(e)) == Tally(LineEndings(TypeOf(e.payload), RawOf(e.payload)),
                                          LineDecisions(TypeOf(e.payload), RawOf(e.payload)),
                                          LineTrades(TypeOf(e.payload), RawOf(e.payload)))
  {
  }

  lemma TradesInStep(log: seq<Event>)
    requires log != []
    ensures var p := log[|log| - 1].payload;
            TradesIn(log) == PlusTrades(TradesIn(log[..|log| - 1]), LineTrades(TypeOf(p), RawOf(p)))
  {
    CountStep(log, ENTRY_FILLED);
    CountStep(log, ENTRY_UNFILLED);
    CountStep(log, EXITED);
    hide Count;
  }

  /** The simulated trades of a writer's log, read back line by line. */
  lemma {:induction false} TradesReadBack(log: seq<Event>)
    ensures LinesTally(WholeLog(log)).trades == TradesIn(log)
  {
    if log != [] {
      hide WholeLog, LinesTally, LineTally, LineEndings, LineDecisions, LineTrades, PlusTrades, PlusEndings, PlusDecisions;
      hide TradesIn, RawOf;
      TradesReadBack(log[..|log| - 1]);
      LinesStep(log);
      EncodedParts(log[|log| - 1]);
      TradesInStep(log);
    }
  }

  lemma {:induction false} EndingsReadBack(log: seq<Event>)
    ensures var t := LinesTally(WholeLog(log)).endings; t.completed == 0 && t.errors == Count(log, SESSION_ERROR)
  {
    if log != [] {
      hide WholeLog, LinesTally, LineTally, LineTrades, LineDecisions, PlusTrades, PlusDecisions;
      EndingsReadBack(log[..|log| - 1]);
      LinesStep(log);
      EncodedParts(log[|log| - 1]);
    }
  }

  ghost predicate DecisionsAgree(log: seq<Event>, d: Decisions) {
    && d.total == Count(log, DECISION_RECORDED) == d.noTrade + d.rejected + d.candidates
    && d.candidates == Candidates(log)
  }

  lemma DecisionsStep(log: seq<Event>, d: Decisions)
    requires log != [] && DecisionsAgree(log[..|log| - 1], d)
    ensures var p := log[|log| - 1].payload; DecisionsAgree(log, PlusDecisions(d, LineDecisions(TypeOf(p), RawOf(p))))
  {
    CountStep(log, DECISION_RECORDED);
    hide Count;
    var p := log[|log| - 1].payload;
    assert Candidates(log) == Candidates(log[..|log| - 1]) + (if Due(log) then 1 else 0);
    if p.Recorded? {
      assert p.decision.status.SIMULATED_ENTRY? || p.decision.status.NO_ENTRY? || p.decision.status.REJECTED?;
    } else {
      assert LineDecisions(TypeOf(p), RawOf(p)) == NO_DECISIONS;
    }
  }

  /** Every decision of a writer's log is read back as exactly one of no trade, rejected or candidate. */
  lemma {:induction false} DecisionsReadBack(log: seq<Event>)
    ensures DecisionsAgree(log, LinesTally(WholeLog(log)).decisions)
  {
    if log != [] {
      hide WholeLog, LinesTally, LineTally, LineEndings, LineDecisions, LineTrades, PlusTrades, PlusEndings, PlusDecisions;
      hide DecisionsAgree, RawOf;
      DecisionsReadBack(log[..|log| - 1]);
      LinesStep(log);
      EncodedParts(log[|log| - 1]);
      DecisionsStep(log, LinesTally(WholeLog(log[..|log| - 1])).decisions);
    }
  }

  /** A reading of one log in the writer's own terms. */
  ghost predicate FileAgrees(log: seq<Event>, t: Tally) {
    && t.endings.completed == Bit(Replay(log) == Some(COMPLETE)) && t.endings.completed + t.endings.errors == 1
    && t.trades == TradesIn(log) && t.decisions.candidates == Candidates(log)
    && 0 <= t.trades.exits <= t.trades.fills <= t.decisions.candidates <= 1
  }

  /** One writer's log reads as completed or in error, never both and never neither. */
  lemma SoundFileAgrees(s: P.Settings, log: seq<Event>)
    requires Sound(s, log)
    ensures FileAgrees(log, FileTally(WholeLog(log)))
  {
    hide Sound, WholeLog, FileTally, LinesTally, Count, Candidates, NetIn, Replay, Terminal, PlusEndings, Closing;
    FileParts(WholeLog(log));
    TradesReadBack(log);
    DecisionsReadBack(log);
    AtMostOneTrade(s, log);
    EndingsAgree(s, log);
  }

  lemma FileParts(lines: seq<Line>)
    ensures FileTally(lines).trades == LinesTally(lines).trades && FileTally(lines).decisions == LinesTally(lines).decisions
    ensures FileTally(lines).endings == PlusEndings(LinesTally(lines).endings, Closing(Terminal(lines)).endings)
  {
    PlusZero(LinesTally(lines));
    hide LinesTally, Terminal, PlusEndings;
  }

  lemma EndingsAgree(s: P.Settings, log: seq<Event>)
    requires Sound(s, log)
    ensures var t := FileTally(WholeLog(log)).endings;
            t.completed == Bit(Replay(log) == Some(COMPLETE)) && t.completed + t.errors == 1
  {
    hide Sound, WholeLog, FileTally, LinesTally, Replay, Terminal, Count;
    FileParts(WholeLog(log));
    SoundReplays(s, log);
    FinalCount(log);
    WholeTerminal(log);
    EndingsReadBack(log);
  }

  lemma FinalCount(log: seq<Event>)
    requires Replay(log).Some?
    ensures Count(log, SESSION_ERROR) == Bit(Replay(log) == Some(ERROR))
  {
    ReplayCounted(log);
    hide Replay, Count;
  }

  function WholeAll(logs: seq<seq<Event>>): seq<seq<Line>> {
    seq(|logs|, k requires 0 <= k < |logs| => WholeLog(logs[k]))
  }

  function Completions(logs: seq<seq<Event>>): int {
    if logs == [] then 0 else Completions(logs[..|logs| - 1]) + Bit(Replay(logs[|logs| - 1]) == Some(COMPLETE))
  }

  function Occurrences(logs: seq<seq<Event>>, kind: EventType): int {
    if logs == [] then 0 else Occurrences(logs[..|logs| - 1], kind) + Count(logs[|logs| - 1], kind)
  }

  function NetOf(logs: seq<seq<Event>>): real {
    if logs == [] then 0.0 else NetOf(logs[..|logs| - 1]) + NetIn(logs[|logs| - 1])
  }

  /** What the review of writer's logs reports, in the writer's own terms. */
  ghost predicate Agrees(logs: seq<seq<Event>>, t: Tally) {
    && t.endings.completed == Completions(logs) && t.endings.completed + t.endings.errors == |logs|
    && t.trades.exits == Occurrences(logs, EXITED) && t.trades.fills == Occurrences(logs, ENTRY_FILLED)
    && 0 <= t.trades.exits <= t.trades.fills <= t.decisions.candidates <= |logs| && t.trades.net == NetOf(logs)
  }

  lemma NothingAgrees()
    ensures Agrees([], ZERO)
  {
  }

  lemma AgreesStep(logs: seq<seq<Event>>, before: Tally, file: Tally)
    requires logs != [] && Agrees(logs[..|logs| - 1], before) && FileAgrees(logs[|logs| - 1], file)
    ensures Agrees(logs, Plus(before, file))
  {
    hide Replay, Count, Candidates, NetIn;
  }

  /** The logs were written under their sessions' settings. */
  ghost predicate AllSound(settings: seq<P.Settings>, logs: seq<seq<Event>>) {
    |settings| == |logs| && forall k :: 0 <= k < |logs| ==> Sound(settings[k], logs[k])
  }

  lemma {:induction false} WholeAgrees(settings: seq<P.Settings>, logs: seq<seq<Event>>)
    requires AllSound(settings, logs)
    ensures Agrees(logs, DayTally(WholeAll(logs)))
  {
    hide FileTally, Sound, WholeLog, Agrees, FileAgrees, Plus;
    if logs == [] {
      NothingAgrees();
    } else {
      var n := |logs| - 1;
      WholeAgrees(settings[..n], logs[..n]);
      assert WholeAll(logs)[..n] == WholeAll(logs[..n]);
      assert Sound(settings[n], logs[n]);
      hide AllSound;
      SoundFileAgrees(settings[n], logs[n]);
      AgreesStep(logs, DayTally(WholeAll(logs[..n])), FileTally(WholeLog(logs[n])));
    }
  }

  /** The files of a day as a reader sees them. */
  function EncodeAll(headers: seq<Header>, logs: seq<seq<Event>>): seq<seq<Line>>
    requires |headers| == |logs|
  {
    seq(|logs|, k requires 0 <= k < |logs| => EncodeLog(headers[k], logs[k]))
  }

  ghost predicate DayUnbroken(headers: seq<Header>, logs: seq<seq<Event>>)
    requires |headers| == |logs|
  {
    forall k :: 0 <= k < |logs| ==> LogUnbroken(headers[k], logs[k])
  }

  lemma DayIsWhole(headers: seq<Header>, logs: seq<seq<Event>>)
    requires |headers| == |logs| && DayUnbroken(headers, logs)
    ensures EncodeAll(headers, logs) == WholeAll(logs)
  {
    hide LogUnbroken, EncodeLog, WholeLog;
    forall k | 0 <= k < |logs| ensures EncodeLog(headers[k], logs[k]) == WholeLog(logs[k]) {
      UnbrokenIsWhole(headers[k], logs[k]);
    }
  }

  /**
    The review of any logs the runner can produce succeeds exactly if no line of them
    quotes a line separator. It then agrees with the runner: every session is completed
    or in error, exits never outnumber fills, fills never outnumber entries, entries
    never outnumber sessions, and the net result is theirs.
   */
  lemma ReviewAgrees(settings: seq<P.Settings>, headers: seq<Header>, logs: seq<seq<Event>>)
    requires AllSound(settings, logs) && |headers| == |logs|
    ensures (forall k :: 0 <= k < |logs| ==> Readable(EncodeAll(headers, logs)[k])) <==> DayUnbroken(headers, logs)
    ensures DayUnbroken(headers, logs) ==> Agrees(logs, DayTally(EncodeAll(headers, logs)))
  {
    hide Sound, LogUnbroken, EncodeLog, Readable, Agrees, DayTally, WholeAll;
    forall k | 0 <= k < |logs| ensures Readable(EncodeAll(headers, logs)[k]) <==> LogUnbroken(headers[k], logs[k]) {
      ReadableIff(settings[k], headers[k], logs[k]);
    }
    if DayUnbroken(headers, logs) {
      DayIsWhole(headers, logs);
      WholeAgrees(settings, logs);
    }
  }

  /** The net result of the exit in a log: its bid against the limit, less the friction. */
  ghost predicate TradeResult(s: P.Settings, log: seq<Event>, i: nat, net: real)
    requires i < |log|
  {
    && log[i].payload.Exited? && CanTrade(s.config) && LimitIn(log[..i]).Some?
    && net == (log[i].payload.exitPrice - LimitIn(log[..i]).value) * 100.0 - Friction(s.config)
  }

  lemma ExitResult(s: P.Settings, log: seq<Event>)
    requires log != [] && Sound(s, log) && log[|log| - 1].payload.Exited?
    ensures TradeResult(s, log, |log| - 1, log[|log| - 1].payload.net)
    ensures Count(log[..|log| - 1], EXITED) == 0
  {
    var front := log[..|log| - 1];
    assert EventSound(s, front, log[|log| - 1]);
    hide Sound, LimitIn, FillIn, Friction, CanTrade, Count, Bounded;
    SoundIsPriced(s, front);
    OpenHasNoExit(front);
  }

  lemma OpenHasNoExit(log: seq<Event>)
    requires Replay(log) == Some(POSITION_OPEN)
    ensures Count(log, EXITED) == 0
  {
    ReplayCounted(log);
  }

  lemma ResultInLonger(s: P.Settings, log: seq<Event>, i: nat, net: real)
    requires i < |log| - 1 && TradeResult(s, log[..|log| - 1], i, net)
    ensures TradeResult(s, log, i, net)
  {
    assert log[..|log| - 1][..i] == log[..i];
  }

  /** A session that never exits nets nothing; one that does nets exactly its trade. */
  lemma {:induction false} NetOfTrade(s: P.Settings, log: seq<Event>)
    requires Sound(s, log)
    ensures Count(log, EXITED) == 0 ==> NetIn(log) == 0.0
    ensures Count(log, EXITED) == 1 ==> exists i :: 0 <= i < |log| && TradeResult(s, log, i, NetIn(log))
  {
    if log != [] {
      var n := |log| - 1;
      NetOfTrade(s, log[..n]);
      hide Sound, TradeResult, Count;
      CountStep(log, EXITED);
      if log[n].payload.Exited? {
        ExitResult(s, log);
        assert NetIn(log) == log[n].payload.net;
      } else if Count(log, EXITED) == 1 {
        var i :| 0 <= i < n && TradeResult(s, log[..n], i, NetIn(log[..n]));
        ResultInLonger(s, log, i, NetIn(log));
      }
    }
  }

  lemma {:induction false} WholePilots(s: P.Settings, log: seq<Event>)
    requires Sound(s, log)
    ensures var pilots := LinesTally(WholeLog(log)).decisions.pilots;
            0 <= pilots && (0 < pilots <==> s.pilotMode && 0 < Candidates(log))
  {
    if log != [] {
      WholePilots(s, log[..|log| - 1]);
      hide Sound, WholeLog, LinesTally, LineTally, LineTrades, LineEndings, LineDecisions, PlusTrades, PlusEndings, RawOf, Due;
      LinesStep(log);
      EncodedParts(log[|log| - 1]);
      PilotMarks(log[|log| - 1].payload);
      MarkedIff(s, log);
    }
  }

  /** The reader counts a pilot decision exactly where a pilot session decided to enter. */
  lemma PilotsReadBack(s: P.Settings, h: Header, log: seq<Event>)
    requires Sound(s, log) && LogUnbroken(h, log)
    ensures var pilots := LinesTally(EncodeLog(h, log)).decisions.pilots;
            0 <= pilots && (0 < pilots <==> s.pilotMode && 0 < Candidates(log))
  {
    hide Sound, LogUnbroken, EncodeLog, WholeLog, LinesTally, Candidates;
    UnbrokenIsWhole(h, log);
    WholePilots(s, log);
  }

  lemma PilotMarks(p: Payload)
    ensures var pilots := LineDecisions(TypeOf(p), RawOf(p)).pilots;
            0 <= pilots && (0 < pilots <==> p.Recorded? && P.PILOT_NOT_STRATEGY_EVIDENCE in p.decision.reasons)
  {
  }

  lemma MarkedIff(s: P.Settings, log: seq<Event>)
    requires log != [] && Sound(s, log)
    ensures Due(log) && s.pilotMode <==>
              log[|log| - 1].payload.Recorded? && P.PILOT_NOT_STRATEGY_EVIDENCE in log[|log| - 1].payload.decision.reasons
  {
    assert EventSound(s, log[..|log| - 1], log[|log| - 1]);
    hide Sound, Replay, Transition, HeldSound, ExitSound, Bounded;
  }
}
