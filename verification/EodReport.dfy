/** The end-of-day adjudicator: one trajectory's events replayed into a virtual trade. */
module EodReport {
  import opened Common
  import opened Trajectory
  import opened TrajectoryDay
  import opened TrajectoryEvidence
  import SafetyConfig
  import SessionLog

  /** The frozen fill window and its tolerance for clock-read skew. */
  const FILL_WINDOW_SKEW := 5 * SECOND

  datatype Outcome =
    | NO_CANDIDATE_EVENT | REJECTED_NO_TRADE | NO_LIMIT_PRICE | NO_FILL | NO_FILL_WINDOW_EXPIRED
    | FILLED_NO_HORIZON_CLOSE | FILLED_AND_EXITED

  datatype TradeRecord = TradeRecord(
    id: TrajectoryId, underlying: string, right: Option<Right>, strike: Option<real>, labels: set<string>,
    rejections: Option<seq<string>>, outcome: Outcome, entryLimit: Option<real>, entryFill: Option<real>,
    exitBid: Option<real>, gross: Option<real>, friction: Option<real>, net: Option<real>)

  function RoundTripFriction(f: SafetyConfig.FrictionModel): real
    requires SessionLog.FrictionPresent(f)
  {
    f.perContractFee.value * 2.0 + f.regulatoryExitFee.value + f.exitSlippageTicks.value * f.tickSize.value * 100.0
  }

  /** The report charges exactly what the session runner charges. */
  lemma SameFriction(f: SafetyConfig.FrictionModel)
    requires SessionLog.FrictionPresent(f)
    ensures RoundTripFriction(f) == SessionLog.ExitFriction(f)
  {
  }

  // ------------------------------------------------------------ reading events

  function OfKind(events: seq<Event>, kind: Kind): (r: seq<Event>)
    ensures forall e :: e in r <==> e in events && e.kind == kind
  {
    if events == [] then []
    else
      var last := events[|events| - 1];
      if last.kind == kind then OfKind(events[..|events| - 1], kind) + [last] else OfKind(events[..|events| - 1], kind)
  }

  function LabelsOf(events: seq<Event>): set<string> {
    set i, k | 0 <= i < |events| && 0 <= k < |events[i].labels| :: events[i].labels[k]
  }

  /** Stable insertion: after every quote received no later. */
  function InsertQuote(quotes: seq<Event>, q: Event): (r: seq<Event>)
    ensures forall x :: x in r <==> x in quotes || x == q
  {
    if quotes == [] || quotes[|quotes| - 1].receivedAt <= q.receivedAt then quotes + [q]
    else InsertQuote(quotes[..|quotes| - 1], q) + [quotes[|quotes| - 1]]
  }

  /** Python's stable sort by receipt. */
  function ByReceipt(quotes: seq<Event>): (r: seq<Event>)
    ensures forall x :: x in r <==> x in quotes
  {
    if quotes == [] then [] else InsertQuote(ByReceipt(quotes[..|quotes| - 1]), quotes[|quotes| - 1])
  }

  ghost predicate InOrder(quotes: seq<Event>) {
    forall i, j :: 0 <= i < j < |quotes| ==> quotes[i].receivedAt <= quotes[j].receivedAt
  }

  lemma {:induction false} InsertInOrder(quotes: seq<Event>, q: Event)
    requires InOrder(quotes)
    ensures InOrder(InsertQuote(quotes, q))
  {
    if quotes != [] && q.receivedAt < quotes[|quotes| - 1].receivedAt {
      var front, last := quotes[..|quotes| - 1], quotes[|quotes| - 1];
      InsertInOrder(front, q);
      var r := InsertQuote(front, q);
      forall i | 0 <= i < |r| ensures r[i].receivedAt <= last.receivedAt {
        assert r[i] in r;
        if r[i] != q {
          var k :| 0 <= k < |front| && front[k] == r[i];
          assert quotes[k] == r[i];
        }
      }
    }
  }

  lemma {:induction false} ByReceiptInOrder(quotes: seq<Event>)
    ensures InOrder(ByReceipt(quotes))
  {
    if quotes != [] {
      ByReceiptInOrder(quotes[..|quotes| - 1]);
      InsertInOrder(ByReceipt(quotes[..|quotes| - 1]), quotes[|quotes| - 1]);
    }
  }

  // ----------------------------------------------------------- adjudication

  /** The quote was seen after the candidate, inside its window. */
  predicate InWindow(c: Event, q: Event) {
    c.receivedAt < q.receivedAt <= c.receivedAt + FILL_WINDOW + FILL_WINDOW_SKEW
  }

  /** The quote was seen after the window had closed. */
  predicate PastWindow(c: Event, q: Event) {
    c.receivedAt + FILL_WINDOW + FILL_WINDOW_SKEW < q.receivedAt
  }

  /** The quote shows that the candidate's limit could have been filled. */
  predicate Fills(c: Event, q: Event) {
    q.kind == QUOTE && InWindow(c, q) && c.ask.Some? && q.ask.Some? && q.ask.value <= c.ask.value
  }

  /** `q` is the earliest quote that fills. */
  ghost predicate IsFill(events: seq<Event>, c: Event, q: Event) {
    q in events && Fills(c, q) && forall e :: e in events && Fills(c, e) ==> q.receivedAt <= e.receivedAt
  }

  /** Looks for the fill among the quotes in time order; the flag tells whether any came too late before it. */
  method FindFill(quotes: seq<Event>, c: Event) returns (fill: Option<Event>, expiredSeen: bool)
    requires InOrder(quotes) && c.ask.Some? && forall q :: q in quotes ==> q.kind == QUOTE
    ensures fill.Some? ==> IsFill(quotes, c, fill.value)
    ensures fill.None? ==> forall q :: q in quotes ==> !Fills(c, q)
    ensures fill.None? ==> (expiredSeen <==> exists q :: q in quotes && PastWindow(c, q))
  {
    fill, expiredSeen := None, false;
    for i := 0 to |quotes|
      invariant forall j :: 0 <= j < i ==> !Fills(c, quotes[j])
      invariant expiredSeen <==> exists j :: 0 <= j < i && PastWindow(c, quotes[j])
    {
      var q := quotes[i];
      if q.receivedAt <= c.receivedAt {
        continue;
      }
      if q.receivedAt - c.receivedAt > FILL_WINDOW + FILL_WINDOW_SKEW {
        expiredSeen := true;
        continue;
      }
      if q.ask.Some? && q.ask.value <= c.ask.value {
        EarliestFill(quotes, c, i);
        return Some(q), expiredSeen;
      }
    }
    if expiredSeen {
      var j :| 0 <= j < |quotes| && PastWindow(c, quotes[j]);
      assert quotes[j] in quotes;
    }
  }

  lemma EarliestFill(quotes: seq<Event>, c: Event, i: nat)
    requires InOrder(quotes) && i < |quotes| && Fills(c, quotes[i]) && forall j :: 0 <= j < i ==> !Fills(c, quotes[j])
    ensures IsFill(quotes, c, quotes[i])
  {
    hide Fills;
    forall e | e in quotes && Fills(c, e) ensures quotes[i].receivedAt <= e.receivedAt {
      var j :| 0 <= j < |quotes| && quotes[j] == e;
    }
  }

  /** What a replayed record says about the candidate `c` of its events. */
  ghost predicate Adjudicates(events: seq<Event>, c: Event, friction: real, r: TradeRecord) {
    && r.rejections == Some(c.rejections)
    && if c.rejections != [] then r.outcome == REJECTED_NO_TRADE && Untraded(r) && r.entryLimit == None
       else
         && r.entryLimit == c.ask
         && if c.ask.None? then r.outcome == NO_LIMIT_PRICE && Untraded(r)
            else if forall q :: q in events ==> !Fills(c, q) then
              && Untraded(r)
              && r.outcome == if exists q :: q in events && q.kind == QUOTE && PastWindow(c, q) then NO_FILL_WINDOW_EXPIRED else NO_FILL
            else
              && (exists q :: IsFill(events, c, q) && r.entryFill == q.ask)
              && Settles(OfKind(events, HORIZON_CLOSE), friction, r)
  }

  predicate Untraded(r: TradeRecord) {
    r.entryFill == None && r.exitBid == None && r.gross == None && r.friction == None && r.net == None
  }

  /** The exit of a filled trade: at the bid of the first close, less the friction. */
  predicate Settles(closes: seq<Event>, friction: real, r: TradeRecord) {
    r.entryFill.Some? &&
    if closes == [] || closes[0].bid.None? then
      r.outcome == FILLED_NO_HORIZON_CLOSE && r.exitBid == None && r.gross == None && r.friction == None && r.net == None
    else
      && r.outcome == FILLED_AND_EXITED && r.exitBid == closes[0].bid && r.friction == Some(friction)
      && r.gross == Some((closes[0].bid.value - r.entryFill.value) * 100.0) && r.net == Some(r.gross.value - friction)
  }

  /** The fields that do not depend on what was traded. */
  predicate Describes(events: seq<Event>, r: TradeRecord)
    requires events != []
  {
    && r.id == events[0].id && r.underlying == events[0].underlying && r.right == events[0].right && r.strike == events[0].strike
    && r.labels == LabelsOf(events)
  }

  method ReconstructTrade(events: seq<Event>, friction: real) returns (r: TradeRecord)
    requires events != []
    ensures Describes(events, r)
    ensures OfKind(events, CANDIDATE) == [] ==> r.outcome == NO_CANDIDATE_EVENT && Untraded(r) && r.entryLimit == None
    ensures OfKind(events, CANDIDATE) != [] ==> Adjudicates(events, OfKind(events, CANDIDATE)[0], friction, r)
  {
    hide LabelsOf, ByReceipt, InOrder, Fills, PastWindow, OfKind;
    var candidates, quotes, closes := OfKind(events, CANDIDATE), OfKind(events, QUOTE), OfKind(events, HORIZON_CLOSE);
    var first := events[0];
    r := TradeRecord(first.id, first.underlying, first.right, first.strike, LabelsOf(events), None, NO_CANDIDATE_EVENT,
                     None, None, None, None, None, None);
    if candidates == [] {
      return;
    }
    var c := candidates[0];
    r := r.(rejections := Some(c.rejections));
    if c.rejections != [] {
      r := r.(outcome := REJECTED_NO_TRADE);
      return;
    }
    r := r.(entryLimit := c.ask);
    if c.ask.None? {
      r := r.(outcome := NO_LIMIT_PRICE);
      return;
    }
    ByReceiptInOrder(quotes);
    var fill, expiredSeen := FindFill(ByReceipt(quotes), c);
    FillsAreQuotes(events, c);
    if fill.None? {
      r := r.(outcome := if expiredSeen then NO_FILL_WINDOW_EXPIRED else NO_FILL);
      return;
    }
    FillOfQuotes(events, ByReceipt(quotes), c, fill.value);
    FillHasAsk(c, fill.value);
    r := r.(entryFill := fill.value.ask);
    if closes == [] || closes[0].bid.None? {
      r := r.(outcome := FILLED_NO_HORIZON_CLOSE);
      return;
    }
    var exitBid := closes[0].bid.value;
    var gross := (exitBid - fill.value.ask.value) * 100.0;
    r := r.(exitBid := Some(exitBid), outcome := FILLED_AND_EXITED, gross := Some(gross), friction := Some(friction),
            net := Some(gross - friction));
  }

  lemma FillsAreQuotes(events: seq<Event>, c: Event)
    ensures forall q :: q in events && Fills(c, q) ==> q.kind == QUOTE
  {
  }

  lemma FillHasAsk(c: Event, q: Event)
    requires Fills(c, q)
    ensures q.ask.Some?
  {
  }

  lemma FillOfQuotes(events: seq<Event>, quotes: seq<Event>, c: Event, q: Event)
    requires IsFill(quotes, c, q) && forall e :: e in quotes <==> e in events && e.kind == QUOTE
    ensures IsFill(events, c, q) && !(forall e :: e in events ==> !Fills(c, e))
  {
  }

  // --------------------------------------------------------- what the fill means

  predicate IsFilled(o: Outcome) {
    o == FILLED_NO_HORIZON_CLOSE || o == FILLED_AND_EXITED
  }

  /**
    A trade is reported filled exactly when some quote after the candidate, within 65
    seconds, had an ask at or under the limit; the earliest such quote is the fill.
   */
  lemma FilledIff(events: seq<Event>, c: Event, friction: real, r: TradeRecord)
    requires Adjudicates(events, c, friction, r) && c.rejections == [] && c.ask.Some?
    ensures IsFilled(r.outcome) <==> exists q :: q in events && Reaches(c, q)
    ensures IsFilled(r.outcome) <==> r.entryFill.Some?
    ensures r.entryFill.Some? ==>
              exists q :: q in events && Reaches(c, q) && r.entryFill == q.ask
                          && forall e :: e in events && Reaches(c, e) ==> q.receivedAt <= e.receivedAt
    ensures r.entryFill.Some? ==> r.entryFill.value <= c.ask.value
  {
    hide OfKind, PastWindow;
    forall q ensures Reaches(c, q) <==> Fills(c, q) {
    }
    if q :| IsFill(events, c, q) && r.entryFill == q.ask {
      assert Fills(c, q);
    }
  }

  /** The quote came after the candidate, within 65 seconds of it, with an ask at or under the candidate's. */
  predicate Reaches(c: Event, q: Event) {
    && q.kind == QUOTE && 0 < q.receivedAt - c.receivedAt <= 65_000_000
    && c.ask.Some? && q.ask.Some? && q.ask.value <= c.ask.value
  }

  /** Which outcome a candidate's trade has. */
  ghost predicate Ends(events: seq<Event>, c: Event, outcome: Outcome) {
    var closes := OfKind(events, HORIZON_CLOSE);
    match outcome
    case NO_CANDIDATE_EVENT => false
    case REJECTED_NO_TRADE => c.rejections != []
    case NO_LIMIT_PRICE => c.rejections == [] && c.ask.None?
    case NO_FILL_WINDOW_EXPIRED =>
      c.rejections == [] && c.ask.Some? && (forall q :: q in events ==> !Reaches(c, q))
      && exists q :: q in events && q.kind == QUOTE && 65_000_000 < q.receivedAt - c.receivedAt
    case NO_FILL =>
      c.rejections == [] && c.ask.Some?
      && forall q :: q in events ==> !Reaches(c, q) && !(q.kind == QUOTE && 65_000_000 < q.receivedAt - c.receivedAt)
    case FILLED_NO_HORIZON_CLOSE =>
      c.rejections == [] && (exists q :: q in events && Reaches(c, q)) && (closes == [] || closes[0].bid.None?)
    case FILLED_AND_EXITED =>
      c.rejections == [] && (exists q :: q in events && Reaches(c, q)) && closes != [] && closes[0].bid.Some?
  }

  /** Every outcome is reported exactly when it is the right one, and money only of a trade that was exited. */
  lemma OutcomeIff(events: seq<Event>, c: Event, friction: real, r: TradeRecord)
    requires Adjudicates(events, c, friction, r)
    ensures forall outcome :: r.outcome == outcome <==> Ends(events, c, outcome)
    ensures r.entryLimit == if c.rejections == [] then c.ask else None
    ensures r.net.Some? <==> r.outcome == FILLED_AND_EXITED
    ensures r.net.Some? ==>
              && r.entryFill.Some? && r.exitBid.Some? && r.exitBid == OfKind(events, HORIZON_CLOSE)[0].bid
              && r.gross == Some((r.exitBid.value - r.entryFill.value) * 100.0) && r.friction == Some(friction)
              && r.net.value == (r.exitBid.value - r.entryFill.value) * 100.0 - friction
  {
    hide OfKind;
    if c.rejections == [] && c.ask.Some? {
      FilledIff(events, c, friction, r);
    }
    forall q ensures Reaches(c, q) <==> Fills(c, q) {
    }
    hide Reaches, Fills;
    forall q ensures PastWindow(c, q) <==> 65_000_000 < q.receivedAt - c.receivedAt {
    }
    hide PastWindow;
  }

  /** A record carries every label of its events, and no other. */
  lemma LabelsOfIff(events: seq<Event>, name: string)
    ensures name in LabelsOf(events) <==> exists e :: e in events && name in e.labels
  {
    if e :| e in events && name in e.labels {
      var i :| 0 <= i < |events| && events[i] == e;
      var k :| 0 <= k < |events[i].labels| && events[i].labels[k] == name;
    }
  }

  /** The events of a kind are read in their order: the first of them is the first there is. */
  lemma {:induction false} FirstOfKind(events: seq<Event>, kind: Kind) returns (i: nat)
    requires OfKind(events, kind) != []
    ensures i < |events| && events[i] == OfKind(events, kind)[0] && events[i].kind == kind
    ensures forall j :: 0 <= j < i ==> events[j].kind != kind
  {
    var n := |events| - 1;
    if OfKind(events[..n], kind) != [] {
      i := FirstOfKind(events[..n], kind);
      assert forall j :: 0 <= j <= i ==> events[..n][j] == events[j];
    } else {
      i := n;
      NoneOfKind(events[..n], kind);
      assert forall j :: 0 <= j < n ==> events[j] in events[..n];
    }
  }

  lemma NoneOfKind(events: seq<Event>, kind: Kind)
    requires OfKind(events, kind) == []
    ensures forall e :: e in events ==> e.kind != kind
  {
    forall e | e in events ensures e.kind != kind {
      assert e !in OfKind(events, kind);
    }
  }

  /** No two quotes carry the same receipt time. */
  ghost predicate DistinctQuotes(events: seq<Event>) {
    forall a, b :: a in events && b in events && a.kind == QUOTE && b.kind == QUOTE && a.receivedAt == b.receivedAt ==> a == b
  }

  /** A list of events the recorder can leave: one candidate, at most one close. */
  ghost predicate Recorded(events: seq<Event>) {
    && events != [] && DistinctQuotes(events)
    && (forall a, b :: a in events && b in events && a.kind == CANDIDATE && b.kind == CANDIDATE ==> a == b)
    && (forall a, b :: a in events && b in events && a.kind == HORIZON_CLOSE && b.kind == HORIZON_CLOSE ==> a == b)
    && (exists a :: a in events && a.kind == CANDIDATE)
  }

  lemma SameFirst(a: seq<Event>, b: seq<Event>, kind: Kind)
    requires (forall e :: e in a <==> e in b) && forall x, y :: x in a && y in a && x.kind == kind && y.kind == kind ==> x == y
    ensures OfKind(a, kind) == [] <==> OfKind(b, kind) == []
    ensures OfKind(a, kind) != [] ==> OfKind(b, kind)[0] == OfKind(a, kind)[0]
  {
    if OfKind(a, kind) != [] {
      assert OfKind(a, kind)[0] in OfKind(a, kind);
      assert OfKind(a, kind)[0] in OfKind(b, kind);
    }
    if OfKind(b, kind) != [] {
      assert OfKind(b, kind)[0] in OfKind(b, kind);
      assert OfKind(b, kind)[0] in OfKind(a, kind);
    }
    hide OfKind;
  }

  /** The outcome and the money of a record. */
  predicate SameTrade(r: TradeRecord, t: TradeRecord) {
    && r.rejections == t.rejections && r.outcome == t.outcome && r.entryLimit == t.entryLimit && r.entryFill == t.entryFill
    && r.exitBid == t.exitBid && r.gross == t.gross && r.friction == t.friction && r.net == t.net
  }

  /** Distinct receipt times leave only one earliest fill. */
  lemma SameFill(a: seq<Event>, b: seq<Event>, c: Event, p: Event, q: Event)
    requires DistinctQuotes(a) && (forall e :: e in a <==> e in b) && IsFill(a, c, p) && IsFill(b, c, q)
    ensures p == q
  {
    FillsAreQuotes(a, c);
    hide Fills;
    assert p.receivedAt == q.receivedAt;
  }

  /** Events that differ only in order are adjudicated alike. */
  lemma SameAdjudication(a: seq<Event>, b: seq<Event>, c: Event, friction: real, r: TradeRecord, t: TradeRecord)
    requires DistinctQuotes(a) && (forall e :: e in a <==> e in b)
    requires Adjudicates(a, c, friction, r) && Adjudicates(b, c, friction, t)
    requires OfKind(a, HORIZON_CLOSE) == [] <==> OfKind(b, HORIZON_CLOSE) == []
    requires OfKind(a, HORIZON_CLOSE) != [] ==> OfKind(b, HORIZON_CLOSE)[0] == OfKind(a, HORIZON_CLOSE)[0]
    ensures SameTrade(r, t)
  {
    hide OfKind, Fills, PastWindow, IsFill, DistinctQuotes;
    if c.rejections == [] && c.ask.Some? {
      if q :| q in a && Fills(c, q) {
        assert q in b;
        var x :| IsFill(a, c, x) && r.entryFill == x.ask;
        var y :| IsFill(b, c, y) && t.entryFill == y.ask;
        SameFill(a, b, c, x, y);
        assert r.entryFill == t.entryFill;
      } else {
        assert forall q :: q in b ==> !Fills(c, q);
        assert (exists q :: q in a && q.kind == QUOTE && PastWindow(c, q)) <==> (exists q :: q in b && q.kind == QUOTE && PastWindow(c, q));
      }
    }
  }

  /** The order of the stored files does not matter: the same events give the same trade. */
  lemma OrderIsIrrelevant(a: seq<Event>, b: seq<Event>, friction: real, r: TradeRecord, t: TradeRecord)
    requires Recorded(a) && b != [] && forall e :: e in a <==> e in b
    requires OfKind(a, CANDIDATE) != [] ==> Adjudicates(a, OfKind(a, CANDIDATE)[0], friction, r)
    requires OfKind(b, CANDIDATE) != [] ==> Adjudicates(b, OfKind(b, CANDIDATE)[0], friction, t)
    ensures SameTrade(r, t)
  {
    SameFirst(a, b, CANDIDATE);
    SameFirst(a, b, HORIZON_CLOSE);
    var x :| x in a && x.kind == CANDIDATE;
    assert x in OfKind(a, CANDIDATE);
    hide OfKind, Adjudicates, SameTrade, DistinctQuotes;
    SameAdjudication(a, b, OfKind(a, CANDIDATE)[0], friction, r, t);
  }

  // -------------------------------------------------------------- dual clocks

  /** One audited quote: how long it took on each clock, and what each clock would say. */
  datatype Window = Window(quote: Event, receiptElapsed: int, venueElapsed: Option<int>, wouldFill: bool, inReceipt: bool, inVenue: bool,
                           diverges: bool)

  /** The limit as the audit reads it. */
  function LimitOf(c: Event): Option<real> {
    if c.limit.Some? then c.limit else c.ask
  }

  function WindowOf(c: Event, q: Event): Window
    requires LimitOf(c).Some? && c.deadline.Some? && q.ask.Some?
  {
    var length := c.deadline.value - c.receivedAt;
    var receipt := q.receivedAt - c.receivedAt;
    var venue := if q.sourceUpdatedAt.Some? && c.sourceUpdatedAt.Some?
                 then Some(q.sourceUpdatedAt.value - c.sourceUpdatedAt.value) else None;
    var inReceipt, inVenue := receipt <= length + FILL_WINDOW_SKEW, venue.Some? && venue.value <= length + FILL_WINDOW_SKEW;
    var wouldFill := q.ask.value <= LimitOf(c).value;
    Window(q, receipt, venue, wouldFill, inReceipt, inVenue, wouldFill && inVenue && !inReceipt)
  }

  predicate Audited(c: Event, q: Event) {
    q.kind == QUOTE && q.ask.Some? && LimitOf(c).Some? && c.deadline.Some?
  }

  /** The quotes of a trajectory that the audit looks at, in order. */
  function AuditedQuotes(c: Event, events: seq<Event>): seq<Event> {
    Filter(events, (q: Event) => Audited(c, q))
  }

  lemma AuditedStep(c: Event, events: seq<Event>, i: nat)
    requires i < |events|
    ensures AuditedQuotes(c, events[..i + 1])
            == if Audited(c, events[i]) then AuditedQuotes(c, events[..i]) + [events[i]] else AuditedQuotes(c, events[..i])
  {
    assert events[..i + 1][..i] == events[..i];
  }

  function QuotesOf(windows: seq<Window>): seq<Event> {
    seq(|windows|, i requires 0 <= i < |windows| => windows[i].quote)
  }

  /** Where the two clocks disagree about a fill. */
  ghost function Diverging(windows: seq<Window>): set<nat> {
    set i: nat | i < |windows| && windows[i].diverges
  }

  lemma OneMoreWindow(windows: seq<Window>, w: Window)
    ensures QuotesOf(windows + [w]) == QuotesOf(windows) + [w.quote]
    ensures |Diverging(windows + [w])| == |Diverging(windows)| + if w.diverges then 1 else 0
  {
    assert Diverging(windows + [w]) == Diverging(windows) + if w.diverges then {|windows|} else {};
  }

  /** One window for each audited quote of one trajectory's candidate, in order, and how many diverge. */
  method AuditFillWindows(events: seq<Event>) returns (windows: seq<Window>, divergences: nat)
    ensures var c := FirstUnrejected(events);
            && QuotesOf(windows) == (if c.None? then [] else AuditedQuotes(c.value, events))
            && forall w :: w in windows ==> c.Some? && Audited(c.value, w.quote) && w == WindowOf(c.value, w.quote)
    ensures divergences == |Diverging(windows)|
  {
    hide WindowOf, AuditedQuotes, QuotesOf, Diverging;
    windows, divergences := [], 0;
    var c := FirstUnrejected(events);
    NoWindows();
    if c.None? || LimitOf(c.value).None? || c.value.deadline.None? {
      NothingAudited(events);
      return;
    }
    assert events[..0] == [] && AuditedQuotes(c.value, []) == [] by {
      EmptyAudit(c.value);
    }
    for i := 0 to |events|
      invariant QuotesOf(windows) == AuditedQuotes(c.value, events[..i])
      invariant forall w :: w in windows ==> Audited(c.value, w.quote) && w == WindowOf(c.value, w.quote)
      invariant divergences == |Diverging(windows)|
    {
      AuditedStep(c.value, events, i);
      if events[i].kind != QUOTE || events[i].ask.None? {
        continue;
      }
      var w := WindowOf(c.value, events[i]);
      WindowNamesQuote(c.value, events[i]);
      OneMoreWindow(windows, w);
      windows := windows + [w];
      if w.diverges {
        divergences := divergences + 1;
      }
    }
    assert events[..|events|] == events;
  }

  lemma NoWindows()
    ensures QuotesOf([]) == [] && Diverging([]) == {}
  {
  }

  lemma EmptyAudit(c: Event)
    ensures AuditedQuotes(c, []) == []
  {
  }

  /** Without a limit or a deadline nothing is audited. */
  lemma NothingAudited(events: seq<Event>)
    ensures var c := FirstUnrejected(events);
            c.Some? && (LimitOf(c.value).None? || c.value.deadline.None?) ==> AuditedQuotes(c.value, events) == []
  {
    var c := FirstUnrejected(events);
    if c.Some? && AuditedQuotes(c.value, events) != [] {
      assert AuditedQuotes(c.value, events)[0] in AuditedQuotes(c.value, events);
    }
  }

  /** The windows are those of the audited quotes, and no others. */
  lemma WindowIff(c: Event, events: seq<Event>, windows: seq<Window>, q: Event)
    requires QuotesOf(windows) == AuditedQuotes(c, events)
    ensures q in events && Audited(c, q) <==> exists w :: w in windows && w.quote == q
  {
    assert q in AuditedQuotes(c, events) <==> q in events && Audited(c, q);
    hide AuditedQuotes, Audited;
    if q in QuotesOf(windows) {
      var i :| 0 <= i < |windows| && QuotesOf(windows)[i] == q;
      assert windows[i] in windows;
    }
    if w :| w in windows && w.quote == q {
      var i :| 0 <= i < |windows| && windows[i] == w;
      assert QuotesOf(windows)[i] == q;
    }
  }

  lemma WindowNamesQuote(c: Event, q: Event)
    requires LimitOf(c).Some? && c.deadline.Some? && q.ask.Some?
    ensures WindowOf(c, q).quote == q
  {
  }

  function FirstUnrejected(events: seq<Event>): Option<Event> {
    if events == [] then None
    else if OpensDay(events[0]) then Some(events[0]) else FirstUnrejected(events[1..])
  }

  /**
    The adjudicated fill and the audit's receipt clock agree: a trade is filled
    exactly when some audited quote after the candidate would fill inside the window
    on that clock. The venue clock never changes the outcome.
   */
  lemma AuditAgrees(events: seq<Event>, c: Event, friction: real, r: TradeRecord, windows: seq<Window>)
    requires Adjudicates(events, c, friction, r) && c.rejections == [] && CandidateTerms(c)
    requires QuotesOf(windows) == AuditedQuotes(c, events)
    requires forall w :: w in windows ==> Audited(c, w.quote) && w == WindowOf(c, w.quote)
    ensures IsFilled(r.outcome) <==> exists w :: w in windows && 0 < w.receiptElapsed && w.inReceipt && w.wouldFill
  {
    hide Reaches;
    ReachesAll(c);
    if c.ask.Some? {
      FilledIff(events, c, friction, r);
    } else {
      Unpriced(events, c, friction, r);
    }
    hide Adjudicates, QuotesOf, AuditedQuotes;
    if q :| q in events && Fills(c, q) {
      WindowIff(c, events, windows, q);
    }
    if w :| w in windows && 0 < w.receiptElapsed && w.inReceipt && w.wouldFill {
      WindowIff(c, events, windows, w.quote);
      assert Fills(c, w.quote);
    }
  }

  lemma ReachesAll(c: Event)
    ensures forall q :: Reaches(c, q) <==> Fills(c, q)
  {
  }

  /** What a window says: the time on each clock, whether each is inside the window with its five seconds, and where they part. */
  lemma WindowReads(c: Event, q: Event)
    requires LimitOf(c).Some? && c.deadline.Some? && q.ask.Some?
    ensures var w := WindowOf(c, q);
            && w.quote == q && w.receiptElapsed == q.receivedAt - c.receivedAt
            && (w.venueElapsed.Some? <==> q.sourceUpdatedAt.Some? && c.sourceUpdatedAt.Some?)
            && (w.venueElapsed.Some? ==> w.venueElapsed.value == q.sourceUpdatedAt.value - c.sourceUpdatedAt.value)
            && (w.inReceipt <==> q.receivedAt <= c.deadline.value + 5_000_000)
            && (w.inVenue <==> q.sourceUpdatedAt.Some? && c.sourceUpdatedAt.Some?
                               && c.receivedAt + (q.sourceUpdatedAt.value - c.sourceUpdatedAt.value) <= c.deadline.value + 5_000_000)
            && (w.wouldFill <==> q.ask.value <= if c.limit.Some? then c.limit.value else c.ask.value)
            && (w.diverges <==> w.wouldFill && w.inVenue && !w.inReceipt)
  {
  }

  /** The audited quotes are the priced ones, of a candidate with a limit (or else an ask) and a deadline. */
  lemma AuditedIff(c: Event, q: Event)
    ensures Audited(c, q) <==> q.kind == QUOTE && q.ask.Some? && c.deadline.Some? && (c.limit.Some? || c.ask.Some?)
  {
  }

  /** The audited candidate is the first that was not rejected. */
  lemma {:induction false} FirstUnrejectedIs(events: seq<Event>)
    ensures var c := FirstUnrejected(events);
            if c.None? then forall i :: 0 <= i < |events| ==> !(events[i].kind == CANDIDATE && events[i].rejections == [])
            else exists i :: 0 <= i < |events| && events[i] == c.value && events[i].kind == CANDIDATE && events[i].rejections == []
                             && forall j :: 0 <= j < i ==> !(events[j].kind == CANDIDATE && events[j].rejections == [])
  {
    if events != [] {
      FirstUnrejectedIs(events[1..]);
      var c := FirstUnrejected(events[1..]);
      if !OpensDay(events[0]) && c.Some? {
        var i :| 0 <= i < |events[1..]| && events[1..][i] == c.value && c.value.kind == CANDIDATE && c.value.rejections == []
                 && forall j :: 0 <= j < i ==> !(events[1..][j].kind == CANDIDATE && events[1..][j].rejections == []);
        assert events[i + 1] == c.value;
        assert forall j :: 0 < j < i + 1 ==> events[j] == events[1..][j - 1];
      } else if c.None? {
        assert forall j :: 0 < j < |events| ==> events[j] == events[1..][j - 1];
      }
    }
  }

  lemma Unpriced(events: seq<Event>, c: Event, friction: real, r: TradeRecord)
    requires Adjudicates(events, c, friction, r) && c.rejections == [] && c.ask.None?
    ensures !IsFilled(r.outcome) && forall q :: q in events ==> !Fills(c, q)
  {
  }

  /** Where the clocks diverge the trade could have filled on the venue's, and did not on this quote. */
  lemma DivergenceIsConservative(c: Event, q: Event)
    requires LimitOf(c).Some? && c.deadline.Some? && q.ask.Some? && CandidateTerms(c) && WindowOf(c, q).diverges
    ensures !Fills(c, q) && PastWindow(c, q)
  {
  }

  // ---------------------------------------------------- recorder to adjudicator

  /** What the recorder leaves is judged the same in any order. */
  lemma SaneIsRecorded(id: TrajectoryId, events: seq<Event>)
    requires Sane(id, events)
    ensures Recorded(events)
  {
    assert events[0] in events;
    hide Belongs, HorizonAt, HorizonIsObservable;
    forall a, b | a in events && b in events && a.kind == b.kind && (a.kind == QUOTE ==> a.receivedAt == b.receivedAt) ensures a == b {
      var i :| 0 <= i < |events| && events[i] == a;
      var j :| 0 <= j < |events| && events[j] == b;
      assert i < j ==> !SameFile(events[i], events[j]);
      assert j < i ==> !SameFile(events[j], events[i]);
    }
  }

  /** A sane trajectory of the recorder is judged on its one candidate and its one close. */
  lemma SaneIsJudgedOnce(id: TrajectoryId, events: seq<Event>)
    requires Sane(id, events)
    ensures OfKind(events, CANDIDATE) == [events[0]]
    ensures |OfKind(events, HORIZON_CLOSE)| <= 1
    ensures OfKind(events, HORIZON_CLOSE) != [] ==>
              OfKind(events, HORIZON_CLOSE)[0] == events[|events| - 1]
              && HorizonAt(events[0]) <= OfKind(events, HORIZON_CLOSE)[0].receivedAt
  {
    CloseComesLast(id, events);
    hide OfKind, Sane, HorizonAt;
    OneCandidate(id, events, |events|);
    OneClose(id, events, |events|);
    assert events[..|events|] == events;
  }

  lemma CloseComesLast(id: TrajectoryId, events: seq<Event>)
    requires Sane(id, events)
    ensures events != [] && (events[|events| - 1].kind == HORIZON_CLOSE ==> HorizonAt(events[0]) <= events[|events| - 1].receivedAt)
  {
    hide Belongs, HorizonAt, SameFile, HorizonIsObservable;
  }

  lemma {:induction false} OneCandidate(id: TrajectoryId, events: seq<Event>, n: nat)
    requires Sane(id, events) && 1 <= n <= |events|
    ensures OfKind(events[..n], CANDIDATE) == [events[0]]
  {
    assert events[..n][..n - 1] == events[..n - 1];
    if n > 1 {
      OneCandidate(id, events, n - 1);
    }
    hide Belongs, HorizonAt, HorizonIsObservable;
  }

  lemma {:induction false} OneClose(id: TrajectoryId, events: seq<Event>, n: nat)
    requires Sane(id, events) && n <= |events|
    ensures OfKind(events[..n], HORIZON_CLOSE)
            == if n == |events| && events[n - 1].kind == HORIZON_CLOSE then [events[n - 1]] else []
  {
    hide Belongs, HorizonAt, HorizonIsObservable;
    if n > 0 {
      assert events[..n][..n - 1] == events[..n - 1];
      OneClose(id, events, n - 1);
    }
  }

  /**
    From slots to profit and loss: whatever a day's slots recorded, a trajectory
    reported as filled and exited was bought at or under its recorded ask inside the
    window, sold at the bid of its close, an hour or more after the decision, and
    cannot lose more than its limit and the friction.
   */
  lemma DayTradesAreBounded(slots: seq<Sample>, now: int, id: TrajectoryId, friction: real, r: TradeRecord)
    requires OrderlyDay(slots) && (forall i :: 0 <= i < |slots| ==> slots[i].now <= now) && id in AfterSlots(slots)
    requires var events := AfterSlots(slots)[id];
             OfKind(events, CANDIDATE) != [] ==> Adjudicates(events, OfKind(events, CANDIDATE)[0], friction, r)
    requires r.outcome == FILLED_AND_EXITED && r.exitBid.Some? && 0.0 <= r.exitBid.value
    ensures var events := AfterSlots(slots)[id];
            && events != [] && events[0].ask.Some? && r.entryFill.Some? && r.entryFill.value <= events[0].ask.value
            && r.net.Some? && r.net.value == (r.exitBid.value - r.entryFill.value) * 100.0 - friction
            && r.net.value >= -(events[0].ask.value * 100.0) - friction
            && r.gross == Some((r.exitBid.value - r.entryFill.value) * 100.0) && r.friction == Some(friction)
            && SoldBySlot(slots, events[0], r.exitBid) && BoughtBySlot(slots, events[0], r.entryFill)
  {
    DaysAreSane(slots, now);
    DayIsRead(slots, now, id);
    var events := AfterSlots(slots)[id];
    hide AfterSlots, OrderlyDay, SoldBySlot, BoughtBySlot, AllRead;
    assert Sane(id, events);
    SaneIsJudgedOnce(id, events);
    hide SaneDay;
    ExitedFacts(id, events, friction, r);
    ExitedMoney(events, events[0], friction, r);
    var e :| e in events && e.kind == HORIZON_CLOSE && r.exitBid == e.bid;
    SoldAtRefresh(slots, id, events, e);
    FilledIff(events, events[0], friction, r);
    var q :| q in events && Reaches(events[0], q) && r.entryFill == q.ask;
    BoughtAtQuote(slots, id, events, q);
  }

  /** The price is the bid that some slot's refresh, an hour or more after the decision, was answered with for the contract itself. */
  ghost predicate SoldBySlot(slots: seq<Sample>, c: Event, price: Option<real>) {
    exists j :: 0 <= j < |slots| && SoldIn(slots[j], c, price)
  }

  predicate SoldIn(s: Sample, c: Event, price: Option<real>) {
    && s.evaluated && c.decisionTime + 3_600_000_000 <= s.now && s.refresh.Some?
    && c.instrumentId in s.refresh.value.quotes && price == s.refresh.value.quotes[c.instrumentId].bid
  }

  /** The price is the ask of a quote of the contract itself: the window probe's, or a refresh's received within 65 seconds. */
  ghost predicate BoughtBySlot(slots: seq<Sample>, c: Event, price: Option<real>) {
    exists j :: 0 <= j < |slots| && (AskedIn(slots[j].refresh, c, price) || WindowAskedIn(slots[j], c, price))
  }

  predicate AskedIn(probe: Option<Probe>, c: Event, price: Option<real>) {
    && probe.Some? && c.instrumentId in probe.value.quotes && price == probe.value.quotes[c.instrumentId].ask
    && 0 < probe.value.receivedAt - c.receivedAt <= 65_000_000
  }

  predicate WindowAskedIn(s: Sample, c: Event, price: Option<real>) {
    c.id.symbol in s.windows && AskedIn(Some(s.windows[c.id.symbol]), c, price) && c.decisionTime == s.now
  }

  lemma SoldAtRefresh(slots: seq<Sample>, id: TrajectoryId, events: seq<Event>, e: Event)
    requires Sane(id, events) && AllRead(slots, events) && e in events && e.kind == HORIZON_CLOSE
    ensures SoldBySlot(slots, events[0], e.bid)
  {
    hide Belongs, OpensFrom, CandidateTerms, HorizonIsObservable;
    var k :| 0 <= k < |events| && events[k] == e;
    assert ReadInDay(slots, events[0], events[k]);
    var j :| 0 <= j < |slots| && ReadBy(slots[j], events[0], e);
    assert SoldIn(slots[j], events[0], e.bid);
  }

  lemma BoughtAtQuote(slots: seq<Sample>, id: TrajectoryId, events: seq<Event>, q: Event)
    requires Sane(id, events) && AllRead(slots, events) && q in events && Reaches(events[0], q)
    ensures BoughtBySlot(slots, events[0], q.ask)
  {
    hide Belongs, OpensFrom, CandidateTerms, HorizonIsObservable;
    var k :| 0 <= k < |events| && events[k] == q;
    assert ReadInDay(slots, events[0], events[k]);
    var j :| 0 <= j < |slots| && ReadBy(slots[j], events[0], q);
    assert AskedIn(slots[j].refresh, events[0], q.ask) || WindowAskedIn(slots[j], events[0], q.ask);
  }

  /** Whatever a day's slots recorded, the audit's receipt clock agrees with the reported fill. */
  lemma DayAuditAgrees(slots: seq<Sample>, now: int, id: TrajectoryId, friction: real, r: TradeRecord, windows: seq<Window>)
    requires OrderlyDay(slots) && (forall i :: 0 <= i < |slots| ==> slots[i].now <= now) && id in AfterSlots(slots)
    requires var events := AfterSlots(slots)[id];
             && (OfKind(events, CANDIDATE) != [] ==> Adjudicates(events, OfKind(events, CANDIDATE)[0], friction, r))
             && QuotesOf(windows) == (if FirstUnrejected(events).None? then [] else AuditedQuotes(FirstUnrejected(events).value, events))
             && forall w :: w in windows ==>
                  && FirstUnrejected(events).Some? && Audited(FirstUnrejected(events).value, w.quote)
                  && w == WindowOf(FirstUnrejected(events).value, w.quote)
    ensures IsFilled(r.outcome) <==> exists w :: w in windows && 0 < w.receiptElapsed && w.inReceipt && w.wouldFill
  {
    DaysAreSane(slots, now);
    var events := AfterSlots(slots)[id];
    hide AfterSlots, OrderlyDay;
    assert Sane(id, events);
    SaneIsJudgedOnce(id, events);
    assert FirstUnrejected(events) == Some(events[0]) && CandidateTerms(events[0]) && events[0].rejections == [];
    hide SaneDay, Sane, OfKind, FirstUnrejected, CandidateTerms, Adjudicates, QuotesOf, AuditedQuotes, Audited, WindowOf;
    AuditAgrees(events, events[0], friction, r, windows);
  }

  lemma ExitedMoney(events: seq<Event>, c: Event, friction: real, r: TradeRecord)
    requires Adjudicates(events, c, friction, r) && r.outcome == FILLED_AND_EXITED && r.exitBid.Some? && r.entryFill.Some?
    ensures r.gross == Some((r.exitBid.value - r.entryFill.value) * 100.0) && r.friction == Some(friction)
  {
    hide OfKind, Fills, PastWindow, IsFill;
  }

  lemma ExitedFacts(id: TrajectoryId, events: seq<Event>, friction: real, r: TradeRecord)
    requires Sane(id, events) && OfKind(events, CANDIDATE) == [events[0]] && Adjudicates(events, events[0], friction, r)
    requires r.outcome == FILLED_AND_EXITED && r.exitBid.Some? && 0.0 <= r.exitBid.value
    requires OfKind(events, HORIZON_CLOSE) != [] ==> HorizonAt(events[0]) <= OfKind(events, HORIZON_CLOSE)[0].receivedAt
    ensures events[0].ask.Some? && r.entryFill.Some? && r.entryFill.value <= events[0].ask.value
    ensures r.net.Some? && r.net.value == (r.exitBid.value - r.entryFill.value) * 100.0 - friction
    ensures r.net.value >= -(events[0].ask.value * 100.0) - friction
    ensures exists e :: e in events && e.kind == HORIZON_CLOSE && r.exitBid == e.bid
                        && events[0].decisionTime + TARGET_HORIZON_MINUTES * MINUTE <= e.receivedAt
  {
    hide Reaches;
    FilledIff(events, events[0], friction, r);
    var closes := OfKind(events, HORIZON_CLOSE);
    hide OfKind, Fills, PastWindow, IsFill, Belongs;
    assert closes != [] ==> closes[0] in closes;
  }
}
