/** Folding the bars of several vaulted snapshots into one history per symbol. */
module BarMerge {
  import opened Common
  import opened Features

  // ---------------------------------------------------------------- merging

  function At(bars: seq<Bar>, t: int): seq<Bar> {
    Filter(bars, (b: Bar) => b.beginsAt == t)
  }

  ghost predicate Sorted(bars: seq<Bar>) {
    forall i, j :: 0 <= i < j < |bars| ==> bars[i].beginsAt <= bars[j].beginsAt
  }

  /** Stable insertion: after every bar that begins no later. */
  function Insert(bars: seq<Bar>, b: Bar): (r: seq<Bar>)
    ensures |r| == |bars| + 1
    ensures forall x :: x in r <==> x in bars || x == b
  {
    if bars == [] || bars[|bars| - 1].beginsAt <= b.beginsAt then bars + [b]
    else Insert(bars[..|bars| - 1], b) + [bars[|bars| - 1]]
  }

  /** Python's stable sort by opening time. */
  function SortByTime(bars: seq<Bar>): (r: seq<Bar>)
    ensures forall x :: x in r <==> x in bars
  {
    if bars == [] then [] else Insert(SortByTime(bars[..|bars| - 1]), bars[|bars| - 1])
  }

  lemma AtStep(bars: seq<Bar>, b: Bar, t: int)
    ensures At(bars + [b], t) == if b.beginsAt == t then At(bars, t) + [b] else At(bars, t)
  {
    FilterConcat(bars, [b], (x: Bar) => x.beginsAt == t);
  }

  lemma {:induction false} InsertSorted(bars: seq<Bar>, b: Bar)
    requires Sorted(bars)
    ensures Sorted(Insert(bars, b))
  {
    if bars != [] && b.beginsAt < bars[|bars| - 1].beginsAt {
      var front, last := bars[..|bars| - 1], bars[|bars| - 1];
      InsertSorted(front, b);
      forall x | x in Insert(front, b) ensures x.beginsAt <= last.beginsAt {
        if x in front {
          var i :| 0 <= i < |front| && front[i] == x;
          assert bars[i] == x;
        }
      }
      SortedAppend(Insert(front, b), last);
    }
  }

  lemma {:induction false} InsertAt(bars: seq<Bar>, b: Bar, t: int)
    ensures At(Insert(bars, b), t) == if b.beginsAt == t then At(bars, t) + [b] else At(bars, t)
  {
    AtStep(bars, b, t);
    hide At;
    if bars != [] && b.beginsAt < bars[|bars| - 1].beginsAt {
      var front, last := bars[..|bars| - 1], bars[|bars| - 1];
      InsertAt(front, b, t);
      AtStep(Insert(front, b), last, t);
      AtStep(front, last, t);
      assert bars == front + [last];
    }
  }

  lemma SortedAppend(bars: seq<Bar>, last: Bar)
    requires Sorted(bars) && forall x :: x in bars ==> x.beginsAt <= last.beginsAt
    ensures Sorted(bars + [last])
  {
  }

  lemma {:induction false} SortFacts(bars: seq<Bar>, t: int)
    ensures Sorted(SortByTime(bars)) && At(SortByTime(bars), t) == At(bars, t)
  {
    if bars == [] {
      return;
    }
    hide Insert, At, Sorted, SortByTime;
    var front, last := bars[..|bars| - 1], bars[|bars| - 1];
    SortStep(bars);
    SortFacts(front, t);
    InsertSorted(SortByTime(front), last);
    InsertAt(SortByTime(front), last, t);
    AtStep(front, last, t);
    assert bars == front + [last];
  }

  lemma SortStep(bars: seq<Bar>)
    requires bars != []
    ensures SortByTime(bars) == Insert(SortByTime(bars[..|bars| - 1]), bars[|bars| - 1])
  {
    hide Insert;
  }

  function Times(bars: seq<Bar>): set<int> {
    set b | b in bars :: b.beginsAt
  }

  function Unseen(bars: seq<Bar>, seen: set<int>): seq<Bar> {
    Filter(bars, (b: Bar) => b.beginsAt !in seen)
  }

  /** One snapshot's bars folded into those already held. */
  function Merged(existing: seq<Bar>, addition: seq<Bar>): seq<Bar> {
    SortByTime(existing + Unseen(addition, Times(existing)))
  }

  lemma UnseenStep(bars: seq<Bar>, seen: set<int>)
    requires bars != []
    ensures var n := |bars| - 1;
            Unseen(bars, seen) == if bars[n].beginsAt in seen then Unseen(bars[..n], seen) else Unseen(bars[..n], seen) + [bars[n]]
  {
  }

  lemma NothingUnseen(seen: set<int>, t: int)
    ensures Unseen([], seen) == [] && At([], t) == []
  {
  }

  lemma {:induction false} UnseenAt(bars: seq<Bar>, seen: set<int>, t: int)
    ensures At(Unseen(bars, seen), t) == if t in seen then [] else At(bars, t)
  {
    hide At, Unseen;
    if bars == [] {
      NothingUnseen(seen, t);
    } else {
      var front, last := bars[..|bars| - 1], bars[|bars| - 1];
      UnseenStep(bars, seen);
      UnseenAt(front, seen, t);
      AtStep(Unseen(front, seen), last, t);
      AtStep(front, last, t);
      assert bars == front + [last];
    }
  }

  lemma AtIsEmpty(bars: seq<Bar>, t: int)
    ensures At(bars, t) == [] <==> t !in Times(bars)
  {
    if t in Times(bars) {
      var b :| b in bars && b.beginsAt == t;
      assert b in At(bars, t);
    }
    if At(bars, t) != [] {
      var b := At(bars, t)[0];
      assert b in At(bars, t);
    }
  }

  /**
    Merging keeps bars in time order and, at every opening time, keeps exactly the
    bars already held there, or else the added ones with their repetitions.
   */
  lemma MergedAt(existing: seq<Bar>, addition: seq<Bar>, t: int)
    ensures Sorted(Merged(existing, addition))
    ensures At(Merged(existing, addition), t) == if At(existing, t) != [] then At(existing, t) else At(addition, t)
  {
    var added := Unseen(addition, Times(existing));
    SortFacts(existing + added, t);
    FilterConcat(existing, added, (b: Bar) => b.beginsAt == t);
    UnseenAt(addition, Times(existing), t);
    AtIsEmpty(existing, t);
    assert At(existing + added, t) == At(existing, t) + At(added, t);
    hide At, Times, Unseen, SortByTime;
  }

  /** Time order and the bars at each time determine the whole list. */
  lemma {:induction false} SortedIsDetermined(a: seq<Bar>, b: seq<Bar>)
    requires Sorted(a) && Sorted(b) && forall t :: At(a, t) == At(b, t)
    ensures a == b
    decreases |a|
  {
    if a == [] {
      EmptyIsDetermined(a, b);
    } else if b == [] {
      EmptyIsDetermined(b, a);
    } else {
      SameLast(a, b);
      var last := a[|a| - 1];
      var fa, fb := a[..|a| - 1], b[..|b| - 1];
      assert a == fa + [last] && b == fb + [last];
      forall t ensures At(fa, t) == At(fb, t) {
        AtStep(fa, last, t);
        AtStep(fb, last, t);
        assert At(a, t) == At(b, t);
        if last.beginsAt == t { SameInit(At(fa, t), At(fb, t), [last]); }
      }
      SortedFront(a);
      SortedFront(b);
      hide At, Sorted;
      SortedIsDetermined(fa, fb);
    }
  }

  lemma SortedFront(a: seq<Bar>)
    requires a != [] && Sorted(a)
    ensures Sorted(a[..|a| - 1])
  {
  }

  lemma SameInit(a: seq<Bar>, b: seq<Bar>, tail: seq<Bar>)
    requires a + tail == b + tail
    ensures a == b
  {
    assert a == (a + tail)[..|a|] && b == (b + tail)[..|b|];
  }

  lemma LastAt(a: seq<Bar>)
    requires a != []
    ensures var last := a[|a| - 1]; var own := At(a, last.beginsAt);
            own != [] && own[|own| - 1] == last
  {
    var last := a[|a| - 1];
    assert a == a[..|a| - 1] + [last];
    AtStep(a[..|a| - 1], last, last.beginsAt);
    hide At;
  }

  lemma SameLast(a: seq<Bar>, b: seq<Bar>)
    requires a != [] && b != [] && Sorted(a) && Sorted(b) && forall t :: At(a, t) == At(b, t)
    ensures a[|a| - 1] == b[|b| - 1]
  {
    LastOfSorted(a, b);
    LastOfSorted(b, a);
    LastAt(a);
    LastAt(b);
    hide At, Sorted;
  }

  lemma EmptyIsDetermined(a: seq<Bar>, b: seq<Bar>)
    requires a == [] && forall t :: At(a, t) == At(b, t)
    ensures b == []
  {
    if b != [] {
      NoneAt(a, b, b[0]);
    }
  }

  lemma NoneAt(a: seq<Bar>, b: seq<Bar>, x: Bar)
    requires a == [] && At(a, x.beginsAt) == At(b, x.beginsAt)
    ensures x !in b
  {
    AtIsEmpty(a, x.beginsAt);
    AtIsEmpty(b, x.beginsAt);
  }

  lemma LastOfSorted(a: seq<Bar>, b: seq<Bar>)
    requires a != [] && b != [] && Sorted(b) && forall t :: At(a, t) == At(b, t)
    ensures a[|a| - 1].beginsAt <= b[|b| - 1].beginsAt
  {
    var la := a[|a| - 1];
    assert la in At(a, la.beginsAt);
    assert la in b;
    var i :| 0 <= i < |b| && b[i] == la;
  }

  /** Folding the same snapshot in again changes nothing. */
  lemma MergeIsIdempotent(existing: seq<Bar>, addition: seq<Bar>)
    ensures Merged(Merged(existing, addition), addition) == Merged(existing, addition)
  {
    var once := Merged(existing, addition);
    var twice := Merged(once, addition);
    forall t ensures At(twice, t) == At(once, t) {
      MergedAt(existing, addition, t);
      MergedAt(once, addition, t);
    }
    MergedAt(existing, addition, 0);
    MergedAt(once, addition, 0);
    hide Merged, At;
    SortedIsDetermined(twice, once);
  }

  // -------------------------------------------------------------- snapshots

  /** One vaulted snapshot: its receipt time, if trusted, and its bars by symbol. */
  datatype Snapshot = Snapshot(receivedAt: Option<int>, bars: map<string, seq<Bar>>)

  function BarsFor(m: map<string, seq<Bar>>, symbol: string): seq<Bar> {
    if symbol in m then m[symbol] else []
  }

  /** The bars of one symbol merged over all snapshots, in order. */
  function MergedOver(snapshots: seq<Snapshot>, symbol: string): seq<Bar> {
    if snapshots == [] then []
    else
      var held := MergedOver(snapshots[..|snapshots| - 1], symbol);
      var last := snapshots[|snapshots| - 1].bars;
      if symbol in last then Merged(held, last[symbol]) else held
  }

  /** The accumulator that the snapshots are folded into. */
  class BarAccumulator {
    var grouped: map<string, seq<Bar>>

    constructor ()
      ensures grouped == map[]
    {
      grouped := map[];
    }

    method MergeBars(addition: map<string, seq<Bar>>)
      modifies this
      ensures grouped.Keys == old(grouped).Keys + addition.Keys
      ensures forall s :: s in grouped ==>
                grouped[s] == if s in addition then Merged(BarsFor(old(grouped), s), addition[s]) else old(grouped)[s]
    {
      hide Times, Unseen, SortByTime;
      var remaining := addition.Keys;
      while remaining != {}
        invariant remaining <= addition.Keys
        invariant grouped.Keys == old(grouped).Keys + (addition.Keys - remaining)
        invariant forall s :: s in grouped ==>
                    grouped[s] == if s in addition && s !in remaining then Merged(BarsFor(old(grouped), s), addition[s])
                                  else BarsFor(old(grouped), s)
      {
        var symbol :| symbol in remaining;
        var existing := if symbol in grouped then grouped[symbol] else [];
        var extended := existing + Unseen(addition[symbol], Times(existing));
        grouped := grouped[symbol := SortByTime(extended)];
        remaining := remaining - {symbol};
      }
    }
  }

  lemma MergedOverStep(snapshots: seq<Snapshot>, symbol: string, t: int)
    requires snapshots != []
    ensures var n := |snapshots| - 1; var held := At(MergedOver(snapshots[..n], symbol), t);
            At(MergedOver(snapshots, symbol), t)
            == if held != [] then held else At(BarsFor(snapshots[n].bars, symbol), t)
  {
    var n := |snapshots| - 1;
    if symbol in snapshots[n].bars {
      MergedAt(MergedOver(snapshots[..n], symbol), snapshots[n].bars[symbol], t);
    }
    NothingUnseen({}, t);
    hide At, Merged;
  }

  /** At every time the earliest snapshot that has bars there supplies them. */
  lemma {:induction false} FirstSnapshotWins(snapshots: seq<Snapshot>, symbol: string, k: nat, t: int)
    requires k < |snapshots| && At(BarsFor(snapshots[k].bars, symbol), t) != []
    requires forall i :: 0 <= i < k ==> At(BarsFor(snapshots[i].bars, symbol), t) == []
    ensures At(MergedOver(snapshots, symbol), t) == At(BarsFor(snapshots[k].bars, symbol), t)
    decreases |snapshots|
  {
    hide At, MergedOver, BarsFor;
    var n := |snapshots| - 1;
    MergedOverStep(snapshots, symbol, t);
    if k < n {
      assert snapshots[..n][k] == snapshots[k];
      FirstSnapshotWins(snapshots[..n], symbol, k, t);
    } else {
      NoSnapshotHas(snapshots[..n], symbol, t);
    }
  }

  lemma {:induction false} NoSnapshotHas(snapshots: seq<Snapshot>, symbol: string, t: int)
    requires forall i :: 0 <= i < |snapshots| ==> At(BarsFor(snapshots[i].bars, symbol), t) == []
    ensures At(MergedOver(snapshots, symbol), t) == []
  {
    if snapshots != [] {
      MergedOverStep(snapshots, symbol, t);
      NoSnapshotHas(snapshots[..|snapshots| - 1], symbol, t);
    }
  }

  lemma {:induction false} MergedOverSorted(snapshots: seq<Snapshot>, symbol: string)
    requires forall s :: s in snapshots ==> WellKeyed(s)
    ensures forall b :: b in MergedOver(snapshots, symbol) ==> b.symbol == symbol
    ensures (exists s :: s in snapshots && symbol in s.bars) ==> Sorted(MergedOver(snapshots, symbol))
    ensures (forall s :: s in snapshots ==> symbol !in s.bars) ==> MergedOver(snapshots, symbol) == []
  {
    if snapshots != [] {
      var n := |snapshots| - 1;
      MergedOverSorted(snapshots[..n], symbol);
      assert snapshots[n] in snapshots;
      if symbol in snapshots[n].bars {
        MergedAt(MergedOver(snapshots[..n], symbol), snapshots[n].bars[symbol], 0);
      }
    }
  }

  /** A snapshot files each bar under its own symbol. */
  ghost predicate WellKeyed(s: Snapshot) {
    forall symbol :: symbol in s.bars ==> forall b :: b in s.bars[symbol] ==> b.symbol == symbol
  }
}
