/** Text in code-point order, and directory listings sorted by file name. */
module Ordering {

  /** `a < b` for strings. */
  predicate Precedes(a: string, b: string) {
    b != "" && (a == "" || a[0] < b[0] || (a[0] == b[0] && Precedes(a[1..], b[1..])))
  }

  lemma {:induction false} PrecedesTotal(a: string, b: string)
    ensures a != b ==> Precedes(a, b) || Precedes(b, a)
    ensures !(Precedes(a, b) && Precedes(b, a))
  {
    if a != "" && b != "" && a[0] == b[0] {
      PrecedesTotal(a[1..], b[1..]);
      if a[1..] == b[1..] { assert a == [a[0]] + a[1..] && b == [b[0]] + b[1..]; }
    }
  }

  lemma {:induction false} PrecedesTransitive(a: string, b: string, c: string)
    requires Precedes(a, b) && Precedes(b, c)
    ensures Precedes(a, c)
  {
    if a != "" && a[0] == b[0] == c[0] {
      PrecedesTransitive(a[1..], b[1..], c[1..]);
    }
  }

  /** Fields of equal width are compared first. */
  lemma {:induction false} ConcatOrder(a: string, x: string, b: string, y: string)
    requires |a| == |b|
    ensures Precedes(a + x, b + y) <==> Precedes(a, b) || (a == b && Precedes(x, y))
  {
    if a == "" {
      assert a + x == x && b + y == y;
    } else {
      assert (a + x)[1..] == a[1..] + x && (b + y)[1..] == b[1..] + y;
      assert a == [a[0]] + a[1..] && b == [b[0]] + b[1..];
      ConcatOrder(a[1..], x, b[1..], y);
    }
  }

  lemma CommonPrefix(prefix: string, a: string, b: string)
    ensures Precedes(prefix + a, prefix + b) <==> Precedes(a, b)
  {
    ConcatOrder(prefix, a, prefix, b);
    PrecedesTotal(prefix, prefix);
  }

  // ------------------------------------------------------------- file names

  /** The file of `a` is listed before that of `b`; both names end in `suffix`. */
  predicate NamedBefore(a: string, b: string, suffix: string) {
    Precedes(a + suffix, b + suffix)
  }

  lemma NamesAreTotal(a: string, b: string, suffix: string)
    ensures a != b ==> NamedBefore(a, b, suffix) || NamedBefore(b, a, suffix)
    ensures !(NamedBefore(a, b, suffix) && NamedBefore(b, a, suffix))
  {
    PrecedesTotal(a + suffix, b + suffix);
    if a + suffix == b + suffix {
      assert (a + suffix)[..|a|] == a && (b + suffix)[..|b|] == b;
    }
    hide Precedes;
  }

  lemma NamesAreTransitive(a: string, b: string, c: string, suffix: string)
    requires NamedBefore(a, b, suffix) && NamedBefore(b, c, suffix)
    ensures NamedBefore(a, c, suffix)
  {
    PrecedesTransitive(a + suffix, b + suffix, c + suffix);
    hide Precedes;
  }

  /** Exactly the given files, sorted by name. */
  ghost predicate Listing(keys: set<string>, suffix: string, listing: seq<string>) {
    && (forall key :: key in listing <==> key in keys)
    && (forall i, j :: 0 <= i < j < |listing| ==> NamedBefore(listing[i], listing[j], suffix))
  }

  /** The file of the first name. */
  method Lowest(keys: set<string>, suffix: string) returns (low: string)
    requires keys != {}
    ensures low in keys && forall b :: b in keys && b != low ==> NamedBefore(low, b, suffix)
  {
    hide NamedBefore;
    low :| low in keys;
    var remaining := keys - {low};
    while remaining != {}
      invariant remaining <= keys && low in keys && low !in remaining
      invariant forall b :: b in keys && b !in remaining && b != low ==> NamedBefore(low, b, suffix)
    {
      var next :| next in remaining;
      remaining := remaining - {next};
      NamesAreTotal(low, next, suffix);
      if Precedes(next + suffix, low + suffix) {
        BeforeIs(next, low, suffix);
        forall b | b in keys && b !in remaining && b != next ensures NamedBefore(next, b, suffix) {
          if b != low { NamesAreTransitive(next, low, b, suffix); }
        }
        low := next;
      } else {
        BeforeIs(next, low, suffix);
      }
    }
  }

  lemma BeforeIs(a: string, b: string, suffix: string)
    ensures NamedBefore(a, b, suffix) <==> Precedes(a + suffix, b + suffix)
  {
  }

  /** `sorted(directory.glob("*" + suffix))`, by the part of the name in front of the suffix. */
  method ListFiles(keys: set<string>, suffix: string) returns (listing: seq<string>)
    ensures Listing(keys, suffix, listing)
  {
    hide NamedBefore;
    listing := [];
    var rest := keys;
    while rest != {}
      invariant rest <= keys && forall key :: key in listing <==> key in keys - rest
      invariant forall i, j :: 0 <= i < j < |listing| ==> NamedBefore(listing[i], listing[j], suffix)
      invariant forall a, b :: a in listing && b in rest ==> NamedBefore(a, b, suffix)
    {
      var low := Lowest(rest, suffix);
      listing := listing + [low];
      rest := rest - {low};
    }
  }

  ghost predicate IsHighest(keys: set<string>, suffix: string, high: string) {
    high in keys && forall b :: b in keys && b != high ==> NamedBefore(b, high, suffix)
  }

  lemma {:induction false} Highest(keys: set<string>, suffix: string) returns (high: string)
    requires keys != {}
    ensures IsHighest(keys, suffix, high)
  {
    hide NamedBefore;
    var x :| x in keys;
    var others := keys - {x};
    assert keys == others + {x};
    high := x;
    if others != {} {
      var h := Highest(others, suffix);
      NamesAreTotal(x, h, suffix);
      if NamedBefore(h, x, suffix) {
        forall b | b in keys && b != x ensures NamedBefore(b, x, suffix) {
          if b != h { NamesAreTransitive(b, h, x, suffix); }
        }
      } else {
        high := h;
      }
    }
  }

  lemma HighestIsThere(keys: set<string>, suffix: string)
    requires keys != {}
    ensures exists high :: IsHighest(keys, suffix, high)
  {
    var high := Highest(keys, suffix);
    hide IsHighest;
  }

  /** The listing of a set of files. */
  ghost function FilesIn(keys: set<string>, suffix: string): (r: seq<string>)
    ensures Listing(keys, suffix, r)
  {
    if keys == {} then []
    else
      HighestIsThere(keys, suffix);
      var last :| IsHighest(keys, suffix, last);
      FilesIn(keys - {last}, suffix) + [last]
  }

  /** A directory has one listing. */
  lemma {:induction false} ListingIsUnique(keys: set<string>, suffix: string, a: seq<string>, b: seq<string>)
    requires Listing(keys, suffix, a) && Listing(keys, suffix, b)
    ensures a == b
    decreases |a|
  {
    if a == [] {
      NoFiles(keys, suffix, a, b);
    } else {
      assert a[|a| - 1] in a;
      var x, y := a[|a| - 1], b[|b| - 1];
      assert y in b;
      hide NamedBefore;
      SameHighest(keys, suffix, a, b);
      ListingFront(keys, suffix, a);
      ListingFront(keys, suffix, b);
      ListingIsUnique(keys - {x}, suffix, a[..|a| - 1], b[..|b| - 1]);
      assert a == a[..|a| - 1] + [x] && b == b[..|b| - 1] + [y];
    }
  }

  lemma HasElement(s: seq<string>)
    ensures s != [] ==> exists key :: key in s
  {
    if s != [] { assert s[0] in s; }
  }

  lemma NoFiles(keys: set<string>, suffix: string, a: seq<string>, b: seq<string>)
    requires Listing(keys, suffix, a) && Listing(keys, suffix, b) && a == []
    ensures b == []
  {
    forall key ensures key !in b {
      assert key !in a;
    }
    HasElement(b);
  }

  lemma SameHighest(keys: set<string>, suffix: string, a: seq<string>, b: seq<string>)
    requires Listing(keys, suffix, a) && Listing(keys, suffix, b) && a != [] && b != []
    ensures a[|a| - 1] == b[|b| - 1]
  {
    hide NamedBefore;
    var x, y := a[|a| - 1], b[|b| - 1];
    assert x in a && y in b;
    var i :| 0 <= i < |b| && b[i] == x;
    var j :| 0 <= j < |a| && a[j] == y;
    NamesAreTotal(x, y, suffix);
  }

  lemma ListingFront(keys: set<string>, suffix: string, a: seq<string>)
    requires Listing(keys, suffix, a) && a != []
    ensures Listing(keys - {a[|a| - 1]}, suffix, a[..|a| - 1])
  {
    hide NamedBefore;
    var front, last := a[..|a| - 1], a[|a| - 1];
    NamesAreTotal(last, last, suffix);
    assert a == front + [last];
    forall key ensures key in front <==> key in keys - {last} {
      if key in front {
        var i :| 0 <= i < |front| && front[i] == key;
        assert NamedBefore(a[i], a[|a| - 1], suffix);
      }
    }
  }

  // --------------------------------------------------- how far a script gets

  /**
    Scripts work through a directory by name, and one that a file halts leaves that file
    and the rest untouched: reached is what is listed before every file that halts it.
   */
  ghost predicate Reached(keys: set<string>, halting: set<string>, suffix: string, key: string) {
    key in keys && forall other :: other in halting ==> NamedBefore(key, other, suffix)
  }

  ghost function ReachedKeys(keys: set<string>, halting: set<string>, suffix: string): set<string> {
    set key | key in keys && Reached(keys, halting, suffix, key)
  }

  /** The files in front of the first one that halts a script are those it reaches. */
  lemma ReachedIsPrefix(keys: set<string>, halting: set<string>, suffix: string, listing: seq<string>, n: nat)
    requires Listing(keys, suffix, listing) && halting <= keys && n <= |listing|
    requires forall j :: 0 <= j < n ==> listing[j] !in halting
    requires n < |listing| ==> listing[n] in halting
    ensures forall key :: key in listing[..n] <==> Reached(keys, halting, suffix, key)
    ensures halting == {} <==> n == |listing|
  {
    hide NamedBefore;
    forall key ensures key in listing[..n] <==> Reached(keys, halting, suffix, key) {
      if key in listing[..n] {
        var i :| 0 <= i < n && listing[i] == key;
        assert key in listing;
        forall other | other in halting ensures NamedBefore(key, other, suffix) {
          assert other in listing;
          var j :| 0 <= j < |listing| && listing[j] == other;
        }
      } else if key in keys {
        assert key in listing;
        var i :| 0 <= i < |listing| && listing[i] == key;
        LaterIsUnreached(keys, halting, suffix, listing, n, i);
      }
    }
    if n == |listing| {
      forall other ensures other !in halting {
        assert other in halting ==> other in listing;
      }
    }
  }

  lemma LaterIsUnreached(keys: set<string>, halting: set<string>, suffix: string, listing: seq<string>, n: nat, i: nat)
    requires Listing(keys, suffix, listing) && n < |listing| && listing[n] in halting
    requires i < |listing| && listing[i] !in listing[..n]
    ensures !Reached(keys, halting, suffix, listing[i])
  {
    assert forall j :: 0 <= j < n ==> listing[..n][j] == listing[j];
    NamesAreTotal(listing[n], listing[i], suffix);
    hide NamedBefore;
  }

  /** Where nothing halts the script every file is reached. */
  lemma AllReached(keys: set<string>, suffix: string, key: string)
    requires key in keys
    ensures Reached(keys, {}, suffix, key)
  {
  }

  lemma ReachedIsNotHalting(keys: set<string>, halting: set<string>, suffix: string, key: string)
    requires Reached(keys, halting, suffix, key)
    ensures key !in halting
  {
    NamesAreTotal(key, key, suffix);
    hide NamedBefore;
  }
}
