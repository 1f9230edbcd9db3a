/** Small shared vocabulary: options, results, instants and Python's list idioms. */
module Common {

  datatype Option<+T> = None | Some(value: T)

  datatype Result<+T, +E> = Success(value: T) | Failure(error: E)

  /** Instants are whole microseconds, the resolution of Python's `datetime`. */
  const SECOND := 1_000_000
  const MINUTE := 60_000_000
  const DAY := 86_400_000_000

  /** A timestamp with a UTC offset (its instant), or one without. */
  datatype Time = Aware(us: int) | Naive(us: int)

  function Sum(s: seq<real>): real {
    if s == [] then 0.0 else Sum(s[..|s| - 1]) + s[|s| - 1]
  }

  lemma SumStep(s: seq<real>, i: nat)
    requires i < |s|
    ensures Sum(s[..i + 1]) == Sum(s[..i]) + s[i]
  {
    assert s[..i + 1][..i] == s[..i];
  }

  lemma {:induction false} SumConcat(a: seq<real>, b: seq<real>)
    ensures Sum(a + b) == Sum(a) + Sum(b)
  {
    if b == [] {
      assert a + b == a;
    } else {
      assert (a + b)[..|a + b| - 1] == a + b[..|b| - 1];
      SumConcat(a, b[..|b| - 1]);
    }
  }

  /** `s[-n:]`. */
  function LastN<T>(s: seq<T>, n: int): (r: seq<T>)
    ensures forall x :: x in r ==> x in s
    ensures 0 < n ==> |r| == if n <= |s| then n else |s|
  {
    if 0 < n then (if n <= |s| then s[|s| - n..] else s)
    else if -n <= |s| then s[-n..]
    else []
  }

  /** The last `n` elements, the whole of a shorter list, and for `n` below 1 all but the first `-n`. */
  lemma LastNAt<T>(s: seq<T>, n: int)
    ensures 0 < n <= |s| ==> |LastN(s, n)| == n && forall k :: 0 <= k < n ==> LastN(s, n)[k] == s[|s| - n + k]
    ensures |s| < n ==> LastN(s, n) == s
    ensures n <= 0 ==> |LastN(s, n)| == if -n <= |s| then |s| + n else 0
    ensures n <= 0 ==> forall k :: 0 <= k < |LastN(s, n)| ==> LastN(s, n)[k] == s[k - n]
  {
    if n <= 0 {
      var from := -n;
      if from <= |s| {
        assert forall k :: 0 <= k < |s| - from ==> s[from..][k] == s[k + from];
      }
    }
  }

  /** Positions of `s` at which `keep` holds, in order: a list comprehension with a test. */
  function Filter<T(!new)>(s: seq<T>, keep: T -> bool): (r: seq<T>)
    ensures forall x :: x in r <==> x in s && keep(x)
    ensures |r| <= |s|
  {
    if s == [] then []
    else Filter(s[..|s| - 1], keep) + (if keep(s[|s| - 1]) then [s[|s| - 1]] else [])
  }

  lemma {:induction false} FilterAll<T(!new)>(s: seq<T>, keep: T -> bool)
    requires forall x :: x in s ==> keep(x)
    ensures Filter(s, keep) == s
  {
    if s != [] {
      FilterAll(s[..|s| - 1], keep);
      assert s == s[..|s| - 1] + [s[|s| - 1]];
    }
  }

  lemma {:induction false} FilterNone<T(!new)>(s: seq<T>, keep: T -> bool)
    requires forall x :: x in s ==> !keep(x)
    ensures Filter(s, keep) == []
  {
    if s != [] {
      FilterNone(s[..|s| - 1], keep);
    }
  }

  lemma {:induction false} FilterConcat<T(!new)>(a: seq<T>, b: seq<T>, keep: T -> bool)
    ensures Filter(a + b, keep) == Filter(a, keep) + Filter(b, keep)
  {
    if b == [] {
      assert a + b == a;
    } else {
      assert (a + b)[..|a + b| - 1] == a + b[..|b| - 1];
      FilterConcat(a, b[..|b| - 1], keep);
    }
  }

  /** `tuple(dict.fromkeys(s))`: the distinct elements, in order of first appearance. */
  function Dedup<T(==,!new)>(s: seq<T>): (r: seq<T>)
    ensures forall x :: x in r <==> x in s
    ensures forall i, j :: 0 <= i < j < |r| ==> r[i] != r[j]
    ensures r == [] <==> s == []
  {
    if s == [] then []
    else
      var rest := Dedup(s[..|s| - 1]);
      if s[|s| - 1] in s[..|s| - 1] then rest else rest + [s[|s| - 1]]
  }

  predicate IsSpace(c: char) {
    var k := c as int;
    9 <= k <= 13 || 28 <= k <= 32 || k == 133 || k == 160 || k == 5760 || 8192 <= k <= 8202
    || k == 8232 || k == 8233 || k == 8239 || k == 8287 || k == 12288
  }

  /** Empty or whitespace only. */
  predicate Blank(s: string) {
    forall i :: 0 <= i < |s| ==> IsSpace(s[i])
  }
}
