/** Stock result types and a few facts about duplicate-free sequences. */
module Wrappers {

  datatype Option<+T> = None | Some(value: T)

  datatype Result<+T, +E> = Ok(value: T) | Err(error: E)

  ghost predicate Distinct<T>(s: seq<T>) {
    forall i, j :: 0 <= i < j < |s| ==> s[i] != s[j]
  }

  function Elements<T>(s: seq<T>): set<T> {
    set x | x in s
  }

  lemma DistinctCons<T>(x: T, s: seq<T>)
    requires Distinct(s) && x !in s
    ensures Distinct([x] + s)
  {
  }

  lemma DistinctCount<T>(s: seq<T>)
    requires Distinct(s)
    ensures |Elements(s)| == |s|
  {
    if s == [] {
    } else {
      var last := |s| - 1;
      DistinctCount(s[..last]);
      assert s[last] !in s[..last];
      assert Elements(s) == Elements(s[..last]) + {s[last]};
    }
  }

  lemma CountAtMost<T>(s: seq<T>)
    ensures |Elements(s)| <= |s|
  {
    if s == [] {
    } else {
      var last := |s| - 1;
      CountAtMost(s[..last]);
      assert s == s[..last] + [s[last]];
      assert Elements(s) == Elements(s[..last]) + {s[last]};
    }
  }

  lemma SubsetSize<T>(small: set<T>, big: set<T>)
    requires small <= big
    ensures |small| <= |big|
  {
    assert big == small + (big - small);
  }

  /** A duplicate-free selection from `all` that misses x is shorter than `all`. */
  lemma RoomForOne<T>(taken: seq<T>, all: seq<T>, x: T)
    requires Distinct(taken)
    requires forall t :: t in taken ==> t in all
    requires x in all && x !in taken
    ensures |taken| < |all|
  {
    DistinctCount(taken);
    CountAtMost(all);
    SubsetSize(Elements(taken) + {x}, Elements(all));
  }

  /** A duplicate-free selection from `all` is no longer than `all`. */
  lemma SelectionSize<T>(taken: seq<T>, all: seq<T>)
    requires Distinct(taken)
    requires forall t :: t in taken ==> t in all
    ensures |taken| <= |all|
  {
    DistinctCount(taken);
    CountAtMost(all);
    SubsetSize(Elements(taken), Elements(all));
  }

  /** A selection as long as `all` misses nothing. */
  lemma FullSelection<T>(taken: seq<T>, all: seq<T>, x: T)
    requires Distinct(taken)
    requires forall t :: t in taken ==> t in all
    requires |taken| == |all| && x in all
    ensures x in taken
  {
    if x !in taken {
      RoomForOne(taken, all, x);
    }
  }
}
