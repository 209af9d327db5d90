/**
 * Ordering a day's intervals and checking that they do not overlap, as the
 * monthly loop does: a stable sort by start text, then a pass that rejects
 * the day as soon as an interval ends after the next one starts. Times are
 * compared as strings, as in the source.
 */
module Overlap {
  import opened Text
  import opened Intervals

  // ---- `list.sort(key=lambda x: x[0])` ---------------------------------

  /** Place `x` after every element whose start is not after its own, keeping equal starts in arrival order. */
  function Insert(x: Interval, t: seq<Interval>): (r: seq<Interval>)
    ensures |r| == |t| + 1 && multiset(r) == multiset(t) + multiset{x}
  {
    if t == [] then [x]
    else if Less(x.start, t[0].start) then [x] + t
    else
      assert t == [t[0]] + t[1..];
      [t[0]] + Insert(x, t[1..])
  }

  /** `sorted(s, key=start)`: a stable insertion sort, the way Python's sort orders equal keys. */
  function SortByStart(s: seq<Interval>): (r: seq<Interval>)
    ensures |r| == |s| && multiset(r) == multiset(s)
  {
    if s == [] then []
    else
      assert s == s[..|s| - 1] + [s[|s| - 1]];
      Insert(s[|s| - 1], SortByStart(s[..|s| - 1]))
  }

  /** No interval starts before an earlier one. */
  predicate SortedByStart(s: seq<Interval>)
  {
    forall i, j :: 0 <= i < j < |s| ==> !Less(s[j].start, s[i].start)
  }

  lemma SortedTail(t: seq<Interval>)
    requires SortedByStart(t) && t != []
    ensures SortedByStart(t[1..])
  {
    forall i, j | 0 <= i < j < |t[1..]|
      ensures !Less(t[1..][j].start, t[1..][i].start)
    {
      assert t[1..][j] == t[j + 1] && t[1..][i] == t[i + 1];
    }
  }

  lemma SortedCons(h: Interval, rest: seq<Interval>)
    requires SortedByStart(rest) && forall j :: 0 <= j < |rest| ==> !Less(rest[j].start, h.start)
    ensures SortedByStart([h] + rest)
  {
    var r := [h] + rest;
    forall i, j | 0 <= i < j < |r|
      ensures !Less(r[j].start, r[i].start)
    {
      assert r[j] == rest[j - 1];
      if i > 0 {
        assert r[i] == rest[i - 1];
      }
    }
  }

  lemma {:induction false} InsertSorted(x: Interval, t: seq<Interval>)
    requires SortedByStart(t)
    ensures SortedByStart(Insert(x, t))
  {
    if t == [] {
    } else if Less(x.start, t[0].start) {
      forall j | 0 <= j < |t|
        ensures !Less(t[j].start, x.start)
      {
        if Less(t[j].start, x.start) {
          LessTransitive(t[j].start, x.start, t[0].start);
          LessIrreflexive(t[0].start);
        }
      }
      SortedCons(x, t);
    } else {
      SortedTail(t);
      InsertSorted(x, t[1..]);
      var rest := Insert(x, t[1..]);
      forall j | 0 <= j < |rest|
        ensures !Less(rest[j].start, t[0].start)
      {
        assert rest[j] in multiset(rest);
        if rest[j] != x {
          assert rest[j] in multiset(t[1..]);
          var k :| 0 <= k < |t[1..]| && t[1..][k] == rest[j];
          assert t[k + 1] == rest[j];
        }
      }
      SortedCons(t[0], rest);
    }
  }

  /** The sort yields a list ordered by start that holds the same intervals. */
  lemma {:induction false} SortSorted(s: seq<Interval>)
    ensures SortedByStart(SortByStart(s))
  {
    if s != [] {
      SortSorted(s[..|s| - 1]);
      InsertSorted(s[|s| - 1], SortByStart(s[..|s| - 1]));
    }
  }

  /** The intervals of `s` that start at `k`, in order. */
  function StartingAt(s: seq<Interval>, k: string): (r: seq<Interval>)
    ensures |r| <= |s|
  {
    if s == [] then []
    else StartingAt(s[..|s| - 1], k) + (if s[|s| - 1].start == k then [s[|s| - 1]] else [])
  }

  lemma {:induction false} StartingAtFront(x: Interval, t: seq<Interval>, k: string)
    ensures StartingAt([x] + t, k) == (if x.start == k then [x] else []) + StartingAt(t, k)
    decreases |t|
  {
    var s := [x] + t;
    if t != [] {
      assert s[..|s| - 1] == [x] + t[..|t| - 1];
      StartingAtFront(x, t[..|t| - 1], k);
    } else {
      assert s[..|s| - 1] == [];
    }
  }

  lemma {:induction false} InsertStable(x: Interval, t: seq<Interval>, k: string)
    requires SortedByStart(t)
    ensures StartingAt(Insert(x, t), k) == StartingAt(t, k) + (if x.start == k then [x] else [])
  {
    if t == [] {
      assert StartingAt([x], k) == StartingAt([], k) + (if x.start == k then [x] else []) by {
        assert [x][..0] == [];
      }
    } else if Less(x.start, t[0].start) {
      InsertStableFront(x, t, k);
    } else {
      SortedTail(t);
      InsertStable(x, t[1..], k);
      InsertStableLater(x, t, k);
    }
  }

  lemma InsertStableFront(x: Interval, t: seq<Interval>, k: string)
    requires SortedByStart(t) && t != [] && Less(x.start, t[0].start)
    ensures StartingAt([x] + t, k) == StartingAt(t, k) + (if x.start == k then [x] else [])
  {
    StartingAtFront(x, t, k);
    if x.start == k {
      NoneStartingAt(t, k);
    }
  }

  lemma InsertStableLater(x: Interval, t: seq<Interval>, k: string)
    requires t != []
    requires StartingAt(Insert(x, t[1..]), k) == StartingAt(t[1..], k) + (if x.start == k then [x] else [])
    ensures StartingAt([t[0]] + Insert(x, t[1..]), k) == StartingAt(t, k) + (if x.start == k then [x] else [])
  {
    assert t == [t[0]] + t[1..];
    StartingAtFront(t[0], t[1..], k);
    StartingAtFront(t[0], Insert(x, t[1..]), k);
  }

  /** No interval of a sorted list starts at a key before its first start. */
  lemma {:induction false} NoneStartingAt(t: seq<Interval>, k: string)
    requires SortedByStart(t) && t != [] && Less(k, t[0].start)
    ensures StartingAt(t, k) == []
    decreases |t|
  {
    var last := t[|t| - 1];
    if |t| > 1 {
      assert SortedByStart(t[..|t| - 1]);
      NoneStartingAt(t[..|t| - 1], k);
    }
    if |t| == 1 {
      LessIrreflexive(k);
    }
  }

  /** The sort is stable: the intervals sharing a start keep their input order. */
  lemma {:induction false} SortStable(s: seq<Interval>, k: string)
    ensures StartingAt(SortByStart(s), k) == StartingAt(s, k)
  {
    if s != [] {
      SortStable(s[..|s| - 1], k);
      SortSorted(s[..|s| - 1]);
      InsertStable(s[|s| - 1], SortByStart(s[..|s| - 1]), k);
    }
  }

  // ---- The overlap pass ------------------------------------------------

  /** What the pass accepts: no interval ends after the next one starts. */
  predicate AdjacentOk(s: seq<Interval>)
  {
    forall i :: 1 <= i < |s| ==> !Less(s[i].start, s[i - 1].end)
  }

  /** Every interval starts no earlier than every earlier interval ends. */
  predicate PairwiseDisjoint(s: seq<Interval>)
  {
    forall i, j :: 0 <= i < j < |s| ==> !Less(s[j].start, s[i].end)
  }

  /** The overlap loop of the monthly filing: stop at the first interval that ends after the next one starts. */
  method CheckNoOverlap(s: seq<Interval>) returns (valid: bool)
    ensures valid <==> AdjacentOk(s)
  {
    valid := true;
    var i := 1;
    while i < |s|
      invariant 1 <= i
      invariant valid <==> forall k :: 1 <= k < i && k < |s| ==> !Less(s[k].start, s[k - 1].end)
      decreases |s| - i
    {
      if Less(s[i].start, s[i - 1].end) {
        valid := false;
        break;
      }
      i := i + 1;
    }
  }

  /**
   * On a list sorted by start whose intervals do not end before they start,
   * the adjacent check is the same as "no interval starts before an earlier
   * one ends".
   */
  lemma AdjacentIsPairwise(s: seq<Interval>)
    requires SortedByStart(s) && forall i :: 0 <= i < |s| ==> !Less(s[i].end, s[i].start)
    ensures AdjacentOk(s) <==> PairwiseDisjoint(s)
  {
    if AdjacentOk(s) {
      forall i, j | 0 <= i < j < |s|
        ensures !Less(s[j].start, s[i].end)
      {
        AdjacentReaches(s, i, j);
      }
    }
    if PairwiseDisjoint(s) {
      forall i | 1 <= i < |s|
        ensures !Less(s[i].start, s[i - 1].end)
      {
        assert 0 <= i - 1 < i < |s|;
      }
    }
  }

  lemma {:induction false} AdjacentReaches(s: seq<Interval>, i: nat, j: nat)
    requires AdjacentOk(s) && forall k :: 0 <= k < |s| ==> !Less(s[k].end, s[k].start)
    requires i < j < |s|
    ensures !Less(s[j].start, s[i].end)
    decreases j - i
  {
    if j > i + 1 {
      AdjacentReaches(s, i, j - 1);
      NotAfterTransitive(s[i].end, s[j - 1].start, s[j - 1].end);
      NotAfterTransitive(s[i].end, s[j - 1].end, s[j].start);
    }
  }
}
