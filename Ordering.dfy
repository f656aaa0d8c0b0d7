/**
 * A stable sort on an integer key. Sorting by `-timestamp` is Python's
 * `sorted(..., key=timestamp, reverse=True)`, which also keeps equal keys
 * in their original order. Sorting by `timestamp` stands for the fraud
 * rules' `sort_values(by="timestamp")`: the two agree on the order of
 * distinct timestamps, but pandas' default sort does not promise to keep
 * rows with equal timestamps in their original order.
 */
module Ordering {

  predicate SortedBy<T>(s: seq<T>, key: T -> int)
  {
    forall i, j :: 0 <= i < j < |s| ==> key(s[i]) <= key(s[j])
  }

  /**
   * Puts `x` into the sorted `s` after every element whose key is not
   * larger than its own.
   */
  function InsertBy<T>(s: seq<T>, x: T, key: T -> int): (r: seq<T>)
    requires SortedBy(s, key)
    ensures |r| == |s| + 1
    ensures SortedBy(r, key)
    ensures multiset(r) == multiset(s) + multiset{x}
  {
    if s == [] || key(s[|s| - 1]) <= key(x) then
      s + [x]
    else
      var init, last := s[..|s| - 1], s[|s| - 1];
      assert s == init + [last];
      var r := InsertBy(init, x, key);
      BoundedByLast(s, r, x, key);
      SortedAppend(r, last, key);
      assert multiset(r + [last]) == multiset(r) + multiset{last};
      r + [last]
  }

  /** Each element of a reordering of `x` and all but the last of the sorted `s` has a key not above the last's. */
  lemma BoundedByLast<T>(s: seq<T>, r: seq<T>, x: T, key: T -> int)
    requires SortedBy(s, key) && s != [] && key(x) <= key(s[|s| - 1])
    requires multiset(r) == multiset(s[..|s| - 1]) + multiset{x}
    ensures forall k :: 0 <= k < |r| ==> key(r[k]) <= key(s[|s| - 1])
  {
    forall k | 0 <= k < |r| ensures key(r[k]) <= key(s[|s| - 1]) {
      assert r[k] in multiset(r);
      if r[k] != x {
        assert r[k] in multiset(s[..|s| - 1]);
        var j :| 0 <= j < |s| - 1 && s[..|s| - 1][j] == r[k];
        assert s[j] == r[k];
      }
    }
  }

  /** Appending an element whose key bounds every key keeps a sequence sorted. */
  lemma SortedAppend<T>(r: seq<T>, y: T, key: T -> int)
    requires SortedBy(r, key)
    requires forall k :: 0 <= k < |r| ==> key(r[k]) <= key(y)
    ensures SortedBy(r + [y], key)
  {
  }

  /** The elements of `s` ordered by `key`, equal keys in their original order. */
  function SortBy<T>(s: seq<T>, key: T -> int): (r: seq<T>)
    ensures |r| == |s|
    ensures SortedBy(r, key)
    ensures multiset(r) == multiset(s)
  {
    if s == [] then []
    else
      var init := s[..|s| - 1];
      assert s == init + [s[|s| - 1]];
      InsertBy(SortBy(init, key), s[|s| - 1], key)
  }

  /** The first `limit` elements (`s[:limit]` for a non-negative limit). */
  function Take<T>(s: seq<T>, limit: nat): (r: seq<T>)
    ensures |r| == if |s| < limit then |s| else limit
    ensures r == s[..|r|]
  {
    if |s| <= limit then s else s[..limit]
  }

  /**
   * The first `limit` elements of a sorted sequence are some of its
   * elements, and none of the others has a smaller key than any of them.
   */
  lemma TakeSmallest<T>(s: seq<T>, limit: nat, key: T -> int)
    requires SortedBy(s, key)
    ensures multiset(Take(s, limit)) <= multiset(s)
    ensures forall t, u :: t in multiset(s) - multiset(Take(s, limit)) && u in Take(s, limit) ==> key(u) <= key(t)
  {
    var r := Take(s, limit);
    var rest := s[|r|..];
    assert s == r + rest;
    assert multiset(s) == multiset(r) + multiset(rest);
    forall t, u | t in multiset(s) - multiset(r) && u in r ensures key(u) <= key(t) {
      assert t in multiset(rest);
      var j :| 0 <= j < |rest| && rest[j] == t;
      var i :| 0 <= i < |r| && r[i] == u;
      assert s[|r| + j] == t && s[i] == u;
    }
  }
}
