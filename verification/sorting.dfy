/**
 * The stable sort the model uses for `Array.prototype.sort` with a
 * comparator: `gt(a, b)` holds when the comparator puts `a` strictly after
 * `b` (a positive comparator result).  A comparator that answers NaN
 * counts as 0, so `gt` is false for such pairs.
 */
module Sorting {

  /** Insert `x` behind every element of `s` that does not compare greater. */
  function Insert<T>(x: T, s: seq<T>, gt: (T, T) -> bool): (r: seq<T>)
    ensures multiset(r) == multiset(s) + multiset{x}
    ensures |r| == |s| + 1
    decreases |s|
  {
    if s == [] then [x]
    else if gt(s[|s| - 1], x) then
      assert s == s[..|s| - 1] + [s[|s| - 1]];
      Insert(x, s[..|s| - 1], gt) + [s[|s| - 1]]
    else s + [x]
  }

  /** Insertion sort, front to back. */
  function Sort<T>(xs: seq<T>, gt: (T, T) -> bool): (r: seq<T>)
    ensures multiset(r) == multiset(xs)
    ensures |r| == |xs|
    decreases |xs|
  {
    if xs == [] then []
    else
      assert xs == xs[..|xs| - 1] + [xs[|xs| - 1]];
      Insert(xs[|xs| - 1], Sort(xs[..|xs| - 1], gt), gt)
  }

  ghost predicate SortedBy<T>(s: seq<T>, key: T -> int) {
    forall i, j :: 0 <= i < j < |s| ==> key(s[i]) <= key(s[j])
  }

  /** On values satisfying `valid`, the comparator is the numeric order of `key`. */
  ghost predicate AgreesOn<T(!new)>(valid: T -> bool, gt: (T, T) -> bool, key: T -> int) {
    forall a, b :: valid(a) && valid(b) ==> (gt(a, b) <==> key(a) > key(b))
  }

  ghost predicate AllValid<T>(s: seq<T>, valid: T -> bool) {
    forall i :: 0 <= i < |s| ==> valid(s[i])
  }

  /** Every element of a sorted sequence is at most its last one. */
  lemma BoundedByLast<T>(s: seq<T>, key: T -> int, y: T)
    requires s != [] && SortedBy(s, key) && y in multiset(s)
    ensures key(y) <= key(s[|s| - 1])
  {
    var j :| 0 <= j < |s| && s[j] == y;
  }

  lemma {:induction false} InsertSorted<T(!new)>(x: T, s: seq<T>, gt: (T, T) -> bool, key: T -> int, valid: T -> bool)
    requires SortedBy(s, key) && AllValid(s, valid) && valid(x)
    requires AgreesOn(valid, gt, key)
    ensures SortedBy(Insert(x, s, gt), key)
    decreases |s|
  {
    if s != [] {
      var init, last := s[..|s| - 1], s[|s| - 1];
      assert s == init + [last];
      assert last in multiset(s);
      if gt(last, x) {
        assert key(last) > key(x);
        InsertSorted(x, init, gt, key, valid);
        var r := Insert(x, init, gt);
        forall i | 0 <= i < |r|
          ensures key(r[i]) <= key(last)
        {
          assert r[i] in multiset(r);
          if r[i] != x {
            assert r[i] in multiset(init);
            BoundedByLast(s, key, r[i]);
          }
        }
        assert Insert(x, s, gt) == r + [last];
      } else {
        assert key(last) <= key(x);
        forall i | 0 <= i < |s|
          ensures key(s[i]) <= key(x)
        {
          BoundedByLast(s, key, s[i]);
        }
        assert Insert(x, s, gt) == s + [x];
      }
    }
  }

  /** Sorting keeps every element, so validity of all of them carries over. */
  lemma SortKeepsValid<T>(xs: seq<T>, gt: (T, T) -> bool, valid: T -> bool)
    requires AllValid(xs, valid)
    ensures AllValid(Sort(xs, gt), valid)
  {
    var r := Sort(xs, gt);
    forall i | 0 <= i < |r|
      ensures valid(r[i])
    {
      assert r[i] in multiset(r);
      assert r[i] in multiset(xs);
      var j :| 0 <= j < |xs| && xs[j] == r[i];
    }
  }

  /** Where the comparator is a numeric order on the input, the output is sorted by it. */
  lemma {:induction false} SortSorted<T(!new)>(xs: seq<T>, gt: (T, T) -> bool, key: T -> int, valid: T -> bool)
    requires AllValid(xs, valid) && AgreesOn(valid, gt, key)
    ensures SortedBy(Sort(xs, gt), key)
    decreases |xs|
  {
    if xs != [] {
      var init := xs[..|xs| - 1];
      assert xs == init + [xs[|xs| - 1]];
      SortSorted(init, gt, key, valid);
      SortKeepsValid(init, gt, valid);
      InsertSorted(xs[|xs| - 1], Sort(init, gt), gt, key, valid);
    }
  }
}
