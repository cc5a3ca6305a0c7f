/**
 * What a database query or a Python list operation does to a sequence of rows:
 * filtering, stable ordering by an integer key, and slicing `[:k]`.
 */
module Ordering {

  predicate SortedBy<T>(s: seq<T>, key: T -> int) {
    forall i, j :: 0 <= i < j < |s| ==> key(s[i]) <= key(s[j])
  }

  /** A row no greater than the head of a sorted sequence keeps it sorted when put in front. */
  lemma PrependSorted<T>(h: T, s: seq<T>, key: T -> int)
    requires SortedBy(s, key) && (s != [] ==> key(h) <= key(s[0]))
    ensures SortedBy([h] + s, key)
  {
    var r := [h] + s;
    forall i, j | 0 <= i < j < |r| ensures key(r[i]) <= key(r[j]) {
      assert r[j] == s[j - 1];
      if i > 0 {
        assert r[i] == s[i - 1];
      } else if j > 1 {
        assert key(s[0]) <= key(s[j - 1]);
      }
    }
  }

  /** Insert `x` into a sorted sequence, before the rows whose key equals its own. */
  function InsertBy<T>(x: T, s: seq<T>, key: T -> int): (r: seq<T>)
    requires SortedBy(s, key)
    ensures |r| == |s| + 1
    ensures r[0] == x || (s != [] && r[0] == s[0])
    ensures SortedBy(r, key)
    ensures multiset(r) == multiset(s) + multiset{x}
  {
    if s == [] || key(x) <= key(s[0]) then
      PrependSorted(x, s, key);
      [x] + s
    else
      var rest := InsertBy(x, s[1..], key);
      assert s == [s[0]] + s[1..];
      PrependSorted(s[0], rest, key);
      [s[0]] + rest
  }

  /** A stable insertion sort by ascending key. */
  function SortBy<T>(s: seq<T>, key: T -> int): (r: seq<T>)
    ensures SortedBy(r, key)
    ensures |r| == |s|
    ensures multiset(r) == multiset(s)
  {
    if s == [] then []
    else
      assert s == [s[0]] + s[1..];
      InsertBy(s[0], SortBy(s[1..], key), key)
  }

  /** The rows of `s` that satisfy `p`, in their original order. */
  function Filter<T(!new)>(s: seq<T>, p: T -> bool): (r: seq<T>)
    ensures |r| <= |s|
    ensures forall i :: 0 <= i < |r| ==> p(r[i])
    ensures forall x :: x in r <==> x in s && p(x)
  {
    if s == [] then []
    else (if p(s[0]) then [s[0]] else []) + Filter(s[1..], p)
  }

  /** `s[:k]` */
  function Take<T>(s: seq<T>, k: nat): (r: seq<T>)
    ensures |r| == if |s| <= k then |s| else k
    ensures r == s[..|r|]
  {
    if |s| <= k then s else s[..k]
  }

  /** `s[-k:]` for k > 0 */
  function TakeLast<T>(s: seq<T>, k: nat): (r: seq<T>)
    ensures |r| == if |s| <= k then |s| else k
    ensures r == s[|s| - |r|..]
  {
    if |s| <= k then s else s[|s| - k..]
  }

  /** The rows a prefix of a sorted sequence leaves out have keys no smaller than the prefix's last. */
  lemma PrefixIsLeast<T>(s: seq<T>, key: T -> int, n: nat)
    requires n <= |s| && SortedBy(s, key)
    ensures 0 < n ==> forall x :: x in s && x !in s[..n] ==> key(s[n - 1]) <= key(x)
  {
    if 0 < n {
      forall x | x in s && x !in s[..n]
        ensures key(s[n - 1]) <= key(x)
      {
        var j :| 0 <= j < |s| && s[j] == x;
        assert j >= n by { if j < n { assert false; } }
      }
    }
  }

  /**
   * `sorted(s, key)[:k]` is sorted and holds only rows of `s`: all of them
   * when there are fewer than k, otherwise k rows whose keys are the least.
   */
  lemma TakeOfSorted<T>(s: seq<T>, key: T -> int, k: nat)
    ensures var r := Take(SortBy(s, key), k);
            |r| <= k && SortedBy(r, key) && (forall x :: x in r ==> x in s) &&
            (|r| < k ==> forall x :: x in s ==> x in r) &&
            (0 < k && |r| == k ==> forall x :: x in s && x !in r ==> key(r[k - 1]) <= key(x))
  {
    var sorted := SortBy(s, key);
    var r := Take(sorted, k);
    forall x | x in r
      ensures x in s
    {
      assert x in multiset(sorted);
    }
    forall x | x in s
      ensures x in sorted
    {
      assert x in multiset(s);
    }
    PrefixIsLeast(sorted, key, |r|);
  }
}
