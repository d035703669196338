/**
 * Sequence operations that stand for the ORM's query primitives:
 * `filter(...)`, `order_by(...)`, slicing `[:limit]` and `.first()`.
 * Table rows are kept in insertion (primary key) order.
 */
module Seqs {
  import opened Values

  function Min(a: int, b: int): int { if a <= b then a else b }

  /** `queryset.filter(p)`: the rows satisfying `p`, in their original order. */
  function Filter<T(!new)>(s: seq<T>, p: T -> bool): (r: seq<T>)
    ensures |r| <= |s|
    ensures forall x :: x in r <==> x in s && p(x)
  {
    if s == [] then [] else (if p(s[0]) then [s[0]] else []) + Filter(s[1..], p)
  }

  /** The index of the first element satisfying `p` (`.filter(p).first()`). */
  function FirstIndex<T>(s: seq<T>, p: T -> bool): (r: Option<nat>)
    ensures r.None? <==> forall i :: 0 <= i < |s| ==> !p(s[i])
    ensures r.Some? ==> r.value < |s| && p(s[r.value])
    ensures r.Some? ==> forall j :: 0 <= j < r.value ==> !p(s[j])
  {
    if s == [] then None
    else if p(s[0]) then Some(0)
    else
      match FirstIndex(s[1..], p)
      case None => None
      case Some(i) => Some(i + 1)
  }

  function Reverse<T>(s: seq<T>): (r: seq<T>)
    ensures |r| == |s|
    ensures forall i :: 0 <= i < |s| ==> r[i] == s[|s| - 1 - i]
  {
    if s == [] then [] else Reverse(s[1..]) + [s[0]]
  }

  /** Python slicing `s[:n]` for a non-negative `n`. */
  function Take<T>(s: seq<T>, n: nat): (r: seq<T>)
    ensures |r| == Min(n, |s|)
    ensures forall i :: 0 <= i < |r| ==> r[i] == s[i]
    ensures forall x :: x in r ==> x in s
  {
    if n < |s| then s[..n] else s
  }

  ghost predicate Increasing<T>(s: seq<T>, key: T -> int)
  {
    forall i, j :: 0 <= i < j < |s| ==> key(s[i]) < key(s[j])
  }

  ghost predicate Decreasing<T>(s: seq<T>, key: T -> int)
  {
    forall i, j :: 0 <= i < j < |s| ==> key(s[i]) > key(s[j])
  }

  /** Filtering keeps an ascending order ascending. */
  lemma {:induction false} FilterIncreasing<T(!new)>(s: seq<T>, p: T -> bool, key: T -> int)
    requires Increasing(s, key)
    ensures Increasing(Filter(s, p), key)
  {
    if s != [] {
      assert Increasing(s[1..], key) by {
        forall i, j | 0 <= i < j < |s[1..]| ensures key(s[1..][i]) < key(s[1..][j]) {
          assert s[1..][i] == s[i + 1] && s[1..][j] == s[j + 1];
        }
      }
      FilterIncreasing(s[1..], p, key);
      var tail := Filter(s[1..], p);
      forall x | x in tail ensures key(s[0]) < key(x) {
        assert x in s[1..];
        var j :| 0 <= j < |s[1..]| && s[1..][j] == x;
        assert s[j + 1] == x;
      }
    }
  }

  /**
   * `order_by('-key')[:n]` over rows held in ascending key order: at most `n`
   * rows, newest first, and every row left out is older than every row kept.
   */
  lemma NewestFirst<T>(s: seq<T>, key: T -> int, n: nat)
    requires Increasing(s, key)
    ensures |Take(Reverse(s), n)| == Min(n, |s|)
    ensures Decreasing(Take(Reverse(s), n), key)
    ensures forall x :: x in Take(Reverse(s), n) ==> x in s
    ensures forall x :: x in s && x !in Take(Reverse(s), n) ==>
              |Take(Reverse(s), n)| == n && forall i :: 0 <= i < n ==> key(x) < key(Take(Reverse(s), n)[i])
  {
    var rv := Reverse(s);
    var r := Take(rv, n);
    assert forall i :: 0 <= i < |r| ==> r[i] == rv[i] == s[|s| - 1 - i];
    forall x | x in r ensures x in s {
      var i :| 0 <= i < |r| && r[i] == x;
      assert x == s[|s| - 1 - i];
    }
    forall x | x in s && x !in r ensures |r| == n && forall i :: 0 <= i < n ==> key(x) < key(r[i]) {
      var j :| 0 <= j < |s| && s[j] == x;
      var k := |s| - 1 - j;
      assert rv[k] == x;
      assert forall t :: 0 <= t < |r| ==> rv[t] != x;
      assert k >= |r|;
      forall i | 0 <= i < n ensures key(x) < key(r[i]) {
        assert r[i] == s[|s| - 1 - i];
      }
    }
  }

  /**
   * `order_by('key')[:n]` over rows held in ascending key order: at most `n`
   * rows, oldest first, and every row left out is newer than every row kept.
   */
  lemma OldestFirst<T>(s: seq<T>, key: T -> int, n: nat)
    requires Increasing(s, key)
    ensures |Take(s, n)| == Min(n, |s|)
    ensures Increasing(Take(s, n), key)
    ensures forall x :: x in Take(s, n) ==> x in s
    ensures forall x :: x in s && x !in Take(s, n) ==>
              |Take(s, n)| == n && forall i :: 0 <= i < n ==> key(Take(s, n)[i]) < key(x)
  {
    var r := Take(s, n);
    forall x | x in s && x !in r ensures |r| == n && forall i :: 0 <= i < n ==> key(r[i]) < key(x) {
      var j :| 0 <= j < |s| && s[j] == x;
      assert forall t :: 0 <= t < |r| ==> s[t] != x;
      assert j >= |r|;
      forall i | 0 <= i < n ensures key(r[i]) < key(x) {
        assert r[i] == s[i];
      }
    }
  }
}
