/** The `$sort: { field: -1 }` stage: order rows by a numeric field, largest
    first. Rows with equal keys may come in any order in the store; this model
    fixes one (insertion sort). */
module Sorting {

  predicate SortedDesc<T>(s: seq<T>, rank: T -> real) {
    forall i, j :: 0 <= i < j < |s| ==> rank(s[i]) >= rank(s[j])
  }

  /** No two rows share a key. */
  predicate DistinctBy<T, K(==)>(s: seq<T>, key: T -> K) {
    forall i, j :: 0 <= i < j < |s| ==> key(s[i]) != key(s[j])
  }

  function Insert<T>(x: T, s: seq<T>, rank: T -> real): (r: seq<T>)
    requires SortedDesc(s, rank)
    ensures SortedDesc(r, rank)
    ensures multiset(r) == multiset(s) + multiset{x}
  {
    if s == [] || rank(x) >= rank(s[0]) then [x] + s
    else
      var rest := Insert(x, s[1..], rank);
      assert s == [s[0]] + s[1..];
      forall k | 0 <= k < |s[1..]| ensures rank(s[1..][k]) <= rank(s[0]) {
        assert s[1..][k] == s[k + 1];
      }
      BoundedBy(rest, s[1..], x, rank, rank(s[0]));
      [s[0]] + rest
  }

  /** A rearrangement of `t` and `x`, all of rank at most `top`, has ranks at
      most `top`. */
  lemma BoundedBy<T>(a: seq<T>, t: seq<T>, x: T, rank: T -> real, top: real)
    requires multiset(a) == multiset(t) + multiset{x}
    requires rank(x) <= top && forall k :: 0 <= k < |t| ==> rank(t[k]) <= top
    ensures forall k :: 0 <= k < |a| ==> rank(a[k]) <= top
  {
    forall k | 0 <= k < |a| ensures rank(a[k]) <= top {
      assert a[k] in multiset(a);
      if a[k] != x {
        assert a[k] in multiset(t);
        var j :| 0 <= j < |t| && t[j] == a[k];
      }
    }
  }

  /** The rows of `s`, each exactly as often as in `s`, largest rank first. */
  function SortDesc<T>(s: seq<T>, rank: T -> real): (r: seq<T>)
    ensures SortedDesc(r, rank)
    ensures multiset(r) == multiset(s)
    ensures |r| == |s|
  {
    if s == [] then []
    else
      assert s == [s[0]] + s[1..];
      Insert(s[0], SortDesc(s[1..], rank), rank)
  }

  lemma {:induction false} InsertDistinct<T, K>(x: T, s: seq<T>, rank: T -> real, key: T -> K)
    requires SortedDesc(s, rank) && DistinctBy(s, key)
    requires forall k :: 0 <= k < |s| ==> key(s[k]) != key(x)
    ensures DistinctBy(Insert(x, s, rank), key)
  {
    if s == [] || rank(x) >= rank(s[0]) {
    } else {
      var rest := Insert(x, s[1..], rank);
      InsertDistinct(x, s[1..], rank, key);
      assert s == [s[0]] + s[1..];
      forall k | 0 <= k < |rest| ensures key(rest[k]) != key(s[0]) {
        assert rest[k] in multiset(rest);
        if rest[k] != x {
          assert rest[k] in multiset(s[1..]);
          var j :| 0 <= j < |s[1..]| && s[1..][j] == rest[k];
          assert s[j + 1] == rest[k];
        }
      }
    }
  }

  /** Sorting never makes two rows share a key. */
  lemma {:induction false} SortDistinct<T, K>(s: seq<T>, rank: T -> real, key: T -> K)
    requires DistinctBy(s, key)
    ensures DistinctBy(SortDesc(s, rank), key)
  {
    if s != [] {
      var rest := SortDesc(s[1..], rank);
      SortDistinct(s[1..], rank, key);
      forall k | 0 <= k < |rest| ensures key(rest[k]) != key(s[0]) {
        assert rest[k] in multiset(s[1..]);
        var j :| 0 <= j < |s[1..]| && s[1..][j] == rest[k];
        assert s[j + 1] == rest[k];
      }
      InsertDistinct(s[0], rest, rank, key);
    }
  }

  /** Sorting keeps exactly the rows it was given. */
  lemma SortMembers<T>(s: seq<T>, rank: T -> real, x: T)
    ensures x in SortDesc(s, rank) <==> x in s
  {
    var r := SortDesc(s, rank);
    assert x in r <==> x in multiset(r);
    assert x in s <==> x in multiset(s);
  }
}
