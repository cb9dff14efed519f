/**
  `List.sort` with a descending comparator followed by `stream().limit(k)`:
  a stable sort, highest key first, and the top `k` of the result.
 */
module Sorting {
  import opened Base

  predicate SortedDesc<T>(s: seq<T>, key: T -> real)
  {
    forall i, j :: 0 <= i < j < |s| ==> key(s[i]) >= key(s[j])
  }

  /**
    Inserts `x` in front of the first element whose key is not greater than
    its own, so that `x` stays ahead of equal keys that came after it.
   */
  function Insert<T(==)>(x: T, s: seq<T>, key: T -> real): (r: seq<T>)
    requires SortedDesc(s, key)
    ensures SortedDesc(r, key)
    ensures multiset(r) == multiset(s) + multiset{x}
    ensures forall y :: y in r ==> y == x || y in s
  {
    if |s| == 0 then [x]
    else if key(s[0]) <= key(x) then [x] + s
    else
      var rest := Insert(x, s[1..], key);
      assert s == [s[0]] + s[1..];
      forall i | 0 <= i < |rest| ensures key(rest[i]) <= key(s[0]) {
        assert rest[i] in rest;
        if rest[i] != x {
          assert rest[i] in s[1..];
          var j :| 0 <= j < |s[1..]| && s[1..][j] == rest[i];
          assert s[j + 1] == rest[i];
        }
      }
      SortedCons(s[0], rest, key);
      [s[0]] + rest
  }

  lemma SortedCons<T>(h: T, t: seq<T>, key: T -> real)
    requires SortedDesc(t, key)
    requires forall i :: 0 <= i < |t| ==> key(t[i]) <= key(h)
    ensures SortedDesc([h] + t, key)
  {
    var s := [h] + t;
    forall i, j | 0 <= i < j < |s| ensures key(s[i]) >= key(s[j]) {
      assert s[j] == t[j - 1];
      if i > 0 { assert s[i] == t[i - 1]; }
    }
  }

  /** A stable sort of `s`, highest key first. */
  function SortDesc<T(==)>(s: seq<T>, key: T -> real): (r: seq<T>)
    ensures SortedDesc(r, key)
    ensures multiset(r) == multiset(s)
  {
    if |s| == 0 then []
    else
      assert s == [s[0]] + s[1..];
      Insert(s[0], SortDesc(s[1..], key), key)
  }

  /**
    The first `k` elements of the sorted `s`: as many as `k` allows, drawn
    from `s`, in descending order, and no element left out has a higher key
    than one kept.
   */
  function TopK<T(==)>(s: seq<T>, key: T -> real, k: nat): (r: seq<T>)
    ensures |r| == Min(k, |s|)
    ensures multiset(r) <= multiset(s)
    ensures forall x :: x in r ==> x in s
    ensures SortedDesc(r, key)
    ensures forall c, x :: c in s && c !in r && x in r ==> key(c) <= key(x)
  {
    var t := SortDesc(s, key);
    var n := Min(k, |t|);
    PrefixOfSorted(s, t, n, key);
    t[..n]
  }

  lemma PrefixOfSorted<T>(s: seq<T>, t: seq<T>, n: nat, key: T -> real)
    requires SortedDesc(t, key) && multiset(t) == multiset(s) && n <= |t|
    ensures |t| == |s|
    ensures multiset(t[..n]) <= multiset(s)
    ensures forall x :: x in t[..n] ==> x in s
    ensures SortedDesc(t[..n], key)
    ensures forall c, x :: c in s && c !in t[..n] && x in t[..n] ==> key(c) <= key(x)
  {
    assert |t| == |multiset(t)| == |multiset(s)| == |s|;
    assert t == t[..n] + t[n..];
    assert multiset(t) == multiset(t[..n]) + multiset(t[n..]);
    forall c, x | c in s && c !in t[..n] && x in t[..n]
      ensures key(c) <= key(x)
    {
      assert c in multiset(t);
      assert c in t;
      var j :| 0 <= j < |t| && t[j] == c;
      var i :| 0 <= i < n && t[..n][i] == x;
      assert t[i] == x;
      assert j >= n;
    }
    forall x | x in t[..n] ensures x in s {
      assert x in multiset(t[..n]);
      assert x in multiset(s);
    }
  }
}
