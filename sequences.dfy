/** Sequence operations the backend's queries are built from: `filter(...)`, `order_by('-key')`
    as a stable sort on an integer key, and the slice `[:n]`. */
module Sequences {

  /** Keeps the elements satisfying `keep`, in order. */
  function Filter<T(!new)>(s: seq<T>, keep: T -> bool): (r: seq<T>)
    ensures |r| <= |s|
    ensures forall i :: 0 <= i < |r| ==> keep(r[i])
    ensures forall x :: multiset(r)[x] == if keep(x) then multiset(s)[x] else 0
  {
    if |s| == 0 then []
    else
      assert s == [s[0]] + s[1..];
      (if keep(s[0]) then [s[0]] else []) + Filter(s[1..], keep)
  }

  /** Ordered by `key`, largest first. */
  predicate Descending<T>(s: seq<T>, key: T -> int) {
    forall i, j :: 0 <= i < j < |s| ==> key(s[i]) >= key(s[j])
  }

  /** Puts `x` before the first element whose key is not larger than its own. */
  function Insert<T>(x: T, s: seq<T>, key: T -> int): (r: seq<T>)
    requires Descending(s, key)
    ensures Descending(r, key)
    ensures multiset(r) == multiset(s) + multiset{x}
  {
    if |s| == 0 then [x]
    else if key(x) >= key(s[0]) then [x] + s
    else
      assert s == [s[0]] + s[1..];
      var rest := Insert(x, s[1..], key);
      BoundedByHead(x, s, rest, key);
      [s[0]] + rest
  }

  /** Every element of `x` inserted into the tail of `s` is bounded by the head of `s`. */
  lemma BoundedByHead<T>(x: T, s: seq<T>, rest: seq<T>, key: T -> int)
    requires |s| > 0 && Descending(s, key) && key(x) < key(s[0])
    requires multiset(rest) == multiset(s[1..]) + multiset{x}
    ensures forall i :: 0 <= i < |rest| ==> key(rest[i]) <= key(s[0])
  {
    forall i | 0 <= i < |rest|
      ensures key(rest[i]) <= key(s[0])
    {
      assert rest[i] in multiset(rest);
      if rest[i] != x {
        assert rest[i] in multiset(s[1..]);
        var k :| 0 <= k < |s[1..]| && s[1..][k] == rest[i];
        assert s[k + 1] == rest[i];
      }
    }
  }

  /** `order_by('-key')`: insertion sort, largest key first; elements with equal keys keep
      their relative order. */
  function SortDescending<T>(s: seq<T>, key: T -> int): (r: seq<T>)
    ensures Descending(r, key)
    ensures multiset(r) == multiset(s)
    ensures |r| == |s|
  {
    if |s| == 0 then []
    else
      assert s == [s[0]] + s[1..];
      var r := Insert(s[0], SortDescending(s[1..], key), key);
      assert |r| == |multiset(r)|;
      r
  }

  /** The slice `[:n]`. */
  function Take<T>(s: seq<T>, n: nat): (r: seq<T>)
    ensures |r| == if |s| < n then |s| else n
    ensures forall i :: 0 <= i < |r| ==> r[i] == s[i]
  {
    if |s| <= n then s else s[..n]
  }

  /** A prefix of a descending sequence is descending, and everything after the prefix is
      not larger than its last element. */
  lemma TakeDescending<T>(s: seq<T>, n: nat, key: T -> int)
    requires Descending(s, key) && n > 0
    ensures Descending(Take(s, n), key)
    ensures forall y :: y in s && y !in Take(s, n) ==>
              |Take(s, n)| > 0 && key(y) <= key(Take(s, n)[|Take(s, n)| - 1])
  {
    var t := Take(s, n);
    forall y | y in s && y !in t
      ensures |t| > 0 && key(y) <= key(t[|t| - 1])
    {
      var k :| 0 <= k < |s| && s[k] == y;
      assert t == s[..|t|];
      assert key(s[|t| - 1]) >= key(s[k]);
    }
  }
}
