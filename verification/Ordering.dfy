/** Sorting a slice by a key, largest first, as sort.Slice is used here.  Elements
    with equal keys may come in any order, so users rely on the two facts below. */
module Ordering {

  predicate Descending<T>(s: seq<T>, key: T -> int) { forall i, j :: 0 <= i < j < |s| ==> key(s[i]) >= key(s[j]) }

  function Insert<T>(x: T, s: seq<T>, key: T -> int): (r: seq<T>)
    ensures |r| == |s| + 1
  {
    if s == [] || key(x) >= key(s[0]) then [x] + s else [s[0]] + Insert(x, s[1..], key)
  }

  function SortedDescending<T>(s: seq<T>, key: T -> int): (r: seq<T>)
    ensures |r| == |s|
  {
    if s == [] then [] else Insert(s[0], SortedDescending(s[1..], key), key)
  }

  lemma {:induction false} InsertPermutes<T>(x: T, s: seq<T>, key: T -> int)
    ensures multiset(Insert(x, s, key)) == multiset{x} + multiset(s)
  {
    if s != [] && key(x) < key(s[0]) {
      InsertPermutes(x, s[1..], key);
      assert s == [s[0]] + s[1..];
    }
  }

  lemma {:induction false} InsertSorts<T>(x: T, s: seq<T>, key: T -> int)
    requires Descending(s, key)
    ensures Descending(Insert(x, s, key), key)
    ensures var r := Insert(x, s, key); r[0] == x || (s != [] && r[0] == s[0])
  {
    if s != [] && key(x) < key(s[0]) {
      var rest := Insert(x, s[1..], key);
      InsertSorts(x, s[1..], key);
      assert key(s[0]) >= key(rest[0]);
    }
  }

  /** The result is in order and a permutation of the input. */
  lemma {:induction false} SortsAndPermutes<T>(s: seq<T>, key: T -> int)
    ensures Descending(SortedDescending(s, key), key)
    ensures multiset(SortedDescending(s, key)) == multiset(s)
  {
    if s != [] {
      SortsAndPermutes(s[1..], key);
      InsertSorts(s[0], SortedDescending(s[1..], key), key);
      InsertPermutes(s[0], SortedDescending(s[1..], key), key);
      assert s == [s[0]] + s[1..];
    }
  }

  // ---- what permuting leaves alone ----

  predicate Distinct<T, K(==)>(s: seq<T>, id: T -> K) { forall i, j :: 0 <= i < j < |s| ==> id(s[i]) != id(s[j]) }

  lemma SameElements<T>(s: seq<T>, r: seq<T>)
    requires multiset(s) == multiset(r)
    ensures forall i :: 0 <= i < |s| ==> s[i] in r
  {
    forall i | 0 <= i < |s|
      ensures s[i] in r
    {
      assert s[i] in multiset(r);
    }
  }

  lemma {:induction false} AtMostOnce<T, K>(s: seq<T>, id: T -> K, x: T)
    requires Distinct(s, id)
    ensures multiset(s)[x] <= 1
  {
    if s != [] {
      var n := |s| - 1;
      AtMostOnce(s[..n], id, x);
      assert s == s[..n] + [s[n]];
      assert x in s[..n] ==> id(x) != id(s[n]);
    }
  }

  lemma AtLeastTwice<T>(r: seq<T>, i: nat, j: nat)
    requires i < j < |r| && r[i] == r[j]
    ensures multiset(r)[r[i]] >= 2
  {
    assert r == r[..j] + r[j..];
    assert r[i] == r[..j][i] && r[j] == r[j..][0];
    assert r[i] in multiset(r[..j]) && r[j] in multiset(r[j..]);
  }

  /** Elements told apart by an id still are after sorting. */
  lemma PermutingKeepsDistinct<T, K>(s: seq<T>, r: seq<T>, id: T -> K)
    requires multiset(s) == multiset(r) && Distinct(s, id)
    ensures Distinct(r, id)
  {
    SameElements(r, s);
    forall i, j | 0 <= i < j < |r|
      ensures id(r[i]) != id(r[j])
    {
      if id(r[i]) == id(r[j]) {
        assert r[i] == r[j];
        AtMostOnce(s, id, r[i]);
        AtLeastTwice(r, i, j);
      }
    }
  }
}
