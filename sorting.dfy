/**
 * The sort the routine uses twice (sellers by profit, products by quantity):
 * a comparison sort into non-increasing order of a numeric key. The order
 * among equal keys is not specified.
 */
module Sorting {

  /** `s` is in non-increasing order of `key`. */
  ghost predicate DescendingBy<T>(s: seq<T>, key: T -> real)
  {
    forall i, j :: 0 <= i < j < |s| ==> key(s[i]) >= key(s[j])
  }

  /** No element occurs twice in `s`. */
  ghost predicate Distinct<T>(s: seq<T>)
  {
    forall i, j :: 0 <= i < j < |s| ==> s[i] != s[j]
  }

  /**
   * Sorts `s` into non-increasing order of `key`, by inserting each element
   * after every element whose key is at least as large.
   */
  method SortByKeyDescending<T>(s: seq<T>, key: T -> real) returns (r: seq<T>)
    ensures multiset(r) == multiset(s)
    ensures DescendingBy(r, key)
  {
    r := [];
    var i := 0;
    while i < |s|
      invariant 0 <= i <= |s|
      invariant multiset(r) == multiset(s[..i])
      invariant DescendingBy(r, key)
    {
      assert s[..i + 1] == s[..i] + [s[i]];
      r := InsertDescending(r, s[i], key);
      i := i + 1;
    }
    assert s[..i] == s;
  }

  /** Inserts `x` into the ordered `r` after every element whose key is at least `key(x)`. */
  method InsertDescending<T>(r: seq<T>, x: T, key: T -> real) returns (r': seq<T>)
    requires DescendingBy(r, key)
    ensures multiset(r') == multiset(r) + multiset{x}
    ensures DescendingBy(r', key)
  {
    var j := 0;
    while j < |r| && key(r[j]) >= key(x)
      invariant 0 <= j <= |r|
      invariant forall m :: 0 <= m < j ==> key(r[m]) >= key(x)
    {
      j := j + 1;
    }
    r' := r[..j] + [x] + r[j..];
    assert r[..j] + r[j..] == r;
    InsertionKeepsOrder(r, x, j, key);
  }

  /**
   * Placing `x` at position `j` of the ordered `r`, after the elements whose
   * key is at least `key(x)` and before the rest, keeps the order.
   */
  lemma InsertionKeepsOrder<T>(r: seq<T>, x: T, j: int, key: T -> real)
    requires DescendingBy(r, key)
    requires 0 <= j <= |r|
    requires forall m :: 0 <= m < j ==> key(r[m]) >= key(x)
    requires j < |r| ==> key(r[j]) < key(x)
    ensures DescendingBy(r[..j] + [x] + r[j..], key)
  {
    var t := r[..j] + [x] + r[j..];
    forall a, b | 0 <= a < b < |t|
      ensures key(t[a]) >= key(t[b])
    {
      if b < j {
        assert t[a] == r[a] && t[b] == r[b];
      } else if b == j {
        assert t[a] == r[a] && t[b] == x;
      } else if a == j {
        assert t[a] == x && t[b] == r[b - 1];
        assert key(r[j]) >= key(r[b - 1]);
      } else if a < j {
        assert t[a] == r[a] && t[b] == r[b - 1];
      } else {
        assert t[a] == r[a - 1] && t[b] == r[b - 1];
      }
    }
  }

  /** An element that occurs at two positions occurs at least twice in the multiset. */
  lemma {:induction false} TwiceInMultiset<T>(s: seq<T>, i: int, j: int)
    requires 0 <= i < j < |s| && s[i] == s[j]
    ensures multiset(s)[s[i]] >= 2
  {
    assert s == s[..j] + [s[j]] + s[j + 1..];
    assert s[i] in s[..j];
  }

  /** In a sequence without repetitions every element occurs at most once. */
  lemma {:induction false} DistinctAtMostOnce<T>(s: seq<T>, x: T)
    requires Distinct(s)
    ensures multiset(s)[x] <= 1
  {
    if s != [] {
      var n := |s| - 1;
      assert s == s[..n] + [s[n]];
      DistinctAtMostOnce(s[..n], x);
      if x == s[n] {
        assert x !in s[..n];
      }
    }
  }

  /** A permutation of a sequence without repetitions has none either. */
  lemma DistinctPermutation<T>(s: seq<T>, t: seq<T>)
    requires Distinct(s) && multiset(s) == multiset(t)
    ensures Distinct(t)
  {
    forall i, j | 0 <= i < j < |t|
      ensures t[i] != t[j]
    {
      if t[i] == t[j] {
        TwiceInMultiset(t, i, j);
        DistinctAtMostOnce(s, t[i]);
        assert false;
      }
    }
  }

  /** `f` applied to every element of `s`, in order. */
  function Map<A, B>(s: seq<A>, f: A -> B): (r: seq<B>)
    ensures |r| == |s| && forall i :: 0 <= i < |s| ==> r[i] == f(s[i])
  {
    if s == [] then [] else [f(s[0])] + Map(s[1..], f)
  }

  lemma {:induction false} MapAppend<A, B>(s: seq<A>, t: seq<A>, f: A -> B)
    ensures Map(s + t, f) == Map(s, f) + Map(t, f)
  {
  }

  /** Mapping a sequence with one element removed loses exactly that element's image. */
  lemma {:induction false} MapRemove<A, B>(t: seq<A>, k: int, f: A -> B)
    requires 0 <= k < |t|
    ensures multiset(Map(t, f)) == multiset(Map(t[..k] + t[k + 1..], f)) + multiset{f(t[k])}
  {
    assert t == t[..k] + ([t[k]] + t[k + 1..]);
    MapAppend(t[..k], [t[k]] + t[k + 1..], f);
    MapAppend([t[k]], t[k + 1..], f);
    MapAppend(t[..k], t[k + 1..], f);
  }

  /** Removing the element at position `k` removes one occurrence of it from the multiset. */
  lemma RemoveAt<A>(t: seq<A>, k: int)
    requires 0 <= k < |t|
    ensures multiset(t[..k] + t[k + 1..]) == multiset(t) - multiset{t[k]}
  {
    assert t == t[..k] + [t[k]] + t[k + 1..];
  }

  /** Removing the first element of `s` and an equal element of its permutation `t` leaves permutations. */
  lemma RemoveMatched<A>(s: seq<A>, t: seq<A>, k: int)
    requires multiset(s) == multiset(t)
    requires s != [] && 0 <= k < |t| && t[k] == s[0]
    ensures multiset(s[1..]) == multiset(t[..k] + t[k + 1..])
  {
    RemoveAt(t, k);
    assert s == [s[0]] + s[1..];
  }

  /** The image of a non-empty sequence is the image of its head plus that of its tail. */
  lemma MapFirst<A, B>(s: seq<A>, f: A -> B)
    requires s != []
    ensures multiset(Map(s, f)) == multiset{f(s[0])} + multiset(Map(s[1..], f))
  {
    assert Map(s, f) == [f(s[0])] + Map(s[1..], f);
  }

  /** Mapping both sides of a permutation gives a permutation. */
  lemma {:induction false} MapPermutation<A, B>(s: seq<A>, t: seq<A>, f: A -> B)
    requires multiset(s) == multiset(t)
    ensures multiset(Map(s, f)) == multiset(Map(t, f))
    decreases |s|
  {
    if s != [] {
      var x := s[0];
      assert x in t by {
        assert x in multiset(t);
      }
      var k :| 0 <= k < |t| && t[k] == x;
      var t' := t[..k] + t[k + 1..];
      RemoveMatched(s, t, k);
      MapPermutation(s[1..], t', f);
      MapFirst(s, f);
      MapRemove(t, k, f);
    }
  }
}
