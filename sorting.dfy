// Python's `list.sort(key=..., reverse=True)` on a list of records: a stable
// sort into non-increasing key order, written as an insertion sort.

module Sorting {

  /** The keys of `s` never increase from left to right. */
  predicate NonIncreasing<T>(s: seq<T>, key: T -> real)
  {
    forall i, j :: 0 <= i < j < |s| ==> key(s[i]) >= key(s[j])
  }

  /**
   * Inserts `x` in front of the first element whose key is not larger than
   * its own, so that `x` stays ahead of the elements with an equal key.
   */
  function InsertDesc<T>(x: T, s: seq<T>, key: T -> real): seq<T>
  {
    if s == [] || key(x) >= key(s[0]) then [x] + s
    else [s[0]] + InsertDesc(x, s[1..], key)
  }

  /**
   * Sorts by decreasing key. Every element is inserted into the sorted rest
   * of the list in front of its equals, so equal keys keep their order.
   */
  function SortDesc<T>(xs: seq<T>, key: T -> real): seq<T>
  {
    if xs == [] then [] else InsertDesc(xs[0], SortDesc(xs[1..], key), key)
  }

  lemma {:induction false} InsertDescPermutes<T>(x: T, s: seq<T>, key: T -> real)
    ensures multiset(InsertDesc(x, s, key)) == multiset(s) + multiset{x}
    ensures |InsertDesc(x, s, key)| == |s| + 1
  {
    if s == [] || key(x) >= key(s[0]) {
    } else {
      InsertDescPermutes(x, s[1..], key);
      assert s == [s[0]] + s[1..];
    }
  }

  /** Inserting below a bound keeps every key below that bound. */
  lemma {:induction false} InsertDescBounded<T>(x: T, s: seq<T>, key: T -> real, b: real)
    requires key(x) <= b
    requires forall i :: 0 <= i < |s| ==> key(s[i]) <= b
    ensures forall i :: 0 <= i < |InsertDesc(x, s, key)| ==> key(InsertDesc(x, s, key)[i]) <= b
  {
    if s != [] && key(x) < key(s[0]) {
      InsertDescBounded(x, s[1..], key, b);
    }
  }

  lemma {:induction false} InsertDescSorted<T>(x: T, s: seq<T>, key: T -> real)
    requires NonIncreasing(s, key)
    ensures NonIncreasing(InsertDesc(x, s, key), key)
  {
    if s != [] && key(x) < key(s[0]) {
      var rest := InsertDesc(x, s[1..], key);
      InsertDescSorted(x, s[1..], key);
      InsertDescBounded(x, s[1..], key, key(s[0]));
      var r := [s[0]] + rest;
      forall i, j | 0 <= i < j < |r|
        ensures key(r[i]) >= key(r[j])
      {
        assert r[j] == rest[j - 1];
        if i > 0 {
          assert r[i] == rest[i - 1];
        }
      }
    }
  }

  /** The sort returns a rearrangement of its input. */
  lemma {:induction false} SortDescPermutes<T>(xs: seq<T>, key: T -> real)
    ensures multiset(SortDesc(xs, key)) == multiset(xs)
    ensures |SortDesc(xs, key)| == |xs|
  {
    if xs != [] {
      SortDescPermutes(xs[1..], key);
      InsertDescPermutes(xs[0], SortDesc(xs[1..], key), key);
      assert xs == [xs[0]] + xs[1..];
    }
  }

  /** The sort returns its input in non-increasing key order. */
  lemma {:induction false} SortDescSorted<T>(xs: seq<T>, key: T -> real)
    ensures NonIncreasing(SortDesc(xs, key), key)
  {
    if xs != [] {
      SortDescSorted(xs[1..], key);
      InsertDescSorted(xs[0], SortDesc(xs[1..], key), key);
    }
  }

  /** Every element of the sorted list comes from the input. */
  lemma SortDescMember<T>(xs: seq<T>, key: T -> real, y: T)
    requires y in SortDesc(xs, key)
    ensures y in xs
  {
    SortDescPermutes(xs, key);
    assert y in multiset(SortDesc(xs, key));
  }

  /** No two elements carry the same label `f`. */
  ghost predicate DistinctBy<T, U>(s: seq<T>, f: T -> U)
  {
    forall i, j :: 0 <= i < j < |s| ==> f(s[i]) != f(s[j])
  }

  /** Every element of an insertion is the inserted one or an element of the list. */
  lemma {:induction false} InsertDescFrom<T>(x: T, s: seq<T>, key: T -> real)
    ensures forall i :: 0 <= i < |InsertDesc(x, s, key)| ==> InsertDesc(x, s, key)[i] == x || InsertDesc(x, s, key)[i] in s
  {
    if s != [] && key(x) < key(s[0]) {
      InsertDescFrom(x, s[1..], key);
      forall y | y in s[1..]
        ensures y in s
      {
      }
    }
  }

  lemma {:induction false} InsertDescDistinct<T, U>(x: T, s: seq<T>, key: T -> real, f: T -> U)
    requires DistinctBy(s, f)
    requires forall y :: y in s ==> f(y) != f(x)
    ensures DistinctBy(InsertDesc(x, s, key), f)
  {
    if s == [] || key(x) >= key(s[0]) {
      var r := [x] + s;
      forall i, j | 0 <= i < j < |r|
        ensures f(r[i]) != f(r[j])
      {
        assert r[j] == s[j - 1];
        if i > 0 {
          assert r[i] == s[i - 1];
        }
      }
    } else {
      var rest := InsertDesc(x, s[1..], key);
      forall y | y in s[1..]
        ensures f(y) != f(x)
      {
        assert y in s;
      }
      assert DistinctBy(s[1..], f) by {
        forall i, j | 0 <= i < j < |s[1..]|
          ensures f(s[1..][i]) != f(s[1..][j])
        {
          assert s[1..][i] == s[i + 1] && s[1..][j] == s[j + 1];
        }
      }
      InsertDescDistinct(x, s[1..], key, f);
      InsertDescFrom(x, s[1..], key);
      var r := [s[0]] + rest;
      forall i, j | 0 <= i < j < |r|
        ensures f(r[i]) != f(r[j])
      {
        assert r[j] == rest[j - 1];
        if i == 0 {
          if rest[j - 1] != x {
            var k :| 0 <= k < |s[1..]| && s[1..][k] == rest[j - 1];
            assert s[k + 1] == rest[j - 1];
          }
        } else {
          assert r[i] == rest[i - 1];
        }
      }
    }
  }

  /** Sorting keeps labels that were pairwise distinct pairwise distinct. */
  lemma {:induction false} SortDescDistinct<T, U>(xs: seq<T>, key: T -> real, f: T -> U)
    requires DistinctBy(xs, f)
    ensures DistinctBy(SortDesc(xs, key), f)
  {
    if xs != [] {
      var rest := xs[1..];
      assert DistinctBy(rest, f) by {
        forall i, j | 0 <= i < j < |rest|
          ensures f(rest[i]) != f(rest[j])
        {
          assert rest[i] == xs[i + 1] && rest[j] == xs[j + 1];
        }
      }
      SortDescDistinct(rest, key, f);
      forall y | y in SortDesc(rest, key)
        ensures f(y) != f(xs[0])
      {
        SortDescMember(rest, key, y);
        var k :| 0 <= k < |rest| && rest[k] == y;
        assert xs[k + 1] == y;
      }
      InsertDescDistinct(xs[0], SortDesc(rest, key), key, f);
    }
  }

  /** An input that is already in order comes back unchanged. */
  lemma {:induction false} SortDescOfSorted<T>(xs: seq<T>, key: T -> real)
    requires NonIncreasing(xs, key)
    ensures SortDesc(xs, key) == xs
  {
    if xs != [] {
      var rest := xs[1..];
      assert NonIncreasing(rest, key) by {
        forall i, j | 0 <= i < j < |rest|
          ensures key(rest[i]) >= key(rest[j])
        {
          assert rest[i] == xs[i + 1] && rest[j] == xs[j + 1];
        }
      }
      SortDescOfSorted(rest, key);
      if rest != [] {
        assert key(xs[0]) >= key(xs[1]);
      }
      assert [xs[0]] + rest == xs;
    }
  }

  /** `a` occurs somewhere before `b` in `s`. */
  ghost predicate Before<T>(s: seq<T>, a: T, b: T)
  {
    exists p, q :: 0 <= p < q < |s| && s[p] == a && s[q] == b
  }

  /** Inserting an element keeps the relative order of the others. */
  lemma {:induction false} InsertDescKeepsOrder<T>(x: T, s: seq<T>, key: T -> real, a: T, b: T)
    requires Before(s, a, b)
    ensures Before(InsertDesc(x, s, key), a, b)
  {
    var p, q :| 0 <= p < q < |s| && s[p] == a && s[q] == b;
    var r := InsertDesc(x, s, key);
    if s == [] || key(x) >= key(s[0]) {
      assert r[p + 1] == a && r[q + 1] == b;
    } else if p == 0 {
      var rest := InsertDesc(x, s[1..], key);
      InsertDescPermutes(x, s[1..], key);
      assert s[1..][q - 1] == b;
      assert b in multiset(rest);
      var k :| 0 <= k < |rest| && rest[k] == b;
      assert r[0] == a && r[k + 1] == b;
    } else {
      InsertDescKeepsOrder(x, s[1..], key, a, b);
      var rest := InsertDesc(x, s[1..], key);
      assert s[1..][p - 1] == a && s[1..][q - 1] == b;
      var p', q' :| 0 <= p' < q' < |rest| && rest[p'] == a && rest[q'] == b;
      assert r[p' + 1] == a && r[q' + 1] == b;
    }
  }

  /** An inserted element goes in front of every element whose key is not larger. */
  lemma {:induction false} InsertDescBeforeEqual<T>(x: T, s: seq<T>, key: T -> real, y: T)
    requires y in s && key(y) <= key(x) && y != x
    ensures Before(InsertDesc(x, s, key), x, y)
  {
    var r := InsertDesc(x, s, key);
    if key(x) >= key(s[0]) {
      var k :| 0 <= k < |s| && s[k] == y;
      assert r[0] == x && r[k + 1] == y;
    } else {
      assert s[0] != y;
      assert y in s[1..] by {
        var k :| 0 <= k < |s| && s[k] == y;
        assert s[1..][k - 1] == y;
      }
      InsertDescBeforeEqual(x, s[1..], key, y);
      var rest := InsertDesc(x, s[1..], key);
      var p, q :| 0 <= p < q < |rest| && rest[p] == x && rest[q] == y;
      assert r[p + 1] == x && r[q + 1] == y;
    }
  }

  /**
   * The sort is stable: of two different elements with equal keys, the one
   * that comes first in the input comes first in the output.
   */
  lemma {:induction false} SortDescStable<T>(xs: seq<T>, key: T -> real, i: nat, j: nat)
    requires i < j < |xs| && key(xs[i]) == key(xs[j]) && xs[i] != xs[j]
    ensures Before(SortDesc(xs, key), xs[i], xs[j])
  {
    var rest := xs[1..];
    if i == 0 {
      assert rest[j - 1] == xs[j];
      SortDescPermutes(rest, key);
      assert xs[j] in multiset(SortDesc(rest, key));
      InsertDescBeforeEqual(xs[0], SortDesc(rest, key), key, xs[j]);
    } else {
      assert rest[i - 1] == xs[i] && rest[j - 1] == xs[j];
      SortDescStable(rest, key, i - 1, j - 1);
      InsertDescKeepsOrder(xs[0], SortDesc(rest, key), key, xs[i], xs[j]);
    }
  }
}
