/** LINQ's OrderBy over a string key: a stable sort under ordinal string
    order. Case-insensitive orderings pass a key that is already upper-cased
    (StringComparer.OrdinalIgnoreCase compares the upper-cased strings). */
module Sorting {
  import opened Text

  ghost predicate SortedBy<T>(s: seq<T>, key: T -> string)
  {
    forall i, j :: 0 <= i < j < |s| ==> LessEq(key(s[i]), key(s[j]))
  }

  /** Inserts `x` before the first element whose key is not smaller than x's,
      so that `x` stays ahead of later elements with an equal key. */
  function Insert<T>(x: T, s: seq<T>, key: T -> string): seq<T>
  {
    if s == [] then [x]
    else if LessEq(key(x), key(s[0])) then [x] + s
    else [s[0]] + Insert(x, s[1..], key)
  }

  /** OrderBy(key): elements of equal key keep their input order. */
  function SortBy<T>(s: seq<T>, key: T -> string): seq<T>
  {
    if s == [] then [] else Insert(s[0], SortBy(s[1..], key), key)
  }

  lemma {:induction false} InsertPermutes<T>(x: T, s: seq<T>, key: T -> string)
    ensures multiset(Insert(x, s, key)) == multiset(s) + multiset{x}
    ensures |Insert(x, s, key)| == |s| + 1
  {
    if s != [] && !LessEq(key(x), key(s[0])) {
      InsertPermutes(x, s[1..], key);
      assert s == [s[0]] + s[1..];
    }
  }

  lemma {:induction false} InsertSorted<T>(x: T, s: seq<T>, key: T -> string)
    requires SortedBy(s, key)
    ensures SortedBy(Insert(x, s, key), key)
  {
    if s == [] {
    } else if LessEq(key(x), key(s[0])) {
      var r := [x] + s;
      forall i, j | 0 <= i < j < |r| ensures LessEq(key(r[i]), key(r[j])) {
        if i == 0 && j > 1 {
          LessEqTransitive(key(x), key(s[0]), key(s[j - 1]));
        }
      }
    } else {
      var t := Insert(x, s[1..], key);
      InsertSorted(x, s[1..], key);
      InsertPermutes(x, s[1..], key);
      LessEqTotal(key(x), key(s[0]));
      var r := [s[0]] + t;
      forall j | 0 < j < |r| ensures LessEq(key(s[0]), key(r[j])) {
        assert r[j] in multiset(t);
        if r[j] != x {
          assert r[j] in multiset(s[1..]);
          var k :| 0 <= k < |s[1..]| && s[1..][k] == r[j];
          assert s[k + 1] == r[j];
        }
      }
    }
  }

  /** OrderBy returns a sorted permutation of its input. */
  lemma {:induction false} SortByFacts<T>(s: seq<T>, key: T -> string)
    ensures multiset(SortBy(s, key)) == multiset(s)
    ensures |SortBy(s, key)| == |s|
    ensures SortedBy(SortBy(s, key), key)
  {
    if s != [] {
      SortByFacts(s[1..], key);
      InsertPermutes(s[0], SortBy(s[1..], key), key);
      InsertSorted(s[0], SortBy(s[1..], key), key);
      assert s == [s[0]] + s[1..];
    }
  }

  /** The permutation half of SortByFacts, for proofs that need no order. */
  lemma {:induction false} SortByPermutes<T>(s: seq<T>, key: T -> string)
    ensures multiset(SortBy(s, key)) == multiset(s)
    ensures |SortBy(s, key)| == |s|
  {
    if s != [] {
      SortByPermutes(s[1..], key);
      InsertPermutes(s[0], SortBy(s[1..], key), key);
      assert s == [s[0]] + s[1..];
    }
  }

  /** No two elements share a key. */
  ghost predicate DistinctBy<T, K>(s: seq<T>, key: T -> K)
  {
    forall i, j :: 0 <= i < j < |s| ==> key(s[i]) != key(s[j])
  }

  lemma {:induction false} InsertKeepsDistinct<T, K>(x: T, s: seq<T>, order: T -> string, key: T -> K)
    requires DistinctBy(s, key)
    requires forall y :: y in s ==> key(y) != key(x)
    ensures DistinctBy(Insert(x, s, order), key)
  {
    if s == [] {
    } else if LessEq(order(x), order(s[0])) {
      var r := [x] + s;
      forall i, j | 0 <= i < j < |r|
        ensures key(r[i]) != key(r[j])
      {
        if i == 0 {
          assert r[j] == s[j - 1];
        } else {
          assert r[i] == s[i - 1] && r[j] == s[j - 1];
        }
      }
    } else {
      InsertKeepsDistinct(x, s[1..], order, key);
      InsertPermutes(x, s[1..], order);
      var t := Insert(x, s[1..], order);
      var r := [s[0]] + t;
      forall j | 0 < j < |r|
        ensures key(s[0]) != key(r[j])
      {
        assert r[j] == t[j - 1];
        assert r[j] in multiset(t);
        if r[j] != x {
          assert r[j] in multiset(s[1..]);
          var m :| 0 <= m < |s[1..]| && s[1..][m] == r[j];
          assert s[m + 1] == r[j];
        }
      }
      forall i, j | 0 <= i < j < |r|
        ensures key(r[i]) != key(r[j])
      {
        if i > 0 {
          assert r[i] == t[i - 1] && r[j] == t[j - 1];
        }
      }
    }
  }

  /** Sorting by `order` never makes two elements share a `key`. */
  lemma {:induction false} SortByKeepsDistinct<T, K>(s: seq<T>, order: T -> string, key: T -> K)
    requires DistinctBy(s, key)
    ensures DistinctBy(SortBy(s, order), key)
  {
    if s != [] {
      var t := SortBy(s[1..], order);
      SortByKeepsDistinct(s[1..], order, key);
      SortByFacts(s[1..], order);
      forall y | y in t
        ensures key(y) != key(s[0])
      {
        assert y in multiset(s[1..]);
        var m :| 0 <= m < |s[1..]| && s[1..][m] == y;
        assert s[m + 1] == y;
      }
      InsertKeepsDistinct(s[0], t, order, key);
    }
  }

  /** The sum of `f` over `s`. */
  function Total<T>(s: seq<T>, f: T -> nat): nat
  {
    if s == [] then 0 else f(s[0]) + Total(s[1..], f)
  }

  lemma {:induction false} InsertKeepsTotal<T>(x: T, s: seq<T>, order: T -> string, f: T -> nat)
    ensures Total(Insert(x, s, order), f) == f(x) + Total(s, f)
  {
    if s != [] && !LessEq(order(x), order(s[0])) {
      InsertKeepsTotal(x, s[1..], order, f);
      assert ([s[0]] + Insert(x, s[1..], order))[1..] == Insert(x, s[1..], order);
    } else if s != [] {
      assert ([x] + s)[1..] == s;
    }
  }

  /** Reordering does not change a sum. */
  lemma {:induction false} SortByKeepsTotal<T>(s: seq<T>, order: T -> string, f: T -> nat)
    ensures Total(SortBy(s, order), f) == Total(s, f)
  {
    if s != [] {
      SortByKeepsTotal(s[1..], order, f);
      InsertKeepsTotal(s[0], SortBy(s[1..], order), order, f);
    }
  }
}
