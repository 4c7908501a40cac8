/**
 * Folds and the stable sort the planner relies on. `Array.prototype.reduce`
 * over a list becomes SumOf; `Array.prototype.sort` with a numeric comparator
 * becomes SortBy, a stable insertion sort by ascending key (ECMAScript
 * requires the library sort to be stable).
 */
module Sorting {

  /** reduce((sum, x) => sum + f(x), 0): a left fold, so the last element is added last. */
  function SumOf<T>(s: seq<T>, f: T -> real): real
  {
    if s == [] then 0.0 else SumOf(s[..|s| - 1], f) + f(s[|s| - 1])
  }

  lemma {:induction false} SumOfAppend<T>(s: seq<T>, t: seq<T>, f: T -> real)
    ensures SumOf(s + t, f) == SumOf(s, f) + SumOf(t, f)
  {
    if t != [] {
      assert (s + t)[..|s + t| - 1] == s + t[..|t| - 1];
      SumOfAppend(s, t[..|t| - 1], f);
    } else {
      assert s + t == s;
    }
  }

  lemma SumOfCons<T>(x: T, s: seq<T>, f: T -> real)
    ensures SumOf([x] + s, f) == f(x) + SumOf(s, f)
  {
    SumOfAppend([x], s, f);
    assert [x][..0] == [];
  }

  /** A sum of non-negative terms is non-negative. */
  lemma {:induction false} SumOfNonNegative<T>(s: seq<T>, f: T -> real)
    requires forall i :: 0 <= i < |s| ==> f(s[i]) >= 0.0
    ensures SumOf(s, f) >= 0.0
  {
    if s != [] {
      SumOfNonNegative(s[..|s| - 1], f);
    }
  }

  /** Number of elements of s that satisfy p. */
  function CountBy<T>(s: seq<T>, p: T -> bool): (n: nat)
    ensures n <= |s|
    ensures n == 0 <==> forall i :: 0 <= i < |s| ==> !p(s[i])
  {
    if s == [] then 0 else (if p(s[0]) then 1 else 0) + CountBy(s[1..], p)
  }

  lemma {:induction false} CountByAppend<T>(s: seq<T>, t: seq<T>, p: T -> bool)
    ensures CountBy(s + t, p) == CountBy(s, p) + CountBy(t, p)
  {
    if s != [] {
      assert (s + t)[1..] == s[1..] + t;
      CountByAppend(s[1..], t, p);
    } else {
      assert s + t == t;
    }
  }

  /** The elements of s whose key is k, in their order in s. */
  function FilterKey<T>(s: seq<T>, key: T -> real, k: real): (r: seq<T>)
    ensures |r| <= |s|
    ensures forall i :: 0 <= i < |r| ==> key(r[i]) == k
  {
    if s == [] then [] else (if key(s[0]) == k then [s[0]] else []) + FilterKey(s[1..], key, k)
  }

  /** Keys never decrease along s. */
  ghost predicate SortedBy<T>(s: seq<T>, key: T -> real)
  {
    forall i, j :: 0 <= i < j < |s| ==> key(s[i]) <= key(s[j])
  }

  /** Places x before the first element whose key is not below x's, so x
      precedes every element of equal key. */
  function InsertBy<T>(x: T, s: seq<T>, key: T -> real): seq<T>
  {
    if s == [] || key(x) <= key(s[0]) then [x] + s else [s[0]] + InsertBy(x, s[1..], key)
  }

  /** Stable sort by ascending key. */
  function SortBy<T>(s: seq<T>, key: T -> real): seq<T>
  {
    if s == [] then [] else InsertBy(s[0], SortBy(s[1..], key), key)
  }

  lemma {:induction false} InsertByPermutes<T>(x: T, s: seq<T>, key: T -> real)
    ensures |InsertBy(x, s, key)| == |s| + 1
    ensures multiset(InsertBy(x, s, key)) == multiset(s) + multiset{x}
  {
    if s != [] && key(x) > key(s[0]) {
      InsertByPermutes(x, s[1..], key);
      assert s == [s[0]] + s[1..];
    }
  }

  lemma {:induction false} InsertBySorted<T>(x: T, s: seq<T>, key: T -> real)
    requires SortedBy(s, key)
    ensures SortedBy(InsertBy(x, s, key), key)
  {
    var r := InsertBy(x, s, key);
    if s != [] && key(x) > key(s[0]) {
      var rest := InsertBy(x, s[1..], key);
      InsertBySorted(x, s[1..], key);
      InsertByPermutes(x, s[1..], key);
      assert r == [s[0]] + rest;
      forall j | 0 < j < |r| ensures key(r[0]) <= key(r[j]) {
        assert r[j] == rest[j - 1];
        assert r[j] in multiset(rest);
        if r[j] != x {
          assert r[j] in multiset(s[1..]);
          var m :| 0 <= m < |s[1..]| && s[1..][m] == r[j];
          assert key(s[0]) <= key(s[m + 1]);
        }
      }
      forall i, j | 0 < i < j < |r| ensures key(r[i]) <= key(r[j]) {
        assert r[i] == rest[i - 1] && r[j] == rest[j - 1];
      }
    }
  }

  lemma {:induction false} InsertByFilter<T>(x: T, s: seq<T>, key: T -> real, k: real)
    ensures FilterKey(InsertBy(x, s, key), key, k)
            == (if key(x) == k then [x] else []) + FilterKey(s, key, k)
  {
    var r := InsertBy(x, s, key);
    if s == [] || key(x) <= key(s[0]) {
      assert r[1..] == s;
    } else {
      var rest := InsertBy(x, s[1..], key);
      InsertByFilter(x, s[1..], key, k);
      assert r[1..] == rest;
    }
  }

  /** SortBy returns the same elements, ordered by key, with equal keys in
      their input order. */
  lemma {:induction false} SortByFacts<T>(s: seq<T>, key: T -> real)
    ensures |SortBy(s, key)| == |s|
    ensures multiset(SortBy(s, key)) == multiset(s)
    ensures SortedBy(SortBy(s, key), key)
    ensures forall k :: FilterKey(SortBy(s, key), key, k) == FilterKey(s, key, k)
  {
    if s != [] {
      SortByFacts(s[1..], key);
      InsertByPermutes(s[0], SortBy(s[1..], key), key);
      InsertBySorted(s[0], SortBy(s[1..], key), key);
      forall k ensures FilterKey(SortBy(s, key), key, k) == FilterKey(s, key, k) {
        InsertByFilter(s[0], SortBy(s[1..], key), key, k);
      }
      assert s == [s[0]] + s[1..];
      assert multiset(s) == multiset{s[0]} + multiset(s[1..]);
    }
  }

  /** Sorting keeps every element's count, and hence every sum. */
  lemma {:induction false} SortByPreservesCount<T>(s: seq<T>, key: T -> real, p: T -> bool)
    ensures CountBy(SortBy(s, key), p) == CountBy(s, p)
  {
    if s != [] {
      SortByPreservesCount(s[1..], key, p);
      InsertPreservesCount(s[0], SortBy(s[1..], key), key, p);
    }
  }

  lemma {:induction false} InsertPreservesCount<T>(x: T, s: seq<T>, key: T -> real, p: T -> bool)
    ensures CountBy(InsertBy(x, s, key), p) == (if p(x) then 1 else 0) + CountBy(s, p)
  {
    if s != [] && key(x) > key(s[0]) {
      InsertPreservesCount(x, s[1..], key, p);
      assert ([s[0]] + InsertBy(x, s[1..], key))[1..] == InsertBy(x, s[1..], key);
    } else {
      assert ([x] + s)[1..] == s;
    }
  }

  lemma {:induction false} InsertPreservesSum<T>(x: T, s: seq<T>, key: T -> real, f: T -> real)
    ensures SumOf(InsertBy(x, s, key), f) == f(x) + SumOf(s, f)
  {
    if s != [] && key(x) > key(s[0]) {
      InsertPreservesSum(x, s[1..], key, f);
      SumOfCons(s[0], InsertBy(x, s[1..], key), f);
      SumOfCons(s[0], s[1..], f);
      assert s == [s[0]] + s[1..];
    } else {
      SumOfCons(x, s, f);
    }
  }

  lemma {:induction false} SortByPreservesSum<T>(s: seq<T>, key: T -> real, f: T -> real)
    ensures SumOf(SortBy(s, key), f) == SumOf(s, f)
  {
    if s != [] {
      SortByPreservesSum(s[1..], key, f);
      InsertPreservesSum(s[0], SortBy(s[1..], key), key, f);
      SumOfCons(s[0], s[1..], f);
      assert s == [s[0]] + s[1..];
    }
  }

  /** The head of a sorted non-empty sequence has the least key. */
  lemma SortedHeadIsLeast<T>(s: seq<T>, key: T -> real)
    requires SortedBy(s, key) && |s| > 0
    ensures forall i :: 0 <= i < |s| ==> key(s[0]) <= key(s[i])
  {
    forall i | 0 < i < |s| ensures key(s[0]) <= key(s[i]) {
    }
  }
}
