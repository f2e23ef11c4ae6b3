/**
 * Python's sort is stable, and `reverse=True` keeps that stability: elements whose keys are
 * equal stay in their input order. Every ranking in the reports (`list.sort(..., reverse=True)`
 * and `sorted(..., reverse=True)`) is modelled by SortDesc below, a stable insertion sort by
 * descending key; any stable sort yields the same sequence.
 */
module StableSort {

  /** The elements of s whose key is k, in their order in s. */
  function WithKey<T>(s: seq<T>, key: T -> real, k: real): seq<T>
  {
    if s == [] then []
    else (if key(s[0]) == k then [s[0]] else []) + WithKey(s[1..], key, k)
  }

  ghost predicate NonIncreasing<T>(s: seq<T>, key: T -> real)
  {
    forall i, j :: 0 <= i < j < |s| ==> key(s[i]) >= key(s[j])
  }

  /** No element occurs twice. */
  ghost predicate Distinct<T>(s: seq<T>)
  {
    s == [] || (s[0] !in s[1..] && Distinct(s[1..]))
  }

  /** Two positions of a repetition-free sequence hold different elements. */
  lemma {:induction false} DistinctApart<T>(s: seq<T>, i: int, j: int)
    requires Distinct(s) && 0 <= i < j < |s|
    ensures s[i] != s[j]
  {
    if i == 0 {
      assert s[j] == s[1..][j - 1];
    } else {
      DistinctApart(s[1..], i - 1, j - 1);
    }
  }

  lemma {:induction false} DistinctSnoc<T>(s: seq<T>, y: T)
    requires Distinct(s) && y !in s
    ensures Distinct(s + [y])
  {
    if s != [] {
      assert (s + [y])[1..] == s[1..] + [y];
      DistinctSnoc(s[1..], y);
    }
  }

  /**
   * Puts x just before the first element of s whose key is not larger than x's key, so x goes
   * after every element with a larger key and before every element with an equal one.
   */
  function Insert<T(==)>(x: T, s: seq<T>, key: T -> real): (r: seq<T>)
    ensures multiset(r) == multiset(s) + multiset{x}
  {
    if s == [] || key(s[0]) <= key(x) then [x] + s
    else
      assert s == [s[0]] + s[1..];
      [s[0]] + Insert(x, s[1..], key)
  }

  lemma InsertMembers<T>(x: T, s: seq<T>, key: T -> real)
    ensures forall y :: y in Insert(x, s, key) <==> y == x || y in s
  {
    forall y ensures y in Insert(x, s, key) <==> y == x || y in s {
      assert y in Insert(x, s, key) <==> y in multiset(Insert(x, s, key));
    }
  }

  lemma {:induction false} InsertSorted<T>(x: T, s: seq<T>, key: T -> real)
    requires NonIncreasing(s, key)
    ensures NonIncreasing(Insert(x, s, key), key)
  {
    if s == [] || key(s[0]) <= key(x) {
    } else {
      var rest := Insert(x, s[1..], key);
      InsertSorted(x, s[1..], key);
      assert forall j :: 0 <= j < |rest| ==> key(s[0]) >= key(rest[j]) by {
        forall j | 0 <= j < |rest| ensures key(s[0]) >= key(rest[j]) {
          var tail := s[1..];
          assert rest[j] in rest;
          assert rest[j] in multiset(rest);
          if rest[j] != x {
            assert rest[j] in multiset(tail);
            assert rest[j] in tail;
            var m :| 0 <= m < |tail| && tail[m] == rest[j];
            assert s[1 + m] == rest[j];
          }
        }
      }
    }
  }

  lemma {:induction false} InsertStable<T>(x: T, s: seq<T>, key: T -> real, k: real)
    ensures WithKey(Insert(x, s, key), key, k) == (if key(x) == k then [x] else []) + WithKey(s, key, k)
  {
    if s == [] || key(s[0]) <= key(x) {
      assert ([x] + s)[1..] == s;
    } else {
      var rest := Insert(x, s[1..], key);
      assert ([s[0]] + rest)[1..] == rest;
      InsertStable(x, s[1..], key, k);
    }
  }

  /** Stable sort by descending key. */
  function SortDesc<T(==)>(s: seq<T>, key: T -> real): (r: seq<T>)
    ensures |r| == |s|
    ensures multiset(r) == multiset(s)
  {
    if s == [] then []
    else
      assert s == [s[0]] + s[1..];
      var r := Insert(s[0], SortDesc(s[1..], key), key);
      assert |r| == |multiset(r)| == |s|;
      r
  }

  /** The sorted sequence is non-increasing by key. */
  lemma {:induction false} SortDescSorted<T>(s: seq<T>, key: T -> real)
    ensures NonIncreasing(SortDesc(s, key), key)
  {
    if s != [] {
      SortDescSorted(s[1..], key);
      InsertSorted(s[0], SortDesc(s[1..], key), key);
    }
  }

  /** Sorting is stable: the elements of each key keep their input order. */
  lemma {:induction false} SortDescStable<T>(s: seq<T>, key: T -> real)
    ensures forall k :: WithKey(SortDesc(s, key), key, k) == WithKey(s, key, k)
  {
    if s != [] {
      SortDescStable(s[1..], key);
      forall k ensures WithKey(SortDesc(s, key), key, k) == WithKey(s, key, k) {
        InsertStable(s[0], SortDesc(s[1..], key), key, k);
      }
    }
  }

  lemma {:induction false} InsertDistinct<T>(x: T, s: seq<T>, key: T -> real)
    requires Distinct(s) && x !in s
    ensures Distinct(Insert(x, s, key))
  {
    if s == [] || key(s[0]) <= key(x) {
      assert ([x] + s)[1..] == s;
    } else {
      var tail := s[1..];
      var rest := Insert(x, tail, key);
      InsertDistinct(x, tail, key);
      InsertMembers(x, tail, key);
      assert ([s[0]] + rest)[1..] == rest;
    }
  }

  /** Sorting keeps a repetition-free sequence repetition-free. */
  lemma {:induction false} SortDescDistinct<T>(s: seq<T>, key: T -> real)
    requires Distinct(s)
    ensures Distinct(SortDesc(s, key))
  {
    if s != [] {
      var tail := s[1..];
      SortDescDistinct(tail, key);
      assert s[0] !in multiset(SortDesc(tail, key));
      InsertDistinct(s[0], SortDesc(tail, key), key);
    }
  }

  lemma {:induction false} InsertAgree<T>(x: T, s: seq<T>, f: T -> real, g: T -> real)
    requires f(x) == g(x) && forall y :: y in s ==> f(y) == g(y)
    ensures Insert(x, s, f) == Insert(x, s, g)
  {
    if s != [] {
      assert s[0] in s;
      InsertAgree(x, s[1..], f, g);
    }
  }

  /** The result depends on the key function only through its values on the sorted elements. */
  lemma {:induction false} SortDescAgree<T>(s: seq<T>, f: T -> real, g: T -> real)
    requires forall y :: y in s ==> f(y) == g(y)
    ensures SortDesc(s, f) == SortDesc(s, g)
  {
    if s != [] {
      var tail := s[1..];
      SortDescAgree(tail, f, g);
      var sorted := SortDesc(tail, f);
      forall y | y in sorted ensures f(y) == g(y) {
        assert y in multiset(sorted);
        assert y in tail;
      }
      assert s[0] in s;
      InsertAgree(s[0], sorted, f, g);
    }
  }

  /** The first n elements of s, or all of s when it is shorter (Python's s[:n]). */
  function Top<T>(s: seq<T>, n: nat): (r: seq<T>)
    ensures |r| == if |s| < n then |s| else n
    ensures forall i :: 0 <= i < |r| ==> r[i] == s[i]
  {
    if |s| < n then s else s[..n]
  }

  /**
   * The first n elements of the sorted sequence are a selection of best elements: every element
   * left out has a key no larger than any element kept.
   */
  lemma {:induction false} TopOfSortedIsBest<T>(s: seq<T>, key: T -> real, n: nat)
    ensures multiset(Top(SortDesc(s, key), n)) <= multiset(s)
    ensures forall x, i :: x in multiset(s) - multiset(Top(SortDesc(s, key), n)) && 0 <= i < |Top(SortDesc(s, key), n)|
              ==> key(x) <= key(Top(SortDesc(s, key), n)[i])
  {
    var r := SortDesc(s, key);
    var top := Top(r, n);
    SortDescSorted(s, key);
    if |r| >= n {
      var rest := r[n..];
      assert r == top + rest;
      assert multiset(r) == multiset(top) + multiset(rest);
      forall x, i | x in multiset(s) - multiset(top) && 0 <= i < |top| ensures key(x) <= key(top[i]) {
        assert x in multiset(rest);
        assert x in rest;
        var m :| 0 <= m < |rest| && rest[m] == x;
        assert r[n + m] == x;
        assert top[i] == r[i];
      }
    }
  }
}
