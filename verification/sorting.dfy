/**
 * Python's `list.sort(key=...)`: a stable sort by a numeric key. It is
 * modelled by insertion sort, and three lemmas say what a stable sort must
 * deliver: the result is ordered by key, it is a permutation of the input,
 * and the elements that share a key keep their original order.
 */
module Sorting {

  /** `x` placed before the first element whose key is not smaller. */
  function InsertBy<T>(x: T, s: seq<T>, key: T -> real): seq<T>
  {
    if |s| == 0 then [x]
    else if key(x) <= key(s[0]) then [x] + s
    else [s[0]] + InsertBy(x, s[1..], key)
  }

  /** `sorted(s, key=key)`. */
  function SortBy<T>(s: seq<T>, key: T -> real): seq<T>
  {
    if |s| == 0 then [] else InsertBy(s[0], SortBy(s[1..], key), key)
  }

  ghost predicate SortedBy<T>(s: seq<T>, key: T -> real)
  {
    forall i, j :: 0 <= i < j < |s| ==> key(s[i]) <= key(s[j])
  }

  /** The elements of `s` whose key is `k`, in their order in `s`. */
  function WithKey<T>(s: seq<T>, key: T -> real, k: real): seq<T>
  {
    if |s| == 0 then []
    else (if key(s[0]) == k then [s[0]] else []) + WithKey(s[1..], key, k)
  }

  lemma {:induction false} InsertByPermutes<T>(x: T, s: seq<T>, key: T -> real)
    ensures multiset(InsertBy(x, s, key)) == multiset(s) + multiset{x}
    ensures |InsertBy(x, s, key)| == |s| + 1
  {
    if |s| > 0 && key(x) > key(s[0]) {
      InsertByPermutes(x, s[1..], key);
      assert s == [s[0]] + s[1..];
    }
  }

  lemma {:induction false} InsertByLowerBound<T>(x: T, s: seq<T>, key: T -> real, b: real)
    requires b <= key(x)
    requires forall i :: 0 <= i < |s| ==> b <= key(s[i])
    ensures forall i :: 0 <= i < |InsertBy(x, s, key)| ==> b <= key(InsertBy(x, s, key)[i])
  {
    if |s| > 0 && key(x) > key(s[0]) {
      InsertByLowerBound(x, s[1..], key, b);
    }
  }

  lemma {:induction false} InsertBySorted<T>(x: T, s: seq<T>, key: T -> real)
    requires SortedBy(s, key)
    ensures SortedBy(InsertBy(x, s, key), key)
  {
    if |s| > 0 && key(x) > key(s[0]) {
      InsertBySorted(x, s[1..], key);
      InsertByLowerBound(x, s[1..], key, key(s[0]));
    }
  }

  /** The result of `SortBy` is ordered by key and has the same elements. */
  lemma {:induction false} SortBySortedPermutation<T>(s: seq<T>, key: T -> real)
    ensures SortedBy(SortBy(s, key), key)
    ensures multiset(SortBy(s, key)) == multiset(s)
    ensures |SortBy(s, key)| == |s|
  {
    if |s| > 0 {
      SortBySortedPermutation(s[1..], key);
      InsertBySorted(s[0], SortBy(s[1..], key), key);
      InsertByPermutes(s[0], SortBy(s[1..], key), key);
      assert s == [s[0]] + s[1..];
      assert multiset(s) == multiset(s[1..]) + multiset{s[0]};
    }
  }

  lemma {:induction false} WithKeyConcat<T>(a: seq<T>, b: seq<T>, key: T -> real, k: real)
    ensures WithKey(a + b, key, k) == WithKey(a, key, k) + WithKey(b, key, k)
  {
    if |a| > 0 {
      WithKeyConcat(a[1..], b, key, k);
      assert (a + b)[1..] == a[1..] + b;
    } else {
      assert a + b == b;
    }
  }

  /** `WithKey` of a sequence with a known first element. */
  lemma WithKeyCons<T>(a: T, t: seq<T>, key: T -> real, k: real)
    ensures WithKey([a] + t, key, k) == (if key(a) == k then [a] else []) + WithKey(t, key, k)
  {
    assert ([a] + t)[1..] == t;
  }

  lemma {:induction false} WithKeyInsertBy<T>(x: T, s: seq<T>, key: T -> real, k: real)
    ensures WithKey(InsertBy(x, s, key), key, k)
         == (if key(x) == k then [x] else []) + WithKey(s, key, k)
  {
    if |s| == 0 {
    } else if key(x) <= key(s[0]) {
      WithKeyCons(x, s, key, k);
    } else {
      var tail := InsertBy(x, s[1..], key);
      WithKeyInsertBy(x, s[1..], key, k);
      WithKeyCons(s[0], tail, key, k);
      WithKeyCons(s[0], s[1..], key, k);
      assert [s[0]] + s[1..] == s;
      // `x` and `s[0]` have different keys, so at most one of them is kept
      if key(x) == k {
        assert key(s[0]) != k;
      }
    }
  }

  /** Stability: for every key, the elements with that key keep their order. */
  lemma {:induction false} SortByStable<T>(s: seq<T>, key: T -> real, k: real)
    ensures WithKey(SortBy(s, key), key, k) == WithKey(s, key, k)
  {
    if |s| > 0 {
      SortByStable(s[1..], key, k);
      WithKeyInsertBy(s[0], SortBy(s[1..], key), key, k);
    }
  }

  /** The first element of a sorted non-empty sequence has the smallest key. */
  lemma SortByFirstIsMinimal<T>(s: seq<T>, key: T -> real)
    requires |s| > 0
    ensures |SortBy(s, key)| == |s|
    ensures SortBy(s, key)[0] in multiset(s)
    ensures forall x :: x in multiset(s) ==> key(SortBy(s, key)[0]) <= key(x)
  {
    SortBySortedPermutation(s, key);
    var r := SortBy(s, key);
    assert r[0] in multiset(r);
    forall x | x in multiset(s) ensures key(r[0]) <= key(x) {
      assert x in multiset(r);
      var j :| 0 <= j < |r| && r[j] == x;
    }
  }

  /** The first element with key `k` heads `WithKey(s, key, k)`: no earlier element has that key. */
  lemma {:induction false} WithKeyHeadIsFirst<T>(s: seq<T>, key: T -> real, k: real)
    requires |WithKey(s, key, k)| > 0
    ensures exists m :: 0 <= m < |s| && s[m] == WithKey(s, key, k)[0] && key(s[m]) == k &&
                        forall j :: 0 <= j < m ==> key(s[j]) != k
  {
    if key(s[0]) != k {
      WithKeyHeadIsFirst(s[1..], key, k);
      var m :| 0 <= m < |s[1..]| && s[1..][m] == WithKey(s[1..], key, k)[0] && key(s[1..][m]) == k &&
               forall j :: 0 <= j < m ==> key(s[1..][j]) != k;
      assert s[m + 1] == s[1..][m];
      forall j | 0 <= j < m + 1 ensures key(s[j]) != k {
        if j > 0 {
          assert s[j] == s[1..][j - 1];
        }
      }
    }
  }

  /** The head of a stably sorted sequence is the first element with the smallest key. */
  lemma SortByHeadIsFirstMinimal<T>(s: seq<T>, key: T -> real)
    requires |s| > 0
    ensures |SortBy(s, key)| == |s|
    ensures exists m :: 0 <= m < |s| && s[m] == SortBy(s, key)[0] &&
                        (forall j :: 0 <= j < |s| ==> key(s[m]) <= key(s[j])) &&
                        (forall j :: 0 <= j < m ==> key(s[j]) > key(s[m]))
  {
    var sorted := SortBy(s, key);
    SortByFirstIsMinimal(s, key);
    var k := key(sorted[0]);
    assert WithKey(sorted, key, k)[0] == sorted[0];
    SortByStable(s, key, k);
    WithKeyHeadIsFirst(s, key, k);
    var m :| 0 <= m < |s| && s[m] == WithKey(s, key, k)[0] && key(s[m]) == k &&
             forall j :: 0 <= j < m ==> key(s[j]) != k;
    forall j | 0 <= j < |s| ensures key(s[m]) <= key(s[j]) {
      assert s[j] in multiset(s);
    }
  }
}
