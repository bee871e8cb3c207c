/** `Array.prototype.sort` with a numeric comparator `(a, b) => key(a) - key(b)`,
    which the source calls as a library routine. */
module Sorting {
  import opened Seqs

  /** Ascending by `key`. A comparator `key(b) - key(a)` is ascending by the negated key. */
  predicate SortedBy<T>(s: seq<T>, key: T -> real)
  {
    forall i, j :: 0 <= i < j < |s| ==> key(s[i]) <= key(s[j])
  }

  /** Puts `x` in front of the first element of `s` whose key is not smaller. */
  function Insert<T>(x: T, s: seq<T>, key: T -> real): seq<T>
  {
    if |s| == 0 || key(x) <= key(s[0]) then [x] + s
    else [s[0]] + Insert(x, s[1..], key)
  }

  lemma {:induction false} InsertPermutes<T>(x: T, s: seq<T>, key: T -> real)
    ensures multiset(Insert(x, s, key)) == multiset(s) + multiset{x}
  {
    if |s| > 0 && key(x) > key(s[0]) {
      InsertPermutes(x, s[1..], key);
      assert s == [s[0]] + s[1..];
    }
  }

  /** Every key in `Insert(x, s)` is at least `b` when the keys of `x` and of `s` are. */
  lemma {:induction false} InsertBounded<T>(x: T, s: seq<T>, key: T -> real, b: real)
    requires b <= key(x) && forall k :: 0 <= k < |s| ==> b <= key(s[k])
    ensures forall k :: 0 <= k < |Insert(x, s, key)| ==> b <= key(Insert(x, s, key)[k])
  {
    if |s| > 0 && key(x) > key(s[0]) {
      InsertBounded(x, s[1..], key, b);
      var r := Insert(x, s, key);
      assert r[1..] == Insert(x, s[1..], key);
      forall k | 0 <= k < |r|
        ensures b <= key(r[k])
      {
        if k > 0 {
          assert r[k] == r[1..][k - 1];
        }
      }
    }
  }

  lemma {:induction false} InsertSorted<T>(x: T, s: seq<T>, key: T -> real)
    requires SortedBy(s, key)
    ensures SortedBy(Insert(x, s, key), key)
  {
    if |s| > 0 && key(x) > key(s[0]) {
      InsertSorted(x, s[1..], key);
      InsertBounded(x, s[1..], key, key(s[0]));
      var r := Insert(x, s, key);
      assert r[1..] == Insert(x, s[1..], key);
      forall i, j | 0 <= i < j < |r|
        ensures key(r[i]) <= key(r[j])
      {
        assert r[j] == r[1..][j - 1];
        if i > 0 {
          assert r[i] == r[1..][i - 1];
        }
      }
    }
  }

  /** The sorted sequence (`[...s].sort(...)`): `s` inserted element by element, so
      elements with equal keys keep their order, as `Array.prototype.sort` does. */
  function SortBy<T>(s: seq<T>, key: T -> real): seq<T>
  {
    if |s| == 0 then [] else Insert(s[0], SortBy(s[1..], key), key)
  }

  /** The result is ascending by `key`. */
  lemma {:induction false} SortBySorted<T>(s: seq<T>, key: T -> real)
    ensures SortedBy(SortBy(s, key), key)
  {
    if |s| > 0 {
      SortBySorted(s[1..], key);
      InsertSorted(s[0], SortBy(s[1..], key), key);
    }
  }

  /** The result is a permutation of `s`. */
  lemma {:induction false} SortByPermutes<T>(s: seq<T>, key: T -> real)
    ensures multiset(SortBy(s, key)) == multiset(s)
  {
    if |s| > 0 {
      SortByPermutes(s[1..], key);
      InsertPermutes(s[0], SortBy(s[1..], key), key);
      assert s == [s[0]] + s[1..];
    }
  }

  /** Inserting `x` adds it in front of the kept elements of `s` when `p` keeps it: the
      elements `Insert` passes over have smaller keys, so none of them has `x`'s key. */
  lemma {:induction false} InsertKeepsOrder<T(!new)>(x: T, s: seq<T>, key: T -> real, k: real, p: T -> bool)
    requires forall y :: p(y) == (key(y) == k)
    ensures Filter(Insert(x, s, key), p) == (if p(x) then [x] else []) + Filter(s, p)
  {
    if |s| > 0 && key(x) > key(s[0]) {
      InsertKeepsOrder(x, s[1..], key, k, p);
      assert Insert(x, s, key) == [s[0]] + Insert(x, s[1..], key);
      FilterAppend([s[0]], Insert(x, s[1..], key), p);
      assert !(p(x) && p(s[0]));
    } else {
      FilterAppend([x], s, p);
    }
  }

  /** The sort is stable: the elements with any one key come out in their input order. */
  lemma {:induction false} SortByStable<T(!new)>(s: seq<T>, key: T -> real, k: real)
    ensures Filter(SortBy(s, key), x => key(x) == k) == Filter(s, x => key(x) == k)
  {
    var p := x => key(x) == k;
    if |s| > 0 {
      SortByStable(s[1..], key, k);
      InsertKeepsOrder(s[0], SortBy(s[1..], key), key, k, p);
      assert Filter(SortBy(s[1..], key), p) == Filter(s[1..], p);
    }
  }
}
