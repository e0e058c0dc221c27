/**
 * Ordering and truncation as the retrieval code uses them: Python's stable
 * `list.sort(key=..., reverse=True)` and the prefix slice `xs[:k]`.
 */
module Ranking {

  /** Non-increasing by `key`. */
  ghost predicate SortedDesc<T>(s: seq<T>, key: T -> real) {
    forall i, j :: 0 <= i < j < |s| ==> key(s[i]) >= key(s[j])
  }

  /** The elements whose key is exactly `k`, in order. */
  function WithKey<T>(s: seq<T>, key: T -> real, k: real): seq<T> {
    if s == [] then []
    else (if key(s[0]) == k then [s[0]] else []) + WithKey(s[1..], key, k)
  }

  /** Puts `x` after every element whose key is at least its own. */
  function InsertDesc<T>(x: T, s: seq<T>, key: T -> real): seq<T> {
    if s == [] then [x]
    else if key(s[0]) >= key(x) then [s[0]] + InsertDesc(x, s[1..], key)
    else [x] + s
  }

  /**
   * `xs.sort(key=key, reverse=True)`: Python's sort is stable also in reverse, so elements
   * with equal keys keep their original relative order.
   */
  function SortDesc<T>(xs: seq<T>, key: T -> real): seq<T> {
    if xs == [] then [] else InsertDesc(xs[|xs| - 1], SortDesc(xs[..|xs| - 1], key), key)
  }

  lemma {:induction false} InsertDescPerm<T>(x: T, s: seq<T>, key: T -> real)
    ensures multiset(InsertDesc(x, s, key)) == multiset(s) + multiset{x}
  {
    if s != [] && key(s[0]) >= key(x) {
      InsertDescPerm(x, s[1..], key);
      assert s == [s[0]] + s[1..];
    }
  }

  /** A bound on every key of `s` and on `x` bounds every key after the insertion. */
  lemma {:induction false} InsertDescBound<T>(x: T, s: seq<T>, key: T -> real, b: real)
    requires key(x) <= b
    requires forall i :: 0 <= i < |s| ==> key(s[i]) <= b
    ensures forall i :: 0 <= i < |InsertDesc(x, s, key)| ==> key(InsertDesc(x, s, key)[i]) <= b
  {
    if s != [] && key(s[0]) >= key(x) {
      InsertDescBound(x, s[1..], key, b);
    }
  }

  lemma {:induction false} InsertDescSorted<T>(x: T, s: seq<T>, key: T -> real)
    requires SortedDesc(s, key)
    ensures SortedDesc(InsertDesc(x, s, key), key)
  {
    if s != [] {
      if key(s[0]) >= key(x) {
        var r := InsertDesc(x, s[1..], key);
        InsertDescSorted(x, s[1..], key);
        InsertDescBound(x, s[1..], key, key(s[0]));
        assert InsertDesc(x, s, key) == [s[0]] + r;
      } else {
        assert InsertDesc(x, s, key) == [x] + s;
      }
    }
  }

  /** Inserting `x` adds it after the elements of equal key and changes no other key class. */
  lemma {:induction false} InsertDescWithKey<T>(x: T, s: seq<T>, key: T -> real, k: real)
    requires SortedDesc(s, key)
    ensures WithKey(InsertDesc(x, s, key), key, k) == WithKey(s, key, k) + (if key(x) == k then [x] else [])
  {
    if s != [] {
      if key(s[0]) >= key(x) {
        InsertDescWithKey(x, s[1..], key, k);
        assert InsertDesc(x, s, key)[1..] == InsertDesc(x, s[1..], key);
      } else {
        assert InsertDesc(x, s, key)[1..] == s;
        if key(x) == k {
          WithKeyBelow(s, key, k);
        }
      }
    }
  }

  lemma {:induction false} WithKeyAppend<T>(a: seq<T>, b: seq<T>, key: T -> real, k: real)
    ensures WithKey(a + b, key, k) == WithKey(a, key, k) + WithKey(b, key, k)
  {
    if a != [] {
      WithKeyAppend(a[1..], b, key, k);
      assert (a + b)[1..] == a[1..] + b;
    } else {
      assert a + b == b;
    }
  }

  /** In a sorted sequence whose first key is below `k`, nothing has key `k`. */
  lemma {:induction false} WithKeyBelow<T>(s: seq<T>, key: T -> real, k: real)
    requires SortedDesc(s, key)
    requires s != [] ==> key(s[0]) < k
    ensures WithKey(s, key, k) == []
  {
    if s != [] {
      if |s| > 1 {
        assert key(s[1]) <= key(s[0]);
      }
      WithKeyBelow(s[1..], key, k);
    }
  }

  /**
   * The sort returns a permutation of its input, ordered by non-increasing key, and stable:
   * for every key the elements with that key appear in their input order.
   */
  lemma {:induction false} SortDescSpec<T>(xs: seq<T>, key: T -> real)
    ensures SortedDesc(SortDesc(xs, key), key)
    ensures multiset(SortDesc(xs, key)) == multiset(xs)
    ensures forall k :: WithKey(SortDesc(xs, key), key, k) == WithKey(xs, key, k)
  {
    if xs != [] {
      var init := xs[..|xs| - 1];
      var x := xs[|xs| - 1];
      SortDescSpec(init, key);
      InsertDescSorted(x, SortDesc(init, key), key);
      InsertDescPerm(x, SortDesc(init, key), key);
      assert xs == init + [x];
      forall k ensures WithKey(SortDesc(xs, key), key, k) == WithKey(xs, key, k) {
        InsertDescWithKey(x, SortDesc(init, key), key, k);
        WithKeyAppend(init, [x], key, k);
      }
    }
  }

  /** Length of Python's `xs[:k]` for an int `k`: a negative `k` counts from the end. */
  function PrefixLength(n: nat, k: int): (m: nat)
    ensures m <= n
    ensures k >= 0 ==> m == (if k < n then k else n)
    ensures k < 0 ==> m == (if n + k > 0 then n + k else 0)
  {
    if k >= 0 then (if k < n then k else n)
    else if n + k > 0 then n + k else 0
  }

  /** Python's `xs[:k]`. */
  function Prefix<T>(xs: seq<T>, k: int): seq<T> {
    xs[..PrefixLength(|xs|, k)]
  }

  /**
   * `xs[:k]` is the first k elements when there are that many and the whole list otherwise;
   * a negative k within the length cuts the last -k elements, and one beyond it leaves nothing.
   */
  lemma PrefixSpec<T>(xs: seq<T>, k: int)
    ensures 0 <= k <= |xs| ==> Prefix(xs, k) == xs[..k]
    ensures k >= |xs| ==> Prefix(xs, k) == xs
    ensures -|xs| <= k < 0 ==> Prefix(xs, k) + xs[|xs| + k..] == xs && |Prefix(xs, k)| == |xs| + k
    ensures k <= -|xs| ==> Prefix(xs, k) == []
  {
  }
}
