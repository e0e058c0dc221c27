/**
 * The array operations the JavaScript code leans on: `filter`, numeric `reduce` sums and
 * `Math.round` of a mean.
 */
module Lists {

  /** `xs.filter(p)`: the elements satisfying `p`, in their original order. */
  function Filter<T>(xs: seq<T>, p: T -> bool): (r: seq<T>)
    ensures |r| <= |xs|
  {
    if xs == [] then [] else (if p(xs[0]) then [xs[0]] else []) + Filter(xs[1..], p)
  }

  /** The filter keeps exactly the elements of `xs` that satisfy `p`. */
  lemma {:induction false} FilterKeeps<T>(xs: seq<T>, p: T -> bool)
    ensures forall x :: x in Filter(xs, p) <==> x in xs && p(x)
  {
    if xs != [] {
      FilterKeeps(xs[1..], p);
      assert xs == [xs[0]] + xs[1..];
    }
  }

  /** Every element of the result satisfies `p`, stated by position. */
  lemma FilterSatisfies<T>(xs: seq<T>, p: T -> bool)
    ensures forall k :: 0 <= k < |Filter(xs, p)| ==> p(Filter(xs, p)[k]) && Filter(xs, p)[k] in xs
  {
    FilterKeeps(xs, p);
  }

  /** A filter that no element passes leaves nothing. */
  lemma {:induction false} FilterNone<T>(xs: seq<T>, p: T -> bool)
    requires forall x :: x in xs ==> !p(x)
    ensures Filter(xs, p) == []
  {
    if xs != [] {
      FilterNone(xs[1..], p);
    }
  }

  /** A filter that every element passes changes nothing. */
  lemma {:induction false} FilterAll<T>(xs: seq<T>, p: T -> bool)
    requires forall i :: 0 <= i < |xs| ==> p(xs[i])
    ensures Filter(xs, p) == xs
  {
    if xs != [] {
      FilterAll(xs[1..], p);
    }
  }

  /** Filtering a concatenation filters the parts and keeps them in order. */
  lemma {:induction false} FilterAppend<T>(a: seq<T>, b: seq<T>, p: T -> bool)
    ensures Filter(a + b, p) == Filter(a, p) + Filter(b, p)
  {
    if a == [] {
      assert a + b == b;
    } else {
      var head := if p(a[0]) then [a[0]] else [];
      assert (a + b)[0] == a[0] && (a + b)[1..] == a[1..] + b;
      assert Filter(a + b, p) == head + Filter(a[1..] + b, p);
      FilterAppend(a[1..], b, p);
      assert Filter(a, p) == head + Filter(a[1..], p);
    }
  }

  /** The kept elements form a sub-multiset of the input. */
  lemma {:induction false} FilterSubMultiset<T>(xs: seq<T>, p: T -> bool)
    ensures multiset(Filter(xs, p)) <= multiset(xs)
  {
    if xs != [] {
      FilterSubMultiset(xs[1..], p);
      assert xs == [xs[0]] + xs[1..];
    }
  }

  /** `xs.reduce((acc, x) => acc + f(x), 0)` over integers. */
  function SumInt<T>(xs: seq<T>, f: T -> int): int {
    if xs == [] then 0 else SumInt(xs[..|xs| - 1], f) + f(xs[|xs| - 1])
  }

  /** The same over real numbers. */
  function SumReal<T>(xs: seq<T>, f: T -> real): real {
    if xs == [] then 0.0 else SumReal(xs[..|xs| - 1], f) + f(xs[|xs| - 1])
  }

  /** Bounds on every term bound the sum. */
  lemma {:induction false} SumRealBounds<T>(xs: seq<T>, f: T -> real, lo: real, hi: real)
    requires forall i :: 0 <= i < |xs| ==> lo <= f(xs[i]) <= hi
    ensures |xs| as real * lo <= SumReal(xs, f) <= |xs| as real * hi
  {
    if xs != [] {
      SumRealBounds(xs[..|xs| - 1], f, lo, hi);
    }
  }

  /** A sum of non-negative integer terms each bounded by a second function is bounded by that function's sum. */
  lemma {:induction false} SumIntMonotone<T>(xs: seq<T>, f: T -> int, g: T -> int)
    requires forall i :: 0 <= i < |xs| ==> 0 <= f(xs[i]) <= g(xs[i])
    ensures 0 <= SumInt(xs, f) <= SumInt(xs, g)
  {
    if xs != [] {
      SumIntMonotone(xs[..|xs| - 1], f, g);
    }
  }

  /** `Math.round(x)`: the nearest integer, halves rounded up. */
  function Round(x: real): (r: int)
    ensures x - 0.5 < r as real <= x + 0.5
  {
    (x + 0.5).Floor
  }

  /** Rounding keeps integer bounds. */
  lemma RoundWithin(x: real, lo: int, hi: int)
    requires lo as real <= x <= hi as real
    ensures lo <= Round(x) <= hi
  {
  }

  /** `Math.round(sum / count)` of the terms, and 0 for no terms. */
  function RoundedMean<T>(xs: seq<T>, f: T -> real): int {
    if |xs| > 0 then Round(SumReal(xs, f) / |xs| as real) else 0
  }

  /** The rounded mean of terms that lie between two integers lies between them too. */
  lemma RoundedMeanWithin<T>(xs: seq<T>, f: T -> real, lo: int, hi: int)
    requires xs != []
    requires forall i :: 0 <= i < |xs| ==> lo as real <= f(xs[i]) <= hi as real
    ensures lo <= RoundedMean(xs, f) <= hi
  {
    SumRealBounds(xs, f, lo as real, hi as real);
    var n := |xs| as real;
    QuotientBounds(SumReal(xs, f), n, lo as real, hi as real);
    RoundWithin(SumReal(xs, f) / n, lo, hi);
  }

  /** A quotient by a positive count of a sum between count * lo and count * hi lies between lo and hi. */
  lemma QuotientBounds(s: real, n: real, lo: real, hi: real)
    requires n > 0.0 && n * lo <= s <= n * hi
    ensures lo <= s / n <= hi
  {
    assert s / n - lo == (s - n * lo) / n;
    assert hi - s / n == (n * hi - s) / n;
  }
}
