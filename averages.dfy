/** Exact arithmetic means, standing in for numpy.mean in pacbio_err.py.
    numpy averages IEEE-754 doubles; here the sum and the division are exact
    over the reals. The mean of an empty sequence is not defined here: numpy
    gives NaN for it, and the callers model that case themselves. */
module Averages {

  /** Sum of the elements, left to right. */
  function Sum(s: seq<real>): real {
    if |s| == 0 then 0.0 else s[0] + Sum(s[1..])
  }

  /** Arithmetic mean of a non-empty sequence: it lies between the smallest
      and the largest element. */
  function Mean(s: seq<real>): (m: real)
    requires |s| > 0
    ensures Min(s) <= m <= Max(s)
  {
    SumBounds(s, Min(s), Max(s));
    QuotientBounds(Sum(s), |s| as real, Min(s), Max(s));
    Sum(s) / (|s| as real)
  }

  /** Dividing by a positive count keeps a value within the scaled bounds. */
  lemma QuotientBounds(t: real, n: real, lo: real, hi: real)
    requires n > 0.0 && n * lo <= t <= n * hi
    ensures lo <= t / n <= hi
  {
    assert t / n * n == t;
  }

  /** Smallest element. */
  function Min(s: seq<real>): (m: real)
    requires |s| > 0
    ensures m in s
    ensures forall i :: 0 <= i < |s| ==> m <= s[i]
  {
    if |s| == 1 then s[0]
    else
      var rest := Min(s[1..]);
      if s[0] <= rest then s[0] else rest
  }

  /** Largest element. */
  function Max(s: seq<real>): (m: real)
    requires |s| > 0
    ensures m in s
    ensures forall i :: 0 <= i < |s| ==> s[i] <= m
  {
    if |s| == 1 then s[0]
    else
      var rest := Max(s[1..]);
      if s[0] >= rest then s[0] else rest
  }

  /** The sum of a concatenation is the sum of the parts. */
  lemma {:induction false} SumAppend(a: seq<real>, b: seq<real>)
    ensures Sum(a + b) == Sum(a) + Sum(b)
  {
    if |a| > 0 {
      assert (a + b)[1..] == a[1..] + b;
      SumAppend(a[1..], b);
    } else {
      assert a + b == b;
    }
  }

  /** Taking one element out of a sequence takes its value out of the sum. */
  lemma SumRemove(s: seq<real>, i: nat)
    requires i < |s|
    ensures Sum(s) == s[i] + Sum(s[..i] + s[i + 1..])
  {
    var tail := [s[i]] + s[i + 1..];
    assert s == s[..i] + tail;
    assert tail[1..] == s[i + 1..];
    SumAppend(s[..i], tail);
    SumAppend(s[..i], s[i + 1..]);
  }

  /** Leaving element i out of a sequence leaves one copy of it out of the
      multiset. */
  lemma MultisetRemove<T>(s: seq<T>, i: nat)
    requires i < |s|
    ensures multiset(s) == multiset(s[..i] + s[i + 1..]) + multiset{s[i]}
  {
    assert s == s[..i] + [s[i]] + s[i + 1..];
  }

  /** Multisets that agree after adding the same element agree before it. */
  lemma MultisetCancel<T>(p: multiset<T>, q: multiset<T>, x: T)
    requires p + multiset{x} == q + multiset{x}
    ensures p == q
  {
    assert p == (p + multiset{x}) - multiset{x};
    assert q == (q + multiset{x}) - multiset{x};
  }

  /** Leaving the first element out of a sequence leaves its tail. */
  lemma MultisetRemoveFirst<T>(s: seq<T>)
    requires |s| > 0
    ensures multiset(s) == multiset(s[1..]) + multiset{s[0]}
  {
    MultisetRemove(s, 0);
    assert s[..0] + s[1..] == s[1..];
  }

  /** Reordering the elements does not change the sum. */
  lemma {:induction false} SumPermutation(a: seq<real>, b: seq<real>)
    requires multiset(a) == multiset(b)
    ensures Sum(a) == Sum(b)
    decreases |a|
  {
    if |a| > 0 {
      var i :| 0 <= i < |b| && b[i] == a[0] by {
        assert a[0] in multiset(b);
      }
      var rest := b[..i] + b[i + 1..];
      MultisetRemove(b, i);
      MultisetRemoveFirst(a);
      MultisetCancel(multiset(a[1..]), multiset(rest), a[0]);
      SumPermutation(a[1..], rest);
      SumRemove(b, i);
    } else {
      assert |b| == |multiset(b)| == 0;
    }
  }

  /** Elements within [lo, hi] give a sum within [n * lo, n * hi]. */
  lemma {:induction false} SumBounds(s: seq<real>, lo: real, hi: real)
    requires forall i :: 0 <= i < |s| ==> lo <= s[i] <= hi
    ensures (|s| as real) * lo <= Sum(s) <= (|s| as real) * hi
  {
    if |s| > 0 {
      SumBounds(s[1..], lo, hi);
    }
  }

  /** Elements strictly above lo give a sum strictly above n * lo. */
  lemma {:induction false} SumAbove(s: seq<real>, lo: real)
    requires |s| > 0
    requires forall i :: 0 <= i < |s| ==> lo < s[i]
    ensures (|s| as real) * lo < Sum(s)
  {
    if |s| > 1 {
      SumAbove(s[1..], lo);
    }
  }

  /** The mean lies between any lower and upper bound of the elements. */
  lemma MeanBounds(s: seq<real>, lo: real, hi: real)
    requires |s| > 0
    requires forall i :: 0 <= i < |s| ==> lo <= s[i] <= hi
    ensures lo <= Mean(s) <= hi
  {
    SumBounds(s, lo, hi);
  }

  /** The mean lies strictly above any strict lower bound of the elements. */
  lemma MeanAbove(s: seq<real>, lo: real)
    requires |s| > 0
    requires forall i :: 0 <= i < |s| ==> lo < s[i]
    ensures lo < Mean(s)
  {
    SumAbove(s, lo);
  }

  /** Elements in (0, 1] have a mean in (0, 1]. */
  lemma MeanInUnitInterval(s: seq<real>)
    requires |s| > 0
    requires forall i :: 0 <= i < |s| ==> 0.0 < s[i] <= 1.0
    ensures 0.0 < Mean(s) <= 1.0
  {
    MeanBounds(s, 0.0, 1.0);
    MeanAbove(s, 0.0);
  }

  /** A sequence of copies of one value has that value as its mean. */
  lemma MeanConstant(s: seq<real>, x: real)
    requires |s| > 0
    requires forall i :: 0 <= i < |s| ==> s[i] == x
    ensures Mean(s) == x
  {
    MeanBounds(s, x, x);
  }

  /** A single value is its own mean. */
  lemma MeanSingleton(x: real)
    ensures Mean([x]) == x
  {
    assert [x][1..] == [];
    assert Sum([x]) == x + Sum([]);
  }

  /** Reordering the elements does not change the mean. */
  lemma MeanPermutation(a: seq<real>, b: seq<real>)
    requires |a| > 0
    requires multiset(a) == multiset(b)
    ensures |b| == |a| && Mean(a) == Mean(b)
  {
    assert |a| == |multiset(a)| == |multiset(b)| == |b|;
    SumPermutation(a, b);
  }
}
