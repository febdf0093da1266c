/**
 * The two aggregates a filter publishes, over a window of samples: the
 * arithmetic mean (`sum(w) / len(w)`) and the median of the sorted copy
 * (`sorted(w)`). Samples are exact rationals rather than IEEE doubles.
 */
module Stats {

  /** Python's `sum`, adding left to right. */
  function Sum(s: seq<real>): real
  {
    if s == [] then 0.0 else Sum(s[..|s| - 1]) + s[|s| - 1]
  }

  function Min(s: seq<real>): (m: real)
    requires |s| > 0
    ensures m in s
    ensures forall x :: x in s ==> m <= x
  {
    if |s| == 1 then s[0]
    else
      var init := s[..|s| - 1];
      assert s == init + [s[|s| - 1]];
      var m' := Min(init);
      if s[|s| - 1] < m' then s[|s| - 1] else m'
  }

  function Max(s: seq<real>): (m: real)
    requires |s| > 0
    ensures m in s
    ensures forall x :: x in s ==> x <= m
  {
    if |s| == 1 then s[0]
    else
      var init := s[..|s| - 1];
      assert s == init + [s[|s| - 1]];
      var m' := Max(init);
      if s[|s| - 1] > m' then s[|s| - 1] else m'
  }

  /** A sum of samples that are all at least `lo` is at least `|s| * lo`. */
  lemma {:induction false} SumLowerBound(s: seq<real>, lo: real)
    requires forall x :: x in s ==> lo <= x
    ensures |s| as real * lo <= Sum(s)
  {
    if s != [] {
      var init, last := s[..|s| - 1], s[|s| - 1];
      assert s == init + [last];
      assert forall x :: x in init ==> x in s;
      SumLowerBound(init, lo);
      var n := |init| as real;
      calc {
        |s| as real * lo;
        (n + 1.0) * lo;
        n * lo + lo;
      <= { assert last in s; }
        Sum(init) + last;
        Sum(s);
      }
    }
  }

  /** A sum of samples that are all at most `hi` is at most `|s| * hi`. */
  lemma {:induction false} SumUpperBound(s: seq<real>, hi: real)
    requires forall x :: x in s ==> x <= hi
    ensures Sum(s) <= |s| as real * hi
  {
    if s != [] {
      var init, last := s[..|s| - 1], s[|s| - 1];
      assert s == init + [last];
      assert forall x :: x in init ==> x in s;
      SumUpperBound(init, hi);
      var n := |init| as real;
      calc {
        Sum(s);
        Sum(init) + last;
      <= { assert last in s; }
        n * hi + hi;
        (n + 1.0) * hi;
        |s| as real * hi;
      }
    }
  }

  lemma DivideBounds(total: real, n: real, lo: real, hi: real)
    requires n > 0.0 && n * lo <= total <= n * hi
    ensures lo <= total / n <= hi
  {
    assert total / n * n == total;
  }

  /** Mode 1 of a filter: the arithmetic mean, `sum(s) / len(s)`. */
  function Mean(s: seq<real>): (r: real)
    requires |s| > 0
    ensures r * |s| as real == Sum(s)
  {
    Sum(s) / |s| as real
  }

  /** The mean lies between the smallest and the largest sample. */
  lemma MeanBounds(s: seq<real>)
    requires |s| > 0
    ensures Min(s) <= Mean(s) <= Max(s)
  {
    MeanWithin(s, Min(s), Max(s));
  }

  /** The mean lies within any bounds of the samples. */
  lemma MeanWithin(s: seq<real>, lo: real, hi: real)
    requires |s| > 0
    requires forall x :: x in s ==> lo <= x <= hi
    ensures lo <= Mean(s) <= hi
  {
    SumLowerBound(s, lo);
    SumUpperBound(s, hi);
    DivideBounds(Sum(s), |s| as real, lo, hi);
  }

  predicate IsSorted(s: seq<real>)
  {
    forall i, j :: 0 <= i < j < |s| ==> s[i] <= s[j]
  }

  /** Inserts `x` into the sorted sequence `s`, before the first element not smaller than `x`. */
  function Insert(x: real, s: seq<real>): (r: seq<real>)
    requires IsSorted(s)
    ensures |r| == |s| + 1
    ensures IsSorted(r)
    ensures multiset(r) == multiset(s) + multiset{x}
  {
    if s == [] then [x]
    else if x <= s[0] then
      ConsSorted(x, s);
      [x] + s
    else
      var t := Insert(x, s[1..]);
      SortedSplit(s);
      LowerBound(s[0], x, s[1..], t);
      ConsSorted(s[0], t);
      [s[0]] + t
  }

  /** Putting a lower bound in front of an ascending sequence keeps it ascending. */
  lemma ConsSorted(y: real, t: seq<real>)
    requires IsSorted(t) && forall i :: 0 <= i < |t| ==> y <= t[i]
    ensures IsSorted([y] + t)
    ensures multiset([y] + t) == multiset{y} + multiset(t)
  {
  }

  /** A non-empty ascending sequence is its smallest element followed by an ascending rest. */
  lemma SortedSplit(s: seq<real>)
    requires IsSorted(s) && |s| > 0
    ensures multiset(s) == multiset{s[0]} + multiset(s[1..])
    ensures IsSorted(s[1..]) && forall y :: y in s[1..] ==> s[0] <= y
  {
    assert s == [s[0]] + s[1..];
  }

  /** Every element of a permutation of `s + [x]` is at least a common lower bound of `x` and `s`. */
  lemma LowerBound(lo: real, x: real, s: seq<real>, t: seq<real>)
    requires lo <= x && forall y :: y in s ==> lo <= y
    requires multiset(t) == multiset(s) + multiset{x}
    ensures forall i :: 0 <= i < |t| ==> lo <= t[i]
  {
    forall i | 0 <= i < |t| ensures lo <= t[i] {
      assert t[i] in multiset(t);
      assert t[i] == x || t[i] in multiset(s);
      assert t[i] == x || t[i] in s;
    }
  }

  /** Python's `sorted`: an ascending permutation of `s`. */
  function SortedCopy(s: seq<real>): (r: seq<real>)
    ensures |r| == |s|
    ensures IsSorted(r)
    ensures multiset(r) == multiset(s)
  {
    if s == [] then []
    else
      assert s == s[..|s| - 1] + [s[|s| - 1]];
      Insert(s[|s| - 1], SortedCopy(s[..|s| - 1]))
  }

  /**
   * Mode 2 of a filter: the middle element of the sorted window for an odd
   * count, the average of the two middle elements for an even count.
   */
  function Median(s: seq<real>): real
    requires |s| > 0
  {
    Middle(SortedCopy(s))
  }

  /** The middle of a sequence: one element for an odd count, the average of two for an even one. */
  function Middle(t: seq<real>): real
    requires |t| > 0
  {
    var mid := |t| / 2;
    if |t| % 2 == 0 then (t[mid - 1] + t[mid]) / 2.0 else t[mid]
  }

  /** The middle of a sequence lies within any bounds of its elements. */
  lemma MiddleBounds(t: seq<real>, lo: real, hi: real)
    requires |t| > 0
    requires forall i :: 0 <= i < |t| ==> lo <= t[i] <= hi
    ensures lo <= Middle(t) <= hi
  {
  }

  /** The median lies between the smallest and the largest sample. */
  lemma MedianBounds(s: seq<real>)
    requires |s| > 0
    ensures Min(s) <= Median(s) <= Max(s)
  {
    var t := SortedCopy(s);
    forall i | 0 <= i < |t|
      ensures Min(s) <= t[i] <= Max(s)
    {
      assert t[i] in multiset(t);
      assert t[i] in s;
    }
    MiddleBounds(t, Min(s), Max(s));
  }

  lemma MultisetRemoveAt(s: seq<real>, j: nat)
    requires j < |s|
    ensures multiset(s[..j] + s[j + 1..]) == multiset(s) - multiset{s[j]}
  {
    assert s == s[..j] + [s[j]] + s[j + 1..];
    assert multiset(s) == multiset(s[..j]) + multiset{s[j]} + multiset(s[j + 1..]);
  }

  /** The first element of an ascending sequence is its smallest. */
  lemma SortedHead(s: seq<real>, x: real)
    requires IsSorted(s) && x in s
    ensures s[0] <= x
  {
  }

  /** Two non-empty ascending permutations of each other start with the same sample. */
  lemma SortedSameHead(a: seq<real>, b: seq<real>)
    requires IsSorted(a) && IsSorted(b) && |a| > 0 && |b| > 0
    requires multiset(a) == multiset(b)
    ensures a[0] == b[0]
  {
    assert a[0] in multiset(b) && b[0] in multiset(a);
    SortedHead(b, a[0]);
    SortedHead(a, b[0]);
  }

  /** Removing the same first sample from two permutations of each other leaves permutations. */
  lemma TailPermutation(a: seq<real>, b: seq<real>)
    requires |a| > 0 && |b| > 0 && a[0] == b[0]
    requires multiset(a) == multiset(b)
    ensures multiset(a[1..]) == multiset(b[1..])
  {
    assert a == [a[0]] + a[1..];
    assert b == [b[0]] + b[1..];
    assert multiset(a) == multiset{a[0]} + multiset(a[1..]);
    assert multiset(b) == multiset{b[0]} + multiset(b[1..]);
    assert multiset(a[1..]) == multiset(a) - multiset{a[0]};
    assert multiset(b[1..]) == multiset(b) - multiset{b[0]};
  }

  lemma SortedTail(a: seq<real>)
    requires IsSorted(a) && |a| > 0
    ensures IsSorted(a[1..])
  {
  }

  /** Two ascending sequences holding the same samples are equal. */
  lemma {:induction false} SortedUnique(a: seq<real>, b: seq<real>)
    requires IsSorted(a) && IsSorted(b)
    requires multiset(a) == multiset(b)
    ensures a == b
  {
    assert |a| == |multiset(a)| == |b|;
    if a != [] {
      SortedSameHead(a, b);
      TailPermutation(a, b);
      SortedTail(a);
      SortedTail(b);
      SortedUnique(a[1..], b[1..]);
      assert a == [a[0]] + a[1..];
      assert b == [b[0]] + b[1..];
    }
  }

  lemma {:induction false} SumConcat(a: seq<real>, b: seq<real>)
    ensures Sum(a + b) == Sum(a) + Sum(b)
  {
    if b == [] {
      assert a + b == a;
    } else {
      var c := a + b;
      assert c[..|c| - 1] == a + b[..|b| - 1];
      assert c[|c| - 1] == b[|b| - 1];
      SumConcat(a, b[..|b| - 1]);
    }
  }

  lemma SumSingleton(x: real)
    ensures Sum([x]) == x
  {
    assert [x][..0] == [];
  }

  /** Taking one sample out of a window lowers its sum by that sample. */
  lemma SumRemove(b: seq<real>, j: nat)
    requires j < |b|
    ensures Sum(b) == Sum(b[..j] + b[j + 1..]) + b[j]
  {
    var pre, x, post := b[..j], b[j], b[j + 1..];
    assert b[j..] == [x] + post;
    assert b == pre + b[j..];
    SumConcat(pre, [x] + post);
    SumConcat([x], post);
    SumConcat(pre, post);
    SumSingleton(x);
  }

  /** The sum does not depend on the order of the samples. */
  lemma {:induction false} SumPermutation(a: seq<real>, b: seq<real>)
    requires multiset(a) == multiset(b)
    ensures Sum(a) == Sum(b)
  {
    assert |a| == |multiset(a)| == |b|;
    if a != [] {
      var n := |a| - 1;
      assert a[n] in multiset(b);
      var j :| 0 <= j < |b| && b[j] == a[n];
      MultisetRemoveAt(a, n);
      MultisetRemoveAt(b, j);
      assert a[..n] + a[n + 1..] == a[..n];
      SumPermutation(a[..n], b[..j] + b[j + 1..]);
      SumRemove(b, j);
    }
  }

  /** The mean of a window depends only on which samples it holds, not on their arrival order. */
  lemma MeanOrderIndependent(a: seq<real>, b: seq<real>)
    requires |a| > 0 && multiset(a) == multiset(b)
    ensures |b| > 0 && Mean(a) == Mean(b)
  {
    assert |a| == |multiset(a)| == |b|;
    SumPermutation(a, b);
  }

  /** The median of a window depends only on which samples it holds, not on their arrival order. */
  lemma MedianOrderIndependent(a: seq<real>, b: seq<real>)
    requires |a| > 0 && multiset(a) == multiset(b)
    ensures |b| > 0 && Median(a) == Median(b)
  {
    assert |a| == |multiset(a)| == |b|;
    var t := SortedCopy(a);
    SortedUnique(t, SortedCopy(b));
    assert Median(a) == Median(b);
  }
}
