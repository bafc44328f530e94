/** The statistics the metrics trackers compute: `sum`, `statistics.mean`, `min`, `max`
    and `statistics.median` over sequences of reals. */
module Stats {

  function Sum(s: seq<real>): real
  {
    if s == [] then 0.0 else s[0] + Sum(s[1..])
  }

  /** The sum of a concatenation is the sum of its parts. */
  lemma {:induction false} SumAppend(a: seq<real>, b: seq<real>)
    ensures Sum(a + b) == Sum(a) + Sum(b)
  {
    if a == [] {
      assert a + b == b;
    } else {
      assert (a + b)[1..] == a[1..] + b;
      SumAppend(a[1..], b);
    }
  }

  /** `statistics.mean` (and `sum(data) / len(data)`) of a non-empty sequence. */
  function Mean(s: seq<real>): real
    requires |s| > 0
  {
    Sum(s) / |s| as real
  }

  /** The builtin `min` of a non-empty sequence. */
  function Min(s: seq<real>): (m: real)
    requires |s| > 0
    ensures m in s
    ensures forall x :: x in s ==> m <= x
  {
    if |s| == 1 then s[0]
    else
      var rest := Min(s[1..]);
      assert forall x :: x in s ==> x == s[0] || x in s[1..];
      if s[0] <= rest then s[0] else rest
  }

  /** The builtin `max` of a non-empty sequence. */
  function Max(s: seq<real>): (m: real)
    requires |s| > 0
    ensures m in s
    ensures forall x :: x in s ==> x <= m
  {
    if |s| == 1 then s[0]
    else
      var rest := Max(s[1..]);
      assert forall x :: x in s ==> x == s[0] || x in s[1..];
      if s[0] >= rest then s[0] else rest
  }

  /** Adding one value within [lo, hi] to a total of m such values keeps the bounds. */
  lemma BoundStep(m: real, x: real, total: real, lo: real, hi: real)
    requires m * lo <= total <= m * hi && lo <= x <= hi
    ensures (m + 1.0) * lo <= x + total <= (m + 1.0) * hi
  {
    assert (m + 1.0) * lo == m * lo + lo;
    assert (m + 1.0) * hi == m * hi + hi;
  }

  /** A sum lies between |s| times any lower bound and |s| times any upper bound. */
  lemma {:induction false} SumBetween(s: seq<real>, lo: real, hi: real)
    requires forall x :: x in s ==> lo <= x <= hi
    ensures |s| as real * lo <= Sum(s) <= |s| as real * hi
  {
    if s != [] {
      var rest := s[1..];
      assert forall x :: x in rest ==> x in s;
      assert s[0] in s;
      SumBetween(rest, lo, hi);
      var m := |rest| as real;
      BoundStep(m, s[0], Sum(rest), lo, hi);
      assert Sum(s) == s[0] + Sum(rest);
      assert |s| as real == m + 1.0;
      assert |s| as real * lo == (m + 1.0) * lo && |s| as real * hi == (m + 1.0) * hi;
    }
  }

  /** For a positive count n, c <= b / n exactly when n * c <= b, and likewise for >=. */
  lemma DivideBounds(b: real, n: real, c: real)
    requires n > 0.0
    ensures n * c <= b ==> c <= b / n
    ensures b <= n * c ==> b / n <= c
  {
    assert (b / n) * n == b;
  }

  /** Any bounds on the values bound their mean. */
  lemma MeanWithin(s: seq<real>, lo: real, hi: real)
    requires |s| > 0
    requires forall x :: x in s ==> lo <= x <= hi
    ensures lo <= Mean(s) <= hi
  {
    var n, total := |s| as real, Sum(s);
    SumBetween(s, lo, hi);
    DivideBounds(total, n, lo);
    DivideBounds(total, n, hi);
  }

  /** The mean lies between the minimum and the maximum. */
  lemma MeanBetween(s: seq<real>)
    requires |s| > 0
    ensures Min(s) <= Mean(s) <= Max(s)
  {
    MeanWithin(s, Min(s), Max(s));
  }

  predicate AllEqual(s: seq<real>, c: real)
  {
    forall i :: 0 <= i < |s| ==> s[i] == c
  }

  /** A window of equal values has that value as its mean, minimum and maximum. */
  lemma ConstantStats(s: seq<real>, c: real)
    requires |s| > 0 && AllEqual(s, c)
    ensures Mean(s) == c && Min(s) == c && Max(s) == c
  {
    assert forall x :: x in s ==> x == c;
    MeanBetween(s);
  }

  predicate Sorted(s: seq<real>)
  {
    forall i, j :: 0 <= i < j < |s| ==> s[i] <= s[j]
  }

  /** Places x before the first element that is not smaller than it. */
  function Insert(x: real, t: seq<real>): (r: seq<real>)
    ensures |r| == |t| + 1
  {
    if t == [] || x <= t[0] then [x] + t else [t[0]] + Insert(x, t[1..])
  }

  /** Inserting adds exactly x. */
  lemma {:induction false} InsertAdds(x: real, t: seq<real>)
    ensures multiset(Insert(x, t)) == multiset(t) + multiset{x}
  {
    if t != [] && x > t[0] {
      InsertAdds(x, t[1..]);
      assert t == [t[0]] + t[1..];
    }
  }

  /** A value no larger than any element of a sorted sequence can lead it. */
  lemma PrependSorted(h: real, rest: seq<real>)
    requires Sorted(rest)
    requires forall y :: y in rest ==> h <= y
    ensures Sorted([h] + rest)
  {
    var r := [h] + rest;
    forall i, j | 0 <= i < j < |r| ensures r[i] <= r[j] {
      assert r[j] == rest[j - 1];
      if i > 0 { assert r[i] == rest[i - 1]; }
      else { assert rest[j - 1] in rest; }
    }
  }

  /** Inserting a value above the head of a sorted sequence into its tail gives values no
      smaller than that head. */
  lemma InsertAboveHead(x: real, t: seq<real>)
    requires Sorted(t) && t != [] && x > t[0]
    ensures forall y :: y in Insert(x, t[1..]) ==> t[0] <= y
  {
    var tail := t[1..];
    InsertAdds(x, tail);
    forall y | y in Insert(x, tail) ensures t[0] <= y {
      assert y in multiset(Insert(x, tail));
      if y != x {
        assert y in multiset(tail);
        var k :| 0 <= k < |tail| && tail[k] == y;
        assert t[k + 1] == y;
      }
    }
  }

  /** Inserting into a sorted sequence keeps it sorted and adds exactly x. */
  lemma {:induction false} InsertSorted(x: real, t: seq<real>)
    requires Sorted(t)
    ensures Sorted(Insert(x, t))
    ensures multiset(Insert(x, t)) == multiset(t) + multiset{x}
  {
    InsertAdds(x, t);
    if t == [] || x <= t[0] {
      forall y | y in t ensures x <= y {
        var k :| 0 <= k < |t| && t[k] == y;
        assert t[0] <= t[k];
      }
      PrependSorted(x, t);
    } else {
      InsertSorted(x, t[1..]);
      InsertAboveHead(x, t);
      PrependSorted(t[0], Insert(x, t[1..]));
    }
  }

  /** The values in ascending order, as `statistics.median` sorts them (insertion sort). */
  function SortAscending(s: seq<real>): (r: seq<real>)
    ensures |r| == |s|
  {
    if s == [] then [] else Insert(s[0], SortAscending(s[1..]))
  }

  /** Sorting yields a sorted permutation of its input. */
  lemma {:induction false} SortAscendingSorts(s: seq<real>)
    ensures Sorted(SortAscending(s))
    ensures multiset(SortAscending(s)) == multiset(s)
  {
    if s != [] {
      SortAscendingSorts(s[1..]);
      InsertSorted(s[0], SortAscending(s[1..]));
      assert s == [s[0]] + s[1..];
    }
  }

  /** `statistics.median`: the middle value of the sorted data, or the mean of the two
      middle values when there is an even number of them. */
  function Median(s: seq<real>): real
    requires |s| > 0
  {
    var t := SortAscending(s);
    var n := |s|;
    if n % 2 == 1 then t[n / 2] else (t[n / 2 - 1] + t[n / 2]) / 2.0
  }

  /** Every sorted value lies between the minimum and the maximum of the data. */
  lemma SortedWithin(s: seq<real>)
    requires |s| > 0
    ensures forall i :: 0 <= i < |s| ==> Min(s) <= SortAscending(s)[i] <= Max(s)
  {
    var t := SortAscending(s);
    SortAscendingSorts(s);
    forall i | 0 <= i < |t| ensures Min(s) <= t[i] <= Max(s) {
      assert t[i] in multiset(t);
      assert t[i] in s;
    }
  }

  /** The median lies between the minimum and the maximum. */
  lemma MedianBetween(s: seq<real>)
    requires |s| > 0
    ensures Min(s) <= Median(s) <= Max(s)
  {
    var t, lo, hi, n := SortAscending(s), Min(s), Max(s), |s|;
    SortedWithin(s);
    if n % 2 == 0 {
      var a, b := t[n / 2 - 1], t[n / 2];
      assert lo <= a <= hi && lo <= b <= hi;
      assert lo <= (a + b) / 2.0 <= hi;
    } else {
      assert lo <= t[n / 2] <= hi;
    }
  }

  /** A window of equal values has that value as its median. */
  lemma ConstantMedian(s: seq<real>, c: real)
    requires |s| > 0 && AllEqual(s, c)
    ensures Median(s) == c
  {
    ConstantStats(s, c);
    MedianBetween(s);
  }
}
