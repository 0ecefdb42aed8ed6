/**
 Duration summaries: mean and interpolated percentiles of samples, over exact reals.
 */
module Percentile {
  import opened Options
  import opened RealOrder
  import CaptureWire

  // ---------------------------------------------------------------- sorting

  ghost predicate Sorted(s: seq<real>) {
    forall i, j :: 0 <= i < j < |s| ==> s[i] <= s[j]
  }

  /** Inserts a sample behind all that are not larger. */
  method Insert(s: seq<real>, x: real) returns (r: seq<real>)
    requires Sorted(s)
    ensures Sorted(r) && multiset(r) == multiset(s) + multiset{x}
  {
    var k := |s|;
    while k > 0 && s[k - 1] > x
      invariant 0 <= k <= |s| && forall i :: k <= i < |s| ==> s[i] > x
    {
      k := k - 1;
    }
    r := s[..k] + [x] + s[k..];
    Inserted(s, x, k);
  }

  lemma Inserted(s: seq<real>, x: real, k: nat)
    requires Sorted(s) && k <= |s|
    requires (forall i :: k <= i < |s| ==> s[i] > x) && (k > 0 ==> s[k - 1] <= x)
    ensures var r := s[..k] + [x] + s[k..]; Sorted(r) && multiset(r) == multiset(s) + multiset{x}
  {
    InsertedSorted(s, x, k);
    InsertedSame(s, x, k);
  }

  lemma InsertedSame(s: seq<real>, x: real, k: nat)
    requires k <= |s|
    ensures multiset(s[..k] + [x] + s[k..]) == multiset(s) + multiset{x}
  {
    assert s == s[..k] + s[k..];
  }

  lemma InsertedSorted(s: seq<real>, x: real, k: nat)
    requires Sorted(s) && k <= |s|
    requires (forall i :: k <= i < |s| ==> s[i] > x) && (k > 0 ==> s[k - 1] <= x)
    ensures Sorted(s[..k] + [x] + s[k..])
  {
    var r := s[..k] + [x] + s[k..];
    assert forall i :: 0 <= i < k ==> r[i] == s[i] <= x;
    assert r[k] == x;
    assert forall i :: k < i < |r| ==> r[i] == s[i - 1] > x;
  }

  method Sort(samples: seq<real>) returns (r: seq<real>)
    ensures Sorted(r) && multiset(r) == multiset(samples)
  {
    r := [];
    for i := 0 to |samples|
      invariant Sorted(r) && multiset(r) == multiset(samples[..i])
    {
      r := Insert(r, samples[i]);
      assert samples[..i + 1] == samples[..i] + [samples[i]];
    }
    assert samples[..|samples|] == samples;
  }

  ghost predicate Arranges(s: seq<real>, samples: seq<real>) { Sorted(s) && multiset(s) == multiset(samples) }

  /** There is only one sorted arrangement of the same samples. */
  lemma {:induction false} SortedUnique(a: seq<real>, b: seq<real>)
    requires Sorted(a) && Sorted(b) && multiset(a) == multiset(b)
    ensures a == b
    decreases |a|
  {
    SameSize(a, b);
    if a != [] {
      HeadLeast(a, b);
      HeadLeast(b, a);
      assert a == [a[0]] + a[1..] && b == [b[0]] + b[1..];
      assert multiset(a[1..]) == multiset(a) - multiset{a[0]};
      assert multiset(b[1..]) == multiset(b) - multiset{b[0]};
      SortedUnique(a[1..], b[1..]);
    }
  }

  lemma SameSize(a: seq<real>, b: seq<real>)
    requires multiset(a) == multiset(b)
    ensures |a| == |b|
  {
    assert |multiset(a)| == |a| && |multiset(b)| == |b|;
  }

  lemma HeadLeast(a: seq<real>, b: seq<real>)
    requires Sorted(a) && a != [] && b != [] && multiset(a) == multiset(b)
    ensures a[0] <= b[0]
  {
    assert b[0] in multiset(a);
    var i :| 0 <= i < |a| && a[i] == b[0];
  }

  // ------------------------------------------------------------ percentiles

  function Ceiling(x: real): int { if x == x.Floor as real then x.Floor else x.Floor + 1 }

  /** Linear interpolation between the two samples next to a fractional position. */
  function At(s: seq<real>, index: real): real
    requires s != [] && 0.0 <= index <= (|s| - 1) as real
  {
    var lower, upper := index.Floor, Ceiling(index);
    s[lower] + Product(s[upper] - s[lower], index - lower as real)
  }

  function Position(n: nat, quantile: real): (x: real)
    requires n > 0 && 0.0 <= quantile <= 1.0
    ensures 0.0 <= x <= (n - 1) as real
  {
    var last := (n - 1) as real;
    ScaleOrder(0.0, quantile, last);
    ScaleOrder(quantile, 1.0, last);
    Product(quantile, last)
  }

  function LinearPercentile(s: seq<real>, quantile: real): real
    requires s != [] && 0.0 <= quantile <= 1.0
  {
    At(s, Position(|s|, quantile))
  }

  lemma Between(a: real, b: real, t: real)
    requires a <= b && 0.0 <= t <= 1.0
    ensures a <= a + Product(b - a, t) <= b
  {
    ScaleOrder(0.0, t, b - a);
    ScaleOrder(t, 1.0, b - a);
    assert Product(t, b - a) == Product(b - a, t);
  }

  lemma SegmentOrder(a: real, b: real, t: real, u: real)
    requires a <= b && t <= u
    ensures a + Product(b - a, t) <= a + Product(b - a, u)
  {
    ScaleOrder(t, u, b - a);
    assert Product(t, b - a) == Product(b - a, t) && Product(u, b - a) == Product(b - a, u);
  }

  /** The value at a position lies between its neighbours. */
  lemma AtBetween(s: seq<real>, index: real)
    requires s != [] && Sorted(s) && 0.0 <= index <= (|s| - 1) as real
    ensures s[index.Floor] <= At(s, index) <= s[Ceiling(index)]
  {
    var lower, upper := index.Floor, Ceiling(index);
    assert s[lower] <= s[upper];
    Between(s[lower], s[upper], index - lower as real);
  }

  /** The interpolation is monotone along the sorted samples. */
  lemma AtMonotone(s: seq<real>, x: real, y: real)
    requires s != [] && Sorted(s) && 0.0 <= x <= y <= (|s| - 1) as real
    ensures At(s, x) <= At(s, y)
  {
    AtBetween(s, x);
    AtBetween(s, y);
    if x.Floor < y.Floor {
      assert Ceiling(x) <= y.Floor;
      assert s[Ceiling(x)] <= s[y.Floor];
    } else if x != x.Floor as real {
      SegmentOrder(s[x.Floor], s[Ceiling(x)], x - x.Floor as real, y - y.Floor as real);
    }
  }

  lemma PercentileMonotone(s: seq<real>, p: real, q: real)
    requires s != [] && Sorted(s) && 0.0 <= p <= q <= 1.0
    ensures LinearPercentile(s, p) <= LinearPercentile(s, q)
  {
    ScaleOrder(p, q, (|s| - 1) as real);
    AtMonotone(s, Position(|s|, p), Position(|s|, q));
  }

  lemma PercentileBounded(s: seq<real>, quantile: real)
    requires s != [] && Sorted(s) && 0.0 <= quantile <= 1.0
    ensures s[0] <= LinearPercentile(s, quantile) <= s[|s| - 1]
  {
    var index := Position(|s|, quantile);
    AtBetween(s, index);
    assert s[0] <= s[index.Floor] && s[Ceiling(index)] <= s[|s| - 1];
  }

  // ----------------------------------------------------------------- median

  function MedianOf(s: seq<real>): real
    requires s != []
  {
    var middle := |s| / 2;
    if |s| % 2 == 0 then (s[middle - 1] + s[middle]) / 2.0 else s[middle]
  }

  /** The percentile at one half is the median, for odd and even sample counts. */
  lemma HalfIsMedian(s: seq<real>)
    requires s != []
    ensures LinearPercentile(s, 0.5) == MedianOf(s)
  {
    var n := |s|;
    var index := Position(n, 0.5);
    if n % 2 == 1 {
      assert index == (n / 2) as real;
    } else {
      assert index == (n / 2 - 1) as real + 0.5;
      assert index.Floor == n / 2 - 1 && Ceiling(index) == n / 2;
    }
  }

  function Reals(values: seq<CaptureWire.Value>): seq<real>
    requires CaptureWire.AllFinite(values)
  {
    seq(|values|, i requires 0 <= i < |values| => values[i].value)
  }

  /** The headline median needs at least one value and only finite ones. */
  method Median(values: seq<CaptureWire.Value>) returns (r: Option<real>, ghost s: seq<real>)
    ensures r.Some? <==> values != [] && CaptureWire.AllFinite(values)
    ensures r.Some? ==> s != [] && Arranges(s, Reals(values)) && r.value == MedianOf(s)
  {
    s := [];
    if values == [] || !CaptureWire.AllFinite(values) {
      return None, [];
    }
    var sorted := Sort(Reals(values));
    SameSize(sorted, Reals(values));
    return Some(MedianOf(sorted)), sorted;
  }

  // ---------------------------------------------------------------- summary

  datatype Summary = Summary(samples: seq<nat>, mean: real, p50: real, p95: real)

  function Sum(s: seq<real>): real { if s == [] then 0.0 else Sum(s[..|s| - 1]) + s[|s| - 1] }

  function AsReals(samples: seq<nat>): seq<real> {
    seq(|samples|, i requires 0 <= i < |samples| => samples[i] as real)
  }

  ghost function Summarized(samples: seq<nat>, s: seq<real>): Summary
    requires s != []
  {
    Summary(samples, Sum(s) / |s| as real, LinearPercentile(s, 0.5), LinearPercentile(s, 0.95))
  }

  /** The mean and the percentiles of the sorted samples. */
  method SummarizeDurations(samples: seq<nat>) returns (r: Option<Summary>, ghost s: seq<real>)
    ensures r.None? <==> samples == []
    ensures r.Some? ==> s != [] && Arranges(s, AsReals(samples)) && r.value == Summarized(samples, s)
  {
    s := [];
    if samples == [] {
      return None, [];
    }
    var sorted := Sort(AsReals(samples));
    SameSize(sorted, AsReals(samples));
    var total := 0.0;
    for i := 0 to |sorted|
      invariant total == Sum(sorted[..i])
    {
      assert sorted[..i + 1][..i] == sorted[..i];
      total := total + sorted[i];
    }
    assert sorted[..|sorted|] == sorted;
    var n := |sorted| as real;
    return Some(Summary(samples, total / n, LinearPercentile(sorted, 0.5), LinearPercentile(sorted, 0.95))), sorted;
  }

  lemma TakeOut(b: seq<nat>, k: nat)
    requires k < |b|
    ensures multiset(b) == multiset(b[..k] + b[k + 1..]) + multiset{b[k]}
    ensures multiset(AsReals(b)) == multiset(AsReals(b[..k] + b[k + 1..])) + multiset{b[k] as real}
  {
    assert b == b[..k] + [b[k]] + b[k + 1..];
    assert AsReals(b) == AsReals(b[..k]) + [b[k] as real] + AsReals(b[k + 1..]);
    assert AsReals(b[..k] + b[k + 1..]) == AsReals(b[..k]) + AsReals(b[k + 1..]);
  }

  lemma {:induction false} SameReals(a: seq<nat>, b: seq<nat>)
    requires multiset(a) == multiset(b)
    ensures multiset(AsReals(a)) == multiset(AsReals(b))
    decreases |a|
  {
    assert |multiset(a)| == |a| && |multiset(b)| == |b|;
    if a != [] {
      assert a[0] in multiset(b);
      var k :| 0 <= k < |b| && b[k] == a[0];
      TakeOut(a, 0);
      TakeOut(b, k);
      var x, y := a[..0] + a[1..], b[..k] + b[k + 1..];
      assert multiset(x) == multiset(a) - multiset{a[0]};
      assert multiset(y) == multiset(b) - multiset{b[k]};
      SameReals(x, y);
    }
  }

  /** Two arrival orders of the same samples have the same figures, and these are ordered. */
  lemma SummaryIndependent(a: seq<nat>, b: seq<nat>, s: seq<real>, t: seq<real>)
    requires multiset(a) == multiset(b) && s != [] && t != []
    requires Arranges(s, AsReals(a)) && Arranges(t, AsReals(b))
    ensures Summarized(a, s) == Summarized(b, t).(samples := a)
    ensures s[0] <= Summarized(a, s).p50 <= Summarized(a, s).p95 <= s[|s| - 1]
    ensures Summarized(a, s).p50 == MedianOf(s)
  {
    SameReals(a, b);
    SortedUnique(s, t);
    PercentileBounded(s, 0.5);
    PercentileBounded(s, 0.95);
    PercentileMonotone(s, 0.5, 0.95);
    HalfIsMedian(s);
  }
}
