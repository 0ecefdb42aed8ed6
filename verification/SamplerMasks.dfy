/**
 The in-place truncation passes of the sampler, proved against the masks of
 `Logits`: top-k by selection, top-p by a stable sort and a walk down the ranks.
 */
module SamplerMasks {
  import opened Sequences
  import opened Logits

  // ------------------------------------------------------------- ordering

  /** What a stable descending sort of the positions of `s` returns. */
  ghost predicate IsDescending(s: seq<Logit>, idx: seq<nat>) {
    && IsPermutation(idx, |s|)
    && (forall r, q :: 0 <= r < q < |s| ==> Ahead(s, idx[r], idx[q]))
  }

  /** What selecting the `m`-th largest position returns: any partition around it. */
  ghost predicate IsSelection(s: seq<Logit>, idx: seq<nat>, m: nat) {
    && m < |s|
    && IsPermutation(idx, |s|)
    && (forall r :: 0 <= r < m ==> !Less(s[idx[r]], s[idx[m]]))
    && (forall r :: m < r < |s| ==> !Less(s[idx[m]], s[idx[r]]))
  }

  ghost predicate SortedBelow(s: seq<Logit>, idx: seq<nat>, i: nat)
    requires i <= |s|
  {
    IsPermutation(idx, i) && forall r, q :: 0 <= r < q < i ==> Ahead(s, idx[r], idx[q])
  }

  /** Inserting the next position behind every score that is not smaller keeps the order. */
  method InsertAt(s: seq<Logit>, idx: seq<nat>, k: nat, i: nat) returns (next: seq<nat>)
    requires k <= i < |s| && SortedBelow(s, idx, i)
    requires forall r :: 0 <= r < k ==> !Less(s[idx[r]], s[i])
    requires k < i ==> Less(s[idx[k]], s[i])
    ensures SortedBelow(s, next, i + 1)
  {
    forall r | k <= r < i ensures Less(s[idx[r]], s[i]) {
      assert r == k || Ahead(s, idx[k], idx[r]);
    }
    next := idx[..k] + [i] + idx[k..];
    forall r, q | 0 <= r < q < i + 1 ensures Ahead(s, next[r], next[q]) {
      assert next[r] == if r < k then idx[r] else if r == k then i else idx[r - 1];
      assert next[q] == if q < k then idx[q] else if q == k then i else idx[q - 1];
    }
  }

  method StableSortDescending(s: seq<Logit>) returns (idx: seq<nat>)
    ensures IsDescending(s, idx)
  {
    idx := [];
    var i := 0;
    while i < |s|
      invariant 0 <= i <= |s|
      invariant SortedBelow(s, idx, i)
    {
      var k := 0;
      while k < i && !Less(s[idx[k]], s[i])
        invariant 0 <= k <= i
        invariant forall r :: 0 <= r < k ==> !Less(s[idx[r]], s[i])
      {
        k := k + 1;
      }
      idx := InsertAt(s, idx, k, i);
      i := i + 1;
    }
  }

  /** Callers see only the selection contract, not the order inside the two parts. */
  method SelectNth(s: seq<Logit>, m: nat) returns (idx: seq<nat>)
    requires m < |s|
    ensures IsSelection(s, idx, m)
  {
    idx := StableSortDescending(s);
    assert forall r :: 0 <= r < m ==> Ahead(s, idx[r], idx[m]);
    assert forall r :: m < r < |s| ==> Ahead(s, idx[m], idx[r]);
  }

  // ---------------------------------------------------------------- top-k

  /** Whatever partition the selection made, its pivot separates the same tokens. */
  lemma SelectionThreshold(s: seq<Logit>, idx: seq<nat>, k: nat, i: nat)
    requires 1 <= k <= |s| && i < |s|
    requires IsSelection(s, idx, k - 1)
    ensures Less(s[i], s[idx[k - 1]]) <==> |Larger(s, i)| >= k
  {
    if Less(s[i], s[idx[k - 1]]) {
      FrontIsLarger(s, idx, k, i);
    } else {
      LargerIsFront(s, idx, k, i);
    }
  }

  lemma FrontIsLarger(s: seq<Logit>, idx: seq<nat>, k: nat, i: nat)
    requires 1 <= k <= |s| && i < |s| && IsSelection(s, idx, k - 1) && Less(s[i], s[idx[k - 1]])
    ensures |Larger(s, i)| >= k
  {
    var front := idx[..k];
    DistinctElements(front);
    forall j | j in Elements(front) ensures j in Larger(s, i) {
      var r :| 0 <= r < k && front[r] == j;
      assert !Less(s[idx[r]], s[idx[k - 1]]);
    }
    FullSubset(Elements(front), Larger(s, i));
  }

  lemma LargerIsFront(s: seq<Logit>, idx: seq<nat>, k: nat, i: nat)
    requires 1 <= k <= |s| && i < |s| && IsSelection(s, idx, k - 1) && !Less(s[i], s[idx[k - 1]])
    ensures |Larger(s, i)| < k
  {
    var front := idx[..k - 1];
    DistinctElements(front);
    forall j | j in Larger(s, i) ensures j in Elements(front) {
      LargerInFront(s, idx, k, i, j);
    }
    FullSubset(Larger(s, i), Elements(front));
  }

  lemma LargerInFront(s: seq<Logit>, idx: seq<nat>, k: nat, i: nat, j: nat)
    requires 1 <= k <= |s| && i < |s| && j < |s| && IsSelection(s, idx, k - 1)
    requires !Less(s[i], s[idx[k - 1]]) && Less(s[i], s[j])
    ensures j in Elements(idx[..k - 1])
  {
    var r := PermutationFinds(idx, |s|, j);
    assert r < k - 1;
    InPrefix(idx, k - 1, r);
  }

  lemma PermutationFinds(idx: seq<nat>, n: nat, j: nat) returns (r: nat)
    requires IsPermutation(idx, n) && j < n
    ensures r < n && idx[r] == j
  {
    PermutationCovers(idx, n);
    assert j in Elements(idx);
    r :| 0 <= r < n && idx[r] == j;
  }

  lemma InPrefix(idx: seq<nat>, m: nat, r: nat)
    requires r < m <= |idx|
    ensures idx[r] in Elements(idx[..m])
  {
    assert idx[..m][r] == idx[r];
  }

  method MaskTopK(buf: array<Logit>, k: nat)
    requires 1 <= k <= buf.Length
    modifies buf
    ensures buf[..] == TopKMask(old(buf[..]), k)
  {
    ghost var s := buf[..];
    var idx := SelectNth(buf[..], k - 1);
    var threshold := buf[idx[k - 1]];
    forall i | 0 <= i < |s| ensures Less(s[i], threshold) <==> |Larger(s, i)| >= k {
      SelectionThreshold(s, idx, k, i);
    }
    var i := 0;
    while i < buf.Length
      invariant 0 <= i <= buf.Length
      invariant forall j :: 0 <= j < i ==> buf[j] == TopKMask(s, k)[j]
      invariant forall j :: i <= j < buf.Length ==> buf[j] == s[j]
    {
      if Less(buf[i], threshold) {
        buf[i] := NegInf;
      }
      i := i + 1;
    }
  }

  // ---------------------------------------------------------------- top-p

  lemma NotBehind(s: seq<Logit>, idx: seq<nat>, r: nat, q: nat)
    requires IsDescending(s, idx) && r < |s| && q < |s|
    requires Ahead(s, idx[q], idx[r])
    ensures q < r
  {
    var a, b := idx[r], idx[q];
    assert !Ahead(s, a, b);
  }

  /** The tokens ahead of the one at rank `r` are those at the lower ranks. */
  lemma PrefixIsAhead(s: seq<Logit>, idx: seq<nat>, r: nat)
    requires IsDescending(s, idx) && r < |s|
    ensures AheadOf(s, idx[r]) == Elements(idx[..r])
  {
    PermutationCovers(idx, |s|);
    var front := idx[..r];
    forall j | j in Elements(front) ensures j in AheadOf(s, idx[r]) {
      var q :| 0 <= q < r && idx[q] == j;
      assert Ahead(s, idx[q], idx[r]);
    }
    forall j | j in AheadOf(s, idx[r]) ensures j in Elements(front) {
      assert j in Elements(idx);
      var q :| 0 <= q < |s| && idx[q] == j;
      NotBehind(s, idx, r, q);
      assert front[q] == j;
    }
  }

  lemma HeadIsMaximum(s: seq<Logit>, idx: seq<nat>)
    requires IsDescending(s, idx) && |s| > 0
    ensures s[idx[0]] == Maximum(s)
  {
    PermutationCovers(idx, |s|);
    var t :| 0 <= t < |s| && s[t] == Maximum(s);
    assert t in Elements(idx);
    var r :| 0 <= r < |s| && idx[r] == t;
    assert r > 0 ==> Ahead(s, idx[0], idx[r]);
  }

  ghost function PrefixMass(s: seq<Logit>, idx: seq<nat>, exp: Exponential, c: nat): real
    requires c <= |idx|
  {
    SumIn(Weights(s, exp), Elements(idx[..c]))
  }

  lemma PrefixStep(s: seq<Logit>, idx: seq<nat>, exp: Exponential, r: nat)
    requires IsPermutation(idx, |s|) && r < |s|
    ensures PrefixMass(s, idx, exp, r + 1) == PrefixMass(s, idx, exp, r) + Weight(s[idx[r]], Maximum(s), exp)
  {
    ElementsStep(idx, r);
    assert idx[r] !in Elements(idx[..r]);
    SumInAdd(Weights(s, exp), Elements(idx[..r]), idx[r]);
  }

  lemma ElementsStep(idx: seq<nat>, r: nat)
    requires r < |idx|
    ensures Elements(idx[..r + 1]) == Elements(idx[..r]) + {idx[r]}
  {
    forall j | j in Elements(idx[..r]) + {idx[r]} ensures j in Elements(idx[..r + 1]) {
      if j == idx[r] {
        InPrefix(idx, r + 1, r);
      } else {
        var q :| 0 <= q < r && idx[..r][q] == j;
        InPrefix(idx, r + 1, q);
      }
    }
  }

  lemma PrefixStart(s: seq<Logit>, idx: seq<nat>, exp: Exponential)
    ensures PrefixMass(s, idx, exp, 0) == 0.0
  {
    assert Elements(idx[..0]) == {};
    EmptySum(Weights(s, exp));
  }

  lemma PositiveMember(w: seq<real>, chosen: set<nat>, t: nat)
    requires forall j :: 0 <= j < |w| ==> w[j] >= 0.0
    requires t < |w| && t in chosen && w[t] > 0.0
    ensures SumIn(w, chosen) > 0.0
  {
    SumInMono(w, {}, chosen - {t});
    SumInAdd(w, chosen - {t}, t);
    assert chosen - {t} + {t} == chosen;
  }

  lemma TotalPositive(s: seq<Logit>, exp: Exponential)
    requires |s| > 0 && Maximum(s).Fin?
    ensures Total(s, exp) > 0.0
  {
    var t :| 0 <= t < |s| && s[t] == Maximum(s);
    PositiveMember(Weights(s, exp), Indices(|s|), t);
  }

  /** `cutoff` is the least number of leading ranks that carries the mass `goal`, if any does. */
  ghost predicate IsCutoff(s: seq<Logit>, idx: seq<nat>, goal: real, exp: Exponential, cutoff: nat)
    requires |idx| == |s|
  {
    && cutoff <= |s|
    && (forall c :: 0 <= c < cutoff ==> PrefixMass(s, idx, exp, c) < goal)
    && (cutoff < |s| ==> PrefixMass(s, idx, exp, cutoff) >= goal)
  }

  lemma PrefixMonotone(s: seq<Logit>, idx: seq<nat>, exp: Exponential, a: nat, b: nat)
    requires a <= b <= |idx|
    ensures PrefixMass(s, idx, exp, a) <= PrefixMass(s, idx, exp, b)
  {
    assert Elements(idx[..a]) <= Elements(idx[..b]) by {
      forall j | j in Elements(idx[..a]) ensures j in Elements(idx[..b]) {
        var q :| 0 <= q < a && idx[..a][q] == j;
        assert idx[..b][q] == j;
      }
    }
    SumInMono(Weights(s, exp), Elements(idx[..a]), Elements(idx[..b]));
  }

  lemma CutoffIsNucleus(s: seq<Logit>, idx: seq<nat>, goal: real, exp: Exponential, cutoff: nat, r: nat)
    requires IsDescending(s, idx) && r < |s| && IsCutoff(s, idx, goal, exp, cutoff)
    ensures InNucleus(s, goal, exp, idx[r]) <==> r < cutoff
  {
    PrefixIsAhead(s, idx, r);
    assert InNucleus(s, goal, exp, idx[r]) <==> PrefixMass(s, idx, exp, r) < goal;
    if cutoff <= r {
      PrefixMonotone(s, idx, exp, cutoff, r);
    }
  }

  lemma SumNext(w: seq<real>, chosen: set<nat>, i: nat)
    requires i < |w|
    ensures SumIn(w[..i + 1], chosen) == SumIn(w[..i], chosen) + if i in chosen then w[i] else 0.0
  {
    assert w[..i + 1][..i] == w[..i];
  }

  method ExpSum(s: seq<Logit>, max: Logit, exp: Exponential) returns (total: real)
    requires |s| > 0 && max == Maximum(s)
    ensures total == Total(s, exp)
  {
    ghost var w := Weights(s, exp);
    ghost var all := Indices(|s|);
    total := 0.0;
    var i := 0;
    while i < |s|
      invariant 0 <= i <= |s|
      invariant total == SumIn(w[..i], all)
    {
      SumNext(w, all, i);
      total := total + Weight(s[i], max, exp);
      i := i + 1;
    }
    assert w[..i] == w;
  }

  lemma WalkStep(sum: real, weight: real, total: real, before: real, p: real)
    requires total > 0.0 && sum * total == before
    ensures (sum + weight / total) * total == before + weight
    ensures sum + weight / total >= p <==> before + weight >= p * total
  {
    var next := sum + weight / total;
    assert next * total == before + weight;
    assert next >= p <==> next * total >= p * total;
  }

  ghost function SumTo(w: seq<real>, c: nat): real
    requires c <= |w|
  {
    if c == 0 then 0.0 else SumTo(w, c - 1) + w[c - 1]
  }

  /** The weights in rank order, largest score first. */
  function Ranked(s: seq<Logit>, idx: seq<nat>, max: Logit, exp: Exponential): (w: seq<real>)
    requires IsPermutation(idx, |s|)
    ensures |w| == |s|
  {
    seq(|s|, r requires 0 <= r < |s| => Weight(s[idx[r]], max, exp))
  }

  lemma {:induction false} RankedMass(s: seq<Logit>, idx: seq<nat>, exp: Exponential, c: nat)
    requires IsPermutation(idx, |s|) && c <= |s| && |s| > 0
    ensures SumTo(Ranked(s, idx, Maximum(s), exp), c) == PrefixMass(s, idx, exp, c)
  {
    if c == 0 {
      PrefixStart(s, idx, exp);
    } else {
      RankedMass(s, idx, exp, c - 1);
      PrefixStep(s, idx, exp, c - 1);
    }
  }

  /** The walk down the sorted weights stops at the first rank whose mass reaches `p`. */
  method NucleusCutoff(w: seq<real>, total: real, p: real) returns (cutoff: nat)
    requires 0.0 < p && total > 0.0
    ensures FirstReaching(w, Share(p, total), cutoff)
  {
    ghost var goal := Share(p, total);
    var cumsum, rank := 0.0, 0;
    cutoff := |w|;
    while rank < |w|
      invariant 0 <= rank <= |w| && cutoff == |w|
      invariant cumsum * total == SumTo(w, rank)
      invariant forall c :: 0 <= c <= rank && c < |w| ==> SumTo(w, c) < goal
    {
      WalkStep(cumsum, w[rank], total, SumTo(w, rank), p);
      cumsum := cumsum + w[rank] / total;
      if cumsum >= p {
        cutoff := rank + 1;
        return;
      }
      rank := rank + 1;
    }
  }

  method RankOf(idx: seq<nat>, n: nat) returns (rank: array<nat>)
    requires IsPermutation(idx, n)
    ensures fresh(rank) && rank.Length == n
    ensures forall r :: 0 <= r < n ==> rank[idx[r]] == r
  {
    rank := new nat[n](_ => 0);
    for r := 0 to n
      invariant forall q :: 0 <= q < r ==> rank[idx[q]] == q
    {
      rank[idx[r]] := r;
    }
  }

  method CutRanks(buf: array<Logit>, rankOf: array<nat>, cutoff: nat)
    requires rankOf.Length == buf.Length
    modifies buf
    ensures forall j :: 0 <= j < buf.Length ==>
      buf[j] == if rankOf[j] >= cutoff then NegInf else old(buf[j])
  {
    for t := 0 to buf.Length
      invariant forall j :: 0 <= j < t ==> buf[j] == if rankOf[j] >= cutoff then NegInf else old(buf[j])
      invariant forall j :: t <= j < buf.Length ==> buf[j] == old(buf[j])
    {
      if rankOf[t] >= cutoff {
        buf[t] := NegInf;
      }
    }
  }

  /** Ranks of the tokens and the number of leading ranks that form the nucleus. */
  method NucleusRanks(s: seq<Logit>, idx: seq<nat>, max: Logit, p: real, exp: Exponential)
    returns (rankOf: array<nat>, cutoff: nat, ghost goal: real)
    requires IsDescending(s, idx) && |s| > 0 && 0.0 < p
    requires max == Maximum(s) && max.Fin?
    ensures fresh(rankOf) && rankOf.Length == |s| && goal == Share(p, Total(s, exp))
    ensures forall t :: 0 <= t < |s| ==> (InNucleus(s, goal, exp, t) <==> rankOf[t] < cutoff)
  {
    var total := ExpSum(s, max, exp);
    TotalPositive(s, exp);
    rankOf := RankOf(idx, |s|);
    var weights := Ranked(s, idx, max, exp);
    cutoff := NucleusCutoff(weights, total, p);
    goal := Share(p, total);
    ReachingIsCutoff(s, idx, goal, exp, cutoff);
    KeptByRank(s, idx, goal, exp, cutoff, rankOf[..]);
  }

  method MaskTopP(buf: array<Logit>, p: real, exp: Exponential)
    requires buf.Length > 0 && 0.0 < p
    modifies buf
    ensures buf[..] == NucleusMask(old(buf[..]), p, exp)
  {
    ghost var s := buf[..];
    var idx := StableSortDescending(buf[..]);
    HeadIsMaximum(s, idx);
    var max := buf[idx[0]];
    if !max.Fin? {
      // the sum of the exponentials is NaN: no comparison holds and nothing is masked
      return;
    }
    var rankOf, cutoff, goal := NucleusRanks(buf[..], idx, max, p, exp);
    CutRanks(buf, rankOf, cutoff);
    MaskByRank(s, p, exp, cutoff, rankOf[..], buf[..], goal);
  }

  ghost predicate FirstReaching(w: seq<real>, goal: real, cutoff: nat) {
    && cutoff <= |w|
    && (forall c :: 0 <= c < cutoff ==> SumTo(w, c) < goal)
    && (cutoff < |w| ==> SumTo(w, cutoff) >= goal)
  }

  lemma ReachingIsCutoff(s: seq<Logit>, idx: seq<nat>, goal: real, exp: Exponential, cutoff: nat)
    requires IsPermutation(idx, |s|) && |s| > 0
    requires FirstReaching(Ranked(s, idx, Maximum(s), exp), goal, cutoff)
    ensures IsCutoff(s, idx, goal, exp, cutoff)
  {
    var w := Ranked(s, idx, Maximum(s), exp);
    forall c | 0 <= c < cutoff ensures PrefixMass(s, idx, exp, c) < goal {
      RankedMass(s, idx, exp, c);
      assert SumTo(w, c) < goal;
    }
    RankedMass(s, idx, exp, cutoff);
  }

  lemma KeptByRank(s: seq<Logit>, idx: seq<nat>, goal: real, exp: Exponential, cutoff: nat, rankOf: seq<nat>)
    requires IsDescending(s, idx) && |rankOf| == |s| && IsCutoff(s, idx, goal, exp, cutoff)
    requires forall r :: 0 <= r < |s| ==> rankOf[idx[r]] == r
    ensures forall t :: 0 <= t < |s| ==> (InNucleus(s, goal, exp, t) <==> rankOf[t] < cutoff)
  {
    PermutationCovers(idx, |s|);
    forall t | 0 <= t < |s| ensures InNucleus(s, goal, exp, t) <==> rankOf[t] < cutoff {
      assert t in Elements(idx);
      var r :| 0 <= r < |s| && idx[r] == t;
      CutoffIsNucleus(s, idx, goal, exp, cutoff, r);
    }
  }

  lemma MaskByRank(s: seq<Logit>, p: real, exp: Exponential, cutoff: nat, rankOf: seq<nat>, masked: seq<Logit>, goal: real)
    requires |s| == |rankOf| == |masked| > 0 && Maximum(s).Fin? && goal == Share(p, Total(s, exp))
    requires forall t :: 0 <= t < |s| ==> (InNucleus(s, goal, exp, t) <==> rankOf[t] < cutoff)
    requires forall t :: 0 <= t < |s| ==> masked[t] == if rankOf[t] >= cutoff then NegInf else s[t]
    ensures masked == NucleusMask(s, p, exp)
  {
  }

  lemma {:induction false} EmptySum(w: seq<real>)
    ensures SumIn(w, {}) == 0.0
  {
    if w != [] { EmptySum(w[..|w|-1]); }
  }
}
