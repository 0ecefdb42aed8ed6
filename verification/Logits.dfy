/**
 Rows of scores, the masks that truncate them, and the order-theoretic facts
 the sampler relies on.  A score is a real number or an infinity.

 The masks are defined without any algorithm: top-k by counting strictly larger
 scores, top-p by the probability mass that lies ahead of a token.
 */
module Logits {
  import opened Sequences

  datatype Logit = NegInf | Fin(value: real) | PosInf

  /** The exponential function, of which only positivity is used. */
  type Exponential = real -> Positive
  type Positive = x: real | x > 0.0 witness 1.0

  predicate Less(a: Logit, b: Logit) {
    (a.NegInf? && !b.NegInf?) || (!a.PosInf? && b.PosInf?) || (a.Fin? && b.Fin? && a.value < b.value)
  }

  /** `j` precedes `t` in a stable sort by descending score. */
  predicate Ahead(s: seq<Logit>, j: nat, t: nat)
    requires j < |s| && t < |s|
  {
    Less(s[t], s[j]) || (!Less(s[j], s[t]) && j < t)
  }

  /** The lowest index holding a largest score. */
  ghost predicate IsFirstMax(s: seq<Logit>, i: nat) {
    && i < |s|
    && (forall j :: 0 <= j < |s| ==> !Less(s[i], s[j]))
    && (forall j :: 0 <= j < i ==> Less(s[j], s[i]))
  }

  lemma FirstMaxUnique(s: seq<Logit>, i: nat, j: nat)
    requires IsFirstMax(s, i) && IsFirstMax(s, j)
    ensures i == j
  {
    var a, b := s[i], s[j];
    assert !Less(a, b) && !Less(b, a);
  }

  function Maximum(s: seq<Logit>): (m: Logit)
    requires |s| > 0
    ensures m in s
    ensures forall j :: 0 <= j < |s| ==> !Less(m, s[j])
  {
    if |s| == 1 then s[0]
    else
      var m := Maximum(s[..|s|-1]);
      assert m in s;
      if Less(m, s[|s|-1]) then s[|s|-1] else m
  }

  // ---------------------------------------------------------------- top-k

  ghost function Larger(s: seq<Logit>, i: nat): set<nat>
    requires i < |s|
  {
    set j: nat | j < |s| && Less(s[i], s[j])
  }

  /** Keep a score exactly when fewer than `k` scores are strictly larger. */
  ghost function TopKMask(s: seq<Logit>, k: nat): seq<Logit> {
    seq(|s|, i requires 0 <= i < |s| => if |Larger(s, i)| < k then s[i] else NegInf)
  }

  // ---------------------------------------------------------------- top-p

  ghost function SumIn(w: seq<real>, chosen: set<nat>): real {
    if w == [] then 0.0
    else SumIn(w[..|w|-1], chosen) + if |w| - 1 in chosen then w[|w|-1] else 0.0
  }

  ghost function Indices(n: nat): (r: set<nat>)
    ensures |r| == n
    ensures forall j: nat :: j in r <==> j < n
  {
    if n == 0 then {} else Indices(n - 1) + {n - 1}
  }

  function Weight(l: Logit, top: Logit, exp: Exponential): real {
    if l.Fin? && top.Fin? then exp(l.value - top.value) else 0.0
  }

  ghost function Weights(s: seq<Logit>, exp: Exponential): seq<real> {
    seq(|s|, j requires 0 <= j < |s| => Weight(s[j], Maximum(s), exp))
  }

  ghost function Total(s: seq<Logit>, exp: Exponential): real {
    SumIn(Weights(s, exp), Indices(|s|))
  }

  /** The mass that a nucleus for probability `p` has to reach. */
  ghost function Share(p: real, total: real): real {
    p * total
  }

  ghost function AheadOf(s: seq<Logit>, t: nat): set<nat>
    requires t < |s|
  {
    set j: nat | j < |s| && Ahead(s, j, t)
  }

  /** The tokens whose predecessors do not yet carry the mass `goal`. */
  ghost predicate InNucleus(s: seq<Logit>, goal: real, exp: Exponential, t: nat)
    requires t < |s|
  {
    SumIn(Weights(s, exp), AheadOf(s, t)) < goal
  }

  /**
   A row whose largest score is infinite has no probabilities (infinity minus infinity is NaN, so
   the sum is NaN and no comparison with it holds), and nothing is cut from it.  Otherwise a token stays exactly when
   the probabilities of the tokens ahead of it sum to less than `p`.
   */
  ghost function NucleusMask(s: seq<Logit>, p: real, exp: Exponential): seq<Logit>
    requires |s| > 0
  {
    if !Maximum(s).Fin? then s
    else
      var goal := Share(p, Total(s, exp));
      seq(|s|, t requires 0 <= t < |s| => if InNucleus(s, goal, exp, t) then s[t] else NegInf)
  }

  // ---------------------------------------------------------- permutations

  ghost predicate IsPermutation(idx: seq<nat>, n: nat) {
    && |idx| == n
    && (forall r :: 0 <= r < n ==> idx[r] < n)
    && (forall r, q :: 0 <= r < q < n ==> idx[r] != idx[q])
  }

  ghost function Elements(idx: seq<nat>): set<nat> {
    set r | 0 <= r < |idx| :: idx[r]
  }

  lemma {:induction false} DistinctElements(idx: seq<nat>)
    requires forall r, q :: 0 <= r < q < |idx| ==> idx[r] != idx[q]
    ensures |Elements(idx)| == |idx|
  {
    if idx != [] {
      var init := idx[..|idx|-1];
      DistinctElements(init);
      assert Elements(idx) == Elements(init) + {idx[|idx|-1]};
      assert idx[|idx|-1] !in Elements(init);
    }
  }

  /** A permutation of `0..n` reaches every index. */
  lemma PermutationCovers(idx: seq<nat>, n: nat)
    requires IsPermutation(idx, n)
    ensures Elements(idx) == Indices(n)
  {
    DistinctElements(idx);
    FullSubset(Elements(idx), Indices(n));
  }

  // ------------------------------------------------------- sums over a set

  lemma {:induction false} SumInSame(w: seq<real>, a: set<nat>, b: set<nat>)
    requires forall j: nat :: j < |w| ==> (j in a <==> j in b)
    ensures SumIn(w, a) == SumIn(w, b)
  {
    if w != [] {
      SumInSame(w[..|w|-1], a, b);
    }
  }

  lemma {:induction false} SumInAdd(w: seq<real>, a: set<nat>, x: nat)
    requires x < |w| && x !in a
    ensures SumIn(w, a + {x}) == SumIn(w, a) + w[x]
  {
    var v := w[..|w|-1];
    if x == |w| - 1 {
      SumInSame(v, a, a + {x});
    } else {
      SumInAdd(v, a, x);
    }
  }

  lemma {:induction false} SumInMono(w: seq<real>, a: set<nat>, b: set<nat>)
    requires a <= b
    requires forall j :: 0 <= j < |w| ==> w[j] >= 0.0
    ensures 0.0 <= SumIn(w, a) <= SumIn(w, b)
  {
    if w != [] {
      SumInMono(w[..|w|-1], a, b);
    }
  }
}
