/**
 What truncation guarantees to the caller of the sampler: a maximum always
 survives, the nucleus is the shortest leading part of the sorted row that carries
 the requested probability, and only surviving tokens are ever drawn.
 */
module SamplerGuarantees {
  import opened Options
  import opened Logits
  import opened SamplerMasks
  import opened Sampler

  lemma MaximumSurvivesTopK(s: seq<Logit>, k: nat, t: nat)
    requires t < |s| && k >= 1 && s[t] == Maximum(s)
    ensures TopKMask(s, k)[t] == s[t]
  {
    var m := Maximum(s);
    forall j | 0 <= j < |s| ensures !Less(s[t], s[j]) {
      assert !Less(m, s[j]);
    }
    assert Larger(s, t) == {};
  }

  lemma FullMass(s: seq<Logit>, idx: seq<nat>, exp: Exponential)
    requires IsPermutation(idx, |s|)
    ensures PrefixMass(s, idx, exp, |s|) == Total(s, exp)
  {
    assert idx[..|s|] == idx;
    PermutationCovers(idx, |s|);
  }

  lemma ShareWithin(p: real, total: real)
    requires 0.0 < p <= 1.0 && total > 0.0
    ensures 0.0 < Share(p, total) <= total
  {
  }

  /** The least number of leading ranks whose mass reaches `goal`. */
  lemma {:induction false} LeastCutoff(s: seq<Logit>, idx: seq<nat>, goal: real, exp: Exponential, n: nat)
    returns (c: nat)
    requires n <= |idx| && PrefixMass(s, idx, exp, n) >= goal
    ensures c <= n && PrefixMass(s, idx, exp, c) >= goal
    ensures forall d :: 0 <= d < c ==> PrefixMass(s, idx, exp, d) < goal
  {
    c := 0;
    while PrefixMass(s, idx, exp, c) < goal
      invariant 0 <= c <= n
      invariant forall d :: 0 <= d < c ==> PrefixMass(s, idx, exp, d) < goal
      decreases n - c
    {
      assert c != n;
      c := c + 1;
    }
  }

  /**
   For every row with a finite score and every stable descending order of it, the
   nucleus consists of the first `c` ranks, they carry the share `p` of the mass,
   and no shorter prefix does.
   */
  lemma NucleusIsShortestPrefix(s: seq<Logit>, idx: seq<nat>, p: real, exp: Exponential) returns (c: nat)
    requires IsDescending(s, idx) && |s| > 0 && Maximum(s).Fin? && 0.0 < p <= 1.0
    ensures 1 <= c <= |s|
    ensures PrefixMass(s, idx, exp, c) >= Share(p, Total(s, exp))
    ensures forall d :: 0 <= d < c ==> PrefixMass(s, idx, exp, d) < Share(p, Total(s, exp))
    ensures forall r :: 0 <= r < |s| ==> NucleusMask(s, p, exp)[idx[r]] == if r < c then s[idx[r]] else NegInf
  {
    var goal := Share(p, Total(s, exp));
    TotalPositive(s, exp);
    ShareWithin(p, Total(s, exp));
    FullMass(s, idx, exp);
    PrefixStart(s, idx, exp);
    c := LeastCutoff(s, idx, goal, exp, |s|);
    forall r | 0 <= r < |s| ensures InNucleus(s, goal, exp, idx[r]) <==> r < c {
      CutoffIsNucleus(s, idx, goal, exp, c, r);
    }
  }

  /** A token of minus infinite score has all the mass ahead of it. */
  lemma NucleusInsideSurvivors(s: seq<Logit>, p: real, exp: Exponential, t: nat)
    requires t < |s| && Maximum(s).Fin? && 0.0 < p <= 1.0
    requires InNucleus(s, Share(p, Total(s, exp)), exp, t)
    ensures s[t].Fin?
  {
    TotalPositive(s, exp);
    ShareWithin(p, Total(s, exp));
    var m := Maximum(s);
    assert !Less(m, s[t]);
    if s[t].NegInf? {
      assert forall j :: 0 <= j < |s| ==> !Less(m, s[j]);
      MassOfFinite(Weights(s, exp), s, AheadOf(s, t), Indices(|s|));
      assert false;
    }
  }

  lemma {:induction false} MassOfFinite(w: seq<real>, s: seq<Logit>, a: set<nat>, b: set<nat>)
    requires |w| <= |s|
    requires forall j :: 0 <= j < |w| && !s[j].Fin? ==> w[j] == 0.0
    requires forall j: nat :: j < |w| && s[j].Fin? ==> j in a && j in b
    ensures SumIn(w, a) == SumIn(w, b)
  {
    if w != [] {
      MassOfFinite(w[..|w|-1], s, a, b);
    }
  }

  lemma MaximumSurvivesNucleus(s: seq<Logit>, p: real, exp: Exponential) returns (t: nat)
    requires |s| > 0 && Maximum(s).Fin? && 0.0 < p <= 1.0
    ensures t < |s| && NucleusMask(s, p, exp)[t] == s[t] == Maximum(s)
  {
    t := FirstMaxIndex(s);
    TotalPositive(s, exp);
    ShareWithin(p, Total(s, exp));
    assert AheadOf(s, t) == {};
    EmptySum(Weights(s, exp));
  }

  lemma FirstMaxIndex(s: seq<Logit>) returns (t: nat)
    requires |s| > 0
    ensures IsFirstMax(s, t) && s[t] == Maximum(s)
  {
    var m := Maximum(s);
    t := 0;
    while s[t] != m
      invariant 0 <= t < |s|
      invariant forall j :: 0 <= j < t ==> s[j] != m
      decreases |s| - t
    {
      assert t + 1 < |s| by {
        var j :| 0 <= j < |s| && s[j] == m;
      }
      t := t + 1;
    }
    forall j | 0 <= j < t ensures Less(s[j], s[t]) {
      assert !Less(m, s[j]) && s[j] != m;
    }
  }

  lemma TruncationKeepsMaximum(s: seq<Logit>, params: SamplingParams, exp: Exponential) returns (t: nat)
    requires |s| > 0 && Maximum(s).Fin? && params.Valid()
    ensures t < |s| == |Truncated(s, params, exp)|
    ensures Truncated(s, params, exp)[t] == s[t] == Maximum(s)
  {
    var u := FirstMaxIndex(s);
    var b := TopKStage(s, params);
    if params.topK.Some? {
      MaximumSurvivesTopK(s, params.topK.value, u);
    }
    assert b[u] == s[u];
    var m, n := Maximum(s), Maximum(b);
    assert n == m by {
      assert !Less(n, b[u]);
      var j :| 0 <= j < |b| && b[j] == n;
      assert b[j] == s[j];
      assert !Less(m, s[j]);
    }
    if params.topP.Some? && 0.0 < params.topP.value < 1.0 {
      t := MaximumSurvivesNucleus(b, params.topP.value, exp);
    } else {
      t := u;
    }
  }

  /** Fewer than `k` larger scores, and inside the nucleus of the top-k survivors. */
  ghost predicate Survives(s: seq<Logit>, params: SamplingParams, exp: Exponential, token: nat)
    requires |s| > 0
  {
    var b := TopKStage(s, params);
    && token < |s| && s[token].Fin?
    && (params.topK.Some? && params.topK.value < |s| ==> |Larger(s, token)| < params.topK.value)
    && (params.topP.Some? && params.topP.value < 1.0 ==>
          InNucleus(b, Share(params.topP.value, Total(b, exp)), exp, token))
  }

  lemma KeptTokenSurvives(s: seq<Logit>, params: SamplingParams, exp: Exponential, token: nat)
    requires |s| > 0 && Maximum(TopKStage(s, params)).Fin? && params.Valid()
    requires token < |s| && Truncated(s, params, exp)[token].Fin?
    ensures Survives(s, params, exp, token)
  {
    var b := TopKStage(s, params);
    assert b[token].Fin?;
  }

  lemma StageKeepsMaximum(s: seq<Logit>, params: SamplingParams)
    requires |s| > 0 && Maximum(s).Fin? && params.Valid()
    ensures Maximum(TopKStage(s, params)).Fin?
  {
    var u := FirstMaxIndex(s);
    var b := TopKStage(s, params);
    if params.topK.Some? {
      MaximumSurvivesTopK(s, params.topK.value, u);
    }
    var n := Maximum(b);
    assert !Less(n, b[u]);
  }

  lemma DrawIsFinite(s: seq<Logit>, gumbel: nat -> real, start: nat, t: nat, token: nat)
    requires t < |s| && s[t].Fin? && IsFirstMax(Noisy(s, gumbel, start), token)
    requires forall i :: 0 <= i < |s| ==> !s[i].PosInf?
    ensures token < |s| && s[token].Fin?
  {
    var noisy := Noisy(s, gumbel, start);
    assert !Less(noisy[token], noisy[t]);
  }

  lemma NeverInfinite(s: seq<Logit>, params: SamplingParams, exp: Exponential)
    requires |s| > 0 && Maximum(s).Fin?
    ensures |Truncated(s, params, exp)| == |s|
    ensures forall i :: 0 <= i < |s| ==> !Truncated(s, params, exp)[i].PosInf?
  {
    var m := Maximum(s);
    forall i | 0 <= i < |s| ensures !TopKStage(s, params)[i].PosInf? {
      assert !Less(m, s[i]);
    }
  }

  lemma DrawnFromRow(s: seq<Logit>, params: SamplingParams, exp: Exponential,
                     gumbel: nat -> real, start: nat, token: nat)
    requires |s| > 0 && Maximum(s).Fin? && params.Valid()
    requires IsFirstMax(Noisy(Truncated(s, params, exp), gumbel, start), token)
    ensures Survives(s, params, exp, token)
  {
    var t := TruncationKeepsMaximum(s, params, exp);
    NeverInfinite(s, params, exp);
    DrawIsFinite(Truncated(s, params, exp), gumbel, start, t, token);
    StageKeepsMaximum(s, params);
    KeptTokenSurvives(s, params, exp, token);
  }

  /** The largest score, if infinite, survives top-k, and then top-p cuts nothing. */
  lemma InfiniteStage(s: seq<Logit>, params: SamplingParams, exp: Exponential, u: nat)
    requires u < |s| && s[u] == Maximum(s) && !s[u].Fin? && params.Valid()
    ensures var t := Truncated(s, params, exp);
      |t| == |s| && t[u] == s[u] && forall i :: 0 <= i < |s| ==> t[i] == s[i] || t[i] == NegInf
  {
    var b := TopKStage(s, params);
    if params.topK.Some? {
      MaximumSurvivesTopK(s, params.topK.value, u);
    }
    assert b[u] == s[u];
    assert !Maximum(b).Fin? by {
      var m, n := Maximum(s), Maximum(b);
      var j :| 0 <= j < |b| && b[j] == n;
      assert !Less(n, b[u]) && !Less(m, s[j]);
    }
  }

  /** Of infinite scores the first wins, whatever the masks and the noise. */
  lemma InfiniteScoreWins(s: seq<Logit>, params: SamplingParams, exp: Exponential,
                          gumbel: nat -> real, start: nat, token: nat)
    requires |s| > 0 && Maximum(s).PosInf? && params.Valid()
    requires IsFirstMax(Noisy(Truncated(s, params, exp), gumbel, start), token)
    ensures IsFirstMax(s, token)
  {
    var u := FirstMaxIndex(s);
    InfiniteStage(s, params, exp, u);
    FirstInfinite(s, Truncated(s, params, exp), gumbel, start, u, token);
  }

  lemma FirstInfinite(s: seq<Logit>, t: seq<Logit>, gumbel: nat -> real, start: nat, u: nat, token: nat)
    requires IsFirstMax(s, u) && s[u].PosInf? && |t| == |s| && t[u] == s[u]
    requires forall i :: 0 <= i < |s| ==> t[i] == s[i] || t[i] == NegInf
    requires IsFirstMax(Noisy(t, gumbel, start), token)
    ensures token == u
  {
    var noisy := Noisy(t, gumbel, start);
    assert noisy[u] == PosInf && !Less(noisy[token], noisy[u]);
    assert noisy[token].PosInf? && s[token].PosInf?;
  }

  /** A row of minus infinities yields the first token. */
  lemma HopelessRow(s: seq<Logit>, params: SamplingParams, exp: Exponential,
                    gumbel: nat -> real, start: nat, token: nat)
    requires |s| > 0 && Maximum(s).NegInf? && params.Valid()
    requires IsFirstMax(Noisy(Truncated(s, params, exp), gumbel, start), token)
    ensures token == 0
  {
    var u := FirstMaxIndex(s);
    InfiniteStage(s, params, exp, u);
    var m := Maximum(s);
    forall i | 0 <= i < |s| ensures s[i] == NegInf {
      assert !Less(m, s[i]);
    }
    NoScore(Truncated(s, params, exp), gumbel, start, token);
  }

  lemma NoScore(t: seq<Logit>, gumbel: nat -> real, start: nat, token: nat)
    requires IsFirstMax(Noisy(t, gumbel, start), token) && forall i :: 0 <= i < |t| ==> t[i] == NegInf
    ensures token == 0
  {
    var noisy := Noisy(t, gumbel, start);
    assert noisy[0] == NegInf == noisy[token];
  }

  /** Neither penalties nor a finite temperature make or remove an infinity. */
  lemma {:induction false} CooledMaximum(row: seq<Logit>, params: SamplingParams, history: seq<nat>)
    requires |row| > 0 && params.temperature.Finite? && params.temperature.value > 0.0
    ensures var m := Maximum(Cooled(Penalised(row, params, history), params.temperature));
      && (m.PosInf? <==> PosInf in row)
      && (m.NegInf? <==> forall i :: 0 <= i < |row| ==> row[i] == NegInf)
  {
    var s := Cooled(Penalised(row, params, history), params.temperature);
    var m := Maximum(s);
    forall i | 0 <= i < |row| ensures (s[i].PosInf? <==> row[i].PosInf?) && (s[i].NegInf? <==> row[i].NegInf?)
      ensures !Less(m, s[i])
    {
    }
    var j :| 0 <= j < |s| && s[j] == m;
  }

  /**
   A drawn token has fewer than `k` strictly larger scores and lies in the nucleus of the top-k
   survivors, for every row, history and noise.  Infinite scores win outright, and a row without
   any other score than minus infinity yields the first token.
   */
  lemma DrawnTokenSurvives(row: seq<Logit>, params: SamplingParams, history: seq<nat>, exp: Exponential,
                           gumbel: nat -> real, start: nat, token: nat)
    requires |row| > 0 && params.Valid() && !params.IsGreedy() && Sortable(row, params)
    requires IsSample(row, params, history, exp, gumbel, start, token)
    ensures var s := Cooled(Penalised(row, params, history), params.temperature);
      match Maximum(s)
      case Fin(_) => Survives(s, params, exp, token)
      case PosInf => IsFirstMax(s, token)
      case NegInf => token == 0
  {
    var s := Cooled(Penalised(row, params, history), params.temperature);
    match Maximum(s)
    case Fin(_) => DrawnFromRow(s, params, exp, gumbel, start, token);
    case PosInf => InfiniteScoreWins(s, params, exp, gumbel, start, token);
    case NegInf => HopelessRow(s, params, exp, gumbel, start, token);
  }

  /** On a finite row a surviving token is always drawn. */
  lemma FiniteRowSurvives(row: seq<Logit>, params: SamplingParams, history: seq<nat>, exp: Exponential,
                          gumbel: nat -> real, start: nat, token: nat)
    requires |row| > 0 && params.Valid() && !params.IsGreedy() && AllFinite(row)
    requires IsSample(row, params, history, exp, gumbel, start, token)
    ensures Survives(Cooled(Penalised(row, params, history), params.temperature), params, exp, token)
  {
    var s := Cooled(Penalised(row, params, history), params.temperature);
    var j :| 0 <= j < |s| && s[j] == Maximum(s);
    assert s[j].Fin?;
    DrawnTokenSurvives(row, params, history, exp, gumbel, start, token);
  }
}
