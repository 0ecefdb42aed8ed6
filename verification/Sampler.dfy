/**
 One sampling step over a row of model logits: penalties, temperature, top-k, top-p
 and a Gumbel draw, in exact arithmetic.  A logit may be infinite.

 The row is sampled by one of two implementations.  The ordinary one rewrites a
 buffer of absolute scores; the wide one, for finite rows, keeps score differences to
 the best token only.  `SampleRowHost` runs either, and its contract does not mention which.
 */
module Sampler {
  import opened Options
  import opened Logits
  import opened SamplerMasks

  datatype Temperature = Finite(value: real) | Infinite

  datatype SamplingParams = SamplingParams(
    temperature: Temperature,
    topK: Option<nat>,
    topP: Option<real>,
    presencePenalty: real,
    frequencyPenalty: real,
    repetitionPenalty: real)
  {
    predicate Valid() {
      && (temperature.Finite? ==> temperature.value >= 0.0)
      && (topK.Some? ==> topK.value >= 1)
      && (topP.Some? ==> 0.0 < topP.value <= 1.0)
      && -2.0 <= presencePenalty <= 2.0
      && -2.0 <= frequencyPenalty <= 2.0
      && repetitionPenalty >= 0.0
    }

    predicate IsGreedy() {
      temperature == Finite(0.0) || topK == Some(1)
    }

    predicate HasPenalties() {
      presencePenalty != 0.0 || frequencyPenalty != 0.0 || repetitionPenalty != 0.0
    }
  }

  // --------------------------------------------------- reference semantics

  ghost function Occurrences(history: seq<nat>, t: nat): nat {
    multiset(history)[t]
  }

  function Repeated(x: real, params: SamplingParams): real {
    if params.repetitionPenalty != 0.0 then x / params.repetitionPenalty else x
  }

  /** Each penalty acts once on a token that occurs `count` times. */
  function Penalty(x: real, params: SamplingParams, count: nat): real {
    if count == 0 then x
    else Repeated(x, params) - params.presencePenalty - params.frequencyPenalty * count as real
  }

  /** An infinite logit absorbs every penalty. */
  function PenaliseLogit(l: Logit, params: SamplingParams, count: nat): Logit {
    if l.Fin? then Fin(Penalty(l.value, params, count)) else l
  }

  ghost function Penalised(row: seq<Logit>, params: SamplingParams, history: seq<nat>): seq<Logit> {
    seq(|row|, t requires 0 <= t < |row| => PenaliseLogit(row[t], params, Occurrences(history, t)))
  }

  predicate AllFinite(row: seq<Logit>) { forall i :: 0 <= i < |row| ==> row[i].Fin? }

  /** The ordinary path multiplies by the reciprocal; an infinite temperature has reciprocal zero. */
  function Cool(x: real, temperature: Temperature): real
    requires temperature != Finite(0.0)
  {
    x * if temperature.Infinite? then 0.0 else 1.0 / temperature.value
  }

  /** The wide path divides, and special-cases the infinite temperature. */
  function CoolWide(x: real, temperature: Temperature): real
    requires temperature != Finite(0.0)
  {
    if temperature.Infinite? then 0.0 else x / temperature.value
  }

  lemma CoolDifference(x: real, y: real, temperature: Temperature)
    requires temperature != Finite(0.0)
    ensures CoolWide(x - y, temperature) == Cool(x, temperature) - Cool(y, temperature)
  {
    if temperature.Finite? {
      var t := temperature.value;
      var inverse := 1.0 / t;
      assert inverse * t == 1.0;
      assert ((x - y) * inverse) * t == x - y;
      assert (x - y) / t == (x - y) * inverse;
      assert (x - y) * inverse == x * inverse - y * inverse;
    }
  }

  /**
   At an infinite temperature an infinite logit becomes NaN, which is never greater than anything;
   in a draw it stands where minus infinity does.
   */
  function CoolLogit(l: Logit, temperature: Temperature): Logit
    requires temperature != Finite(0.0)
  {
    if l.Fin? then Fin(Cool(l.value, temperature)) else if temperature.Infinite? then NegInf else l
  }

  ghost function Cooled(row: seq<Logit>, temperature: Temperature): seq<Logit>
    requires temperature != Finite(0.0)
  {
    seq(|row|, t requires 0 <= t < |row| => CoolLogit(row[t], temperature))
  }

  /** One of the two masks is active for a row of `n` tokens. */
  predicate Masks(params: SamplingParams, n: nat) {
    || (params.topK.Some? && 1 <= params.topK.value < n)
    || (params.topP.Some? && 0.0 < params.topP.value < 1.0)
  }

  /** No mask has to sort NaN. */
  predicate Sortable(row: seq<Logit>, params: SamplingParams) {
    params.temperature.Infinite? && Masks(params, |row|) ==> AllFinite(row)
  }

  ghost function TopKStage(s: seq<Logit>, params: SamplingParams): seq<Logit> {
    if params.topK.Some? && 1 <= params.topK.value < |s| then TopKMask(s, params.topK.value) else s
  }

  ghost function TopPStage(s: seq<Logit>, params: SamplingParams, exp: Exponential): seq<Logit>
    requires |s| > 0
  {
    if params.topP.Some? && 0.0 < params.topP.value < 1.0 then NucleusMask(s, params.topP.value, exp) else s
  }

  ghost function Truncated(s: seq<Logit>, params: SamplingParams, exp: Exponential): seq<Logit>
    requires |s| > 0
  {
    TopPStage(TopKStage(s, params), params, exp)
  }

  function Plus(l: Logit, x: real): Logit {
    if l.Fin? then Fin(l.value + x) else l
  }

  ghost function Noisy(s: seq<Logit>, gumbel: nat -> real, start: nat): seq<Logit> {
    seq(|s|, i requires 0 <= i < |s| => Plus(s[i], gumbel(start + i)))
  }

  /** `token` is the draw that row, parameters, history and noise prescribe. */
  ghost predicate IsSample(row: seq<Logit>, params: SamplingParams, history: seq<nat>, exp: Exponential,
                           gumbel: nat -> real, start: nat, token: nat)
    requires |row| > 0
  {
    var penalised := Penalised(row, params, history);
    if params.IsGreedy() then IsFirstMax(penalised, token)
    else IsFirstMax(Noisy(Truncated(Cooled(penalised, params.temperature), params, exp), gumbel, start), token)
  }

  // ----------------------------------------------------------- wide scores

  /** An unmerged score: the model logit after repetition, and the token's count. */
  datatype WideScore = WideScore(base: real, count: nat)

  /** Error-free addition; over the reals the error term is zero. */
  function TwoSum(left: real, right: real): (r: (real, real))
    ensures r.0 == left + right && r.1 == 0.0
  {
    var sum := left + right;
    var rightPart := sum - left;
    (sum, (left - (sum - rightPart)) + (right - rightPart))
  }

  function Difference(a: WideScore, b: WideScore, params: SamplingParams): real {
    var primary := a.base - b.base;
    var presence :=
      if (a.count > 0) == (b.count > 0) then 0.0
      else if a.count > 0 then -params.presencePenalty
      else params.presencePenalty;
    var countDifference := if a.count >= b.count then (a.count - b.count) as real else -((b.count - a.count) as real);
    var frequency := -params.frequencyPenalty * countDifference;
    var first := TwoSum(primary, frequency);
    var second := TwoSum(first.0, presence);
    second.0 + (first.1 + second.1)
  }

  function Widen(x: real, params: SamplingParams, count: nat): WideScore {
    WideScore(if count > 0 then Repeated(x, params) else x, count)
  }

  /** A difference of wide scores is the difference of the penalised logits. */
  lemma WideDifference(x: real, y: real, params: SamplingParams, m: nat, n: nat)
    ensures Difference(Widen(x, params, m), Widen(y, params, n), params)
         == Penalty(x, params, m) - Penalty(y, params, n)
  {
    var f := params.frequencyPenalty;
    assert -f * (m - n) as real == f * n as real - f * m as real;
    assert m < n ==> -((n - m) as real) == (m - n) as real;
  }

  lemma NoPenalties(x: real, params: SamplingParams, count: nat)
    requires !params.HasPenalties()
    ensures Penalty(x, params, count) == x
  {
    assert params.frequencyPenalty * count as real == 0.0;
  }

  ghost function EffectiveCount(params: SamplingParams, history: seq<nat>, t: nat): nat {
    if params.HasPenalties() then Occurrences(history, t) else 0
  }

  ghost function WideRow(row: seq<Logit>, params: SamplingParams, history: seq<nat>): seq<WideScore>
    requires AllFinite(row)
  {
    seq(|row|, t requires 0 <= t < |row| => Widen(row[t].value, params, EffectiveCount(params, history, t)))
  }

  lemma WideRowDifference(row: seq<Logit>, params: SamplingParams, history: seq<nat>, i: nat, j: nat)
    requires AllFinite(row) && i < |row| && j < |row|
    ensures var w := WideRow(row, params, history); var p := Penalised(row, params, history);
      p[i].Fin? && p[j].Fin? && Difference(w[i], w[j], params) == p[i].value - p[j].value
  {
    var x, y := row[i].value, row[j].value;
    WideDifference(x, y, params, EffectiveCount(params, history, i), EffectiveCount(params, history, j));
    if !params.HasPenalties() {
      NoPenalties(x, params, Occurrences(history, i));
      NoPenalties(y, params, Occurrences(history, j));
    }
  }

  // ----------------------------------------------------- shift invariance

  /** `b` is `a` lowered by a common offset; an infinity absorbs the offset. */
  ghost predicate Shifted(a: seq<Logit>, b: seq<Logit>, offset: real) {
    |a| == |b| && forall i :: 0 <= i < |a| ==> b[i] == Plus(a[i], -offset)
  }

  lemma ShiftKeepsOrder(a: seq<Logit>, b: seq<Logit>, offset: real)
    requires Shifted(a, b, offset)
    ensures forall i, j :: 0 <= i < |a| && 0 <= j < |a| ==> (Less(a[i], a[j]) <==> Less(b[i], b[j]))
  {
  }

  lemma ShiftKeepsFirstMax(a: seq<Logit>, b: seq<Logit>, offset: real, token: nat)
    requires Shifted(a, b, offset)
    ensures IsFirstMax(a, token) <==> IsFirstMax(b, token)
  {
    ShiftKeepsOrder(a, b, offset);
  }

  lemma ShiftTopK(a: seq<Logit>, b: seq<Logit>, offset: real, k: nat)
    requires Shifted(a, b, offset)
    ensures Shifted(TopKMask(a, k), TopKMask(b, k), offset)
  {
    ShiftKeepsOrder(a, b, offset);
    forall i | 0 <= i < |a| ensures TopKMask(b, k)[i] == Plus(TopKMask(a, k)[i], -offset) {
      assert Larger(a, i) == Larger(b, i);
    }
  }

  lemma ShiftMaximum(a: seq<Logit>, b: seq<Logit>, offset: real)
    requires Shifted(a, b, offset) && |a| > 0
    ensures Maximum(b) == Plus(Maximum(a), -offset)
  {
    ShiftKeepsOrder(a, b, offset);
    var m, n := Maximum(a), Maximum(b);
    var i :| 0 <= i < |a| && a[i] == m;
    var j :| 0 <= j < |b| && b[j] == n;
    assert !Less(m, a[j]) && !Less(n, b[i]);
    assert Less(a[i], a[j]) <==> Less(b[i], b[j]);
    assert Less(a[j], a[i]) <==> Less(b[j], b[i]);
  }

  lemma ShiftWeights(a: seq<Logit>, b: seq<Logit>, offset: real, exp: Exponential)
    requires Shifted(a, b, offset) && |a| > 0
    ensures Weights(a, exp) == Weights(b, exp)
  {
    ShiftMaximum(a, b, offset);
    forall j | 0 <= j < |a| ensures Weight(a[j], Maximum(a), exp) == Weight(b[j], Maximum(b), exp) {
      SameDistance(a[j], Maximum(a), b[j], Maximum(b), exp);
    }
  }

  lemma SameDistance(x: Logit, top: Logit, y: Logit, other: Logit, exp: Exponential)
    requires x.Fin? == y.Fin? && top.Fin? == other.Fin?
    requires x.Fin? && top.Fin? ==> x.value - top.value == y.value - other.value
    ensures Weight(x, top, exp) == Weight(y, other, exp)
  {
  }

  lemma ShiftNucleus(a: seq<Logit>, b: seq<Logit>, offset: real, p: real, exp: Exponential)
    requires Shifted(a, b, offset) && |a| > 0
    ensures Shifted(NucleusMask(a, p, exp), NucleusMask(b, p, exp), offset)
  {
    ShiftKeepsOrder(a, b, offset);
    ShiftMaximum(a, b, offset);
    ShiftWeights(a, b, offset, exp);
    forall t | 0 <= t < |a| ensures AheadOf(a, t) == AheadOf(b, t) {
    }
  }

  lemma ShiftTruncated(a: seq<Logit>, b: seq<Logit>, offset: real, params: SamplingParams, exp: Exponential)
    requires Shifted(a, b, offset) && |a| > 0
    ensures Shifted(Truncated(a, params, exp), Truncated(b, params, exp), offset)
  {
    if params.topK.Some? {
      ShiftTopK(a, b, offset, params.topK.value);
    }
    if params.topP.Some? {
      ShiftNucleus(TopKStage(a, params), TopKStage(b, params), offset, params.topP.value, exp);
    }
  }

  lemma ShiftNoisy(a: seq<Logit>, b: seq<Logit>, offset: real, gumbel: nat -> real, start: nat)
    requires Shifted(a, b, offset)
    ensures Shifted(Noisy(a, gumbel, start), Noisy(b, gumbel, start), offset)
  {
  }

  // ---------------------------------------------------------- equivalence

  /** The wide row: every score is its distance to the best one, over the temperature. */
  ghost function Normalised(row: seq<Logit>, params: SamplingParams, history: seq<nat>, best: nat): seq<Logit>
    requires AllFinite(row) && best < |row| && params.temperature != Finite(0.0)
  {
    var w := WideRow(row, params, history);
    seq(|row|, t requires 0 <= t < |row| => Fin(CoolWide(Difference(w[t], w[best], params), params.temperature)))
  }

  lemma NormalisedIsShifted(row: seq<Logit>, params: SamplingParams, history: seq<nat>, best: nat)
    requires AllFinite(row) && best < |row| && params.temperature != Finite(0.0)
    ensures var p := Penalised(row, params, history);
      p[best].Fin? && Shifted(Cooled(p, params.temperature), Normalised(row, params, history, best),
                              Cool(p[best].value, params.temperature))
  {
    var p := Penalised(row, params, history);
    forall t | 0 <= t < |row|
      ensures Normalised(row, params, history, best)[t]
           == Plus(Cooled(p, params.temperature)[t], -Cool(p[best].value, params.temperature))
    {
      WideRowDifference(row, params, history, t, best);
      CoolDifference(p[t].value, p[best].value, params.temperature);
    }
  }

  /**
   Whatever token the wide path normalises by, it draws the same token as the
   ordinary path, for every finite row, valid parameters, history and noise.
   */
  lemma WideDrawsTheSame(row: seq<Logit>, params: SamplingParams, history: seq<nat>, best: nat,
                         exp: Exponential, gumbel: nat -> real, start: nat, token: nat)
    requires AllFinite(row) && best < |row| && !params.IsGreedy()
    ensures IsFirstMax(Noisy(Truncated(Normalised(row, params, history, best), params, exp), gumbel, start), token)
       <==> IsSample(row, params, history, exp, gumbel, start, token)
  {
    var p := Penalised(row, params, history);
    var a := Cooled(p, params.temperature);
    var b := Normalised(row, params, history, best);
    NormalisedIsShifted(row, params, history, best);
    var offset := Cool(p[best].value, params.temperature);
    ShiftTruncated(a, b, offset, params, exp);
    ShiftNoisy(Truncated(a, params, exp), Truncated(b, params, exp), offset, gumbel, start);
    ShiftKeepsFirstMax(Noisy(Truncated(a, params, exp), gumbel, start),
                       Noisy(Truncated(b, params, exp), gumbel, start), offset, token);
  }

  lemma SampleUnique(row: seq<Logit>, params: SamplingParams, history: seq<nat>, exp: Exponential,
                     gumbel: nat -> real, start: nat, x: nat, y: nat)
    requires |row| > 0
    requires IsSample(row, params, history, exp, gumbel, start, x)
    requires IsSample(row, params, history, exp, gumbel, start, y)
    ensures x == y
  {
    var penalised := Penalised(row, params, history);
    if params.IsGreedy() {
      FirstMaxUnique(penalised, x, y);
    } else {
      FirstMaxUnique(Noisy(Truncated(Cooled(penalised, params.temperature), params, exp), gumbel, start), x, y);
    }
  }

  // -------------------------------------------------------- the two paths

  method CountTokens(history: seq<nat>, vocab: nat) returns (counts: map<nat, nat>)
    ensures forall t :: t in counts <==> t < vocab && t in history
    ensures forall t :: t in counts ==> counts[t] == Occurrences(history, t)
  {
    counts := map[];
    for i := 0 to |history|
      invariant forall t :: t in counts <==> t < vocab && t in history[..i]
      invariant forall t :: t in counts ==> counts[t] == Occurrences(history[..i], t)
    {
      var t := history[i];
      assert history[..i + 1] == history[..i] + [t];
      if t < vocab {
        counts := counts[t := (if t in counts then counts[t] else 0) + 1];
      }
    }
    assert history[..|history|] == history;
  }

  method PenaliseOne(x: real, params: SamplingParams, count: nat) returns (y: real)
    requires count > 0
    ensures y == Penalty(x, params, count)
  {
    y := x;
    if params.repetitionPenalty != 0.0 {
      y := y / params.repetitionPenalty;
    }
    y := y - params.presencePenalty;
    if params.frequencyPenalty != 0.0 {
      y := y - params.frequencyPenalty * count as real;
    }
  }

  /** The penalties are applied once per distinct token, in any order. */
  method ApplyPenalties(buf: array<Logit>, params: SamplingParams, history: seq<nat>)
    modifies buf
    ensures forall t :: 0 <= t < buf.Length ==>
      buf[t] == PenaliseLogit(old(buf[t]), params, Occurrences(history, t))
  {
    var counts := CountTokens(history, buf.Length);
    assert forall t :: t in counts ==> counts[t] > 0;
    var rest := counts.Keys;
    while rest != {}
      invariant rest <= counts.Keys
      invariant forall t :: 0 <= t < buf.Length ==>
        buf[t] == PenaliseLogit(old(buf[t]), params, if t in counts && t !in rest then counts[t] else 0)
      decreases rest
    {
      var t :| t in rest;
      if buf[t].Fin? {
        var x := PenaliseOne(buf[t].value, params, counts[t]);
        buf[t] := Fin(x);
      }
      rest := rest - {t};
    }
  }

  method Argmax(buf: array<Logit>) returns (best: nat)
    requires buf.Length > 0
    ensures IsFirstMax(buf[..], best)
  {
    best := 0;
    var value := NegInf;
    for i := 0 to buf.Length
      invariant best < buf.Length
      invariant value.NegInf? ==> best == 0 && forall j :: 0 <= j < i ==> buf[j] == NegInf
      invariant !value.NegInf? ==> best < i && buf[best] == value
      invariant forall j :: 0 <= j < i ==> !Less(value, buf[j])
      invariant !value.NegInf? ==> forall j :: 0 <= j < best ==> Less(buf[j], value)
    {
      if Less(value, buf[i]) {
        value, best := buf[i], i;
      }
    }
  }

  class RowSampler {
    const gumbel: nat -> real  // the noise stream
    const exp: Exponential
    var cursor: nat            // draws consumed so far

    constructor (gumbel: nat -> real, exp: Exponential)
      ensures this.gumbel == gumbel && this.exp == exp && cursor == 0
    {
      this.gumbel, this.exp, cursor := gumbel, exp, 0;
    }

    method GumbelArgmax(buf: array<Logit>) returns (best: nat)
      requires buf.Length > 0
      modifies this`cursor
      ensures IsFirstMax(Noisy(buf[..], gumbel, old(cursor)), best)
      ensures cursor == old(cursor) + buf.Length
    {
      ghost var noisy := Noisy(buf[..], gumbel, cursor);
      best := 0;
      var value := NegInf;
      for i := 0 to buf.Length
        invariant best < buf.Length && cursor == old(cursor) + i
        invariant value.NegInf? ==> best == 0 && forall j :: 0 <= j < i ==> noisy[j] == NegInf
        invariant !value.NegInf? ==> best < i && noisy[best] == value
        invariant forall j :: 0 <= j < i ==> !Less(value, noisy[j])
        invariant !value.NegInf? ==> forall j :: 0 <= j < best ==> Less(noisy[j], value)
      {
        var score := Plus(buf[i], gumbel(cursor));
        cursor := cursor + 1;
        if Less(value, score) {
          value, best := score, i;
        }
      }
    }

    /** Both paths end with the same truncation and draw. */
    method TruncateAndDraw(buf: array<Logit>, params: SamplingParams) returns (token: nat)
      requires buf.Length > 0
      modifies buf, this`cursor
      ensures IsFirstMax(Noisy(Truncated(old(buf[..]), params, exp), gumbel, old(cursor)), token)
      ensures cursor == old(cursor) + buf.Length
    {
      if params.topK.Some? && 1 <= params.topK.value < buf.Length {
        MaskTopK(buf, params.topK.value);
      }
      assert buf[..] == TopKStage(old(buf[..]), params);
      if params.topP.Some? && 0.0 < params.topP.value < 1.0 {
        MaskTopP(buf, params.topP.value, exp);
      }
      token := GumbelArgmax(buf);
    }

    method PenalisedBuffer(logits: seq<Logit>, params: SamplingParams, history: seq<nat>) returns (buf: array<Logit>)
      ensures fresh(buf) && buf[..] == Penalised(logits, params, history)
    {
      buf := new Logit[|logits|](i requires 0 <= i < |logits| => logits[i]);
      if params.HasPenalties() && history != [] {
        ApplyPenalties(buf, params, history);
      } else if !params.HasPenalties() {
        forall t | 0 <= t < |logits| && logits[t].Fin?
          ensures Penalty(logits[t].value, params, Occurrences(history, t)) == logits[t].value
        {
          NoPenalties(logits[t].value, params, Occurrences(history, t));
        }
      }
    }

    method CoolBuffer(buf: array<Logit>, temperature: Temperature)
      requires temperature != Finite(0.0)
      modifies buf
      ensures buf[..] == Cooled(old(buf[..]), temperature)
    {
      for i := 0 to buf.Length
        invariant forall j :: 0 <= j < i ==> buf[j] == CoolLogit(old(buf[j]), temperature)
        invariant forall j :: i <= j < buf.Length ==> buf[j] == old(buf[j])
      {
        buf[i] := CoolLogit(buf[i], temperature);
      }
    }

    method SampleRowOrdinary(logits: seq<Logit>, params: SamplingParams, history: seq<nat>) returns (token: nat)
      requires |logits| > 0 && params.Valid() && Sortable(logits, params)
      modifies this`cursor
      ensures IsSample(logits, params, history, exp, gumbel, old(cursor), token)
      ensures cursor == old(cursor) + if params.IsGreedy() then 0 else |logits|
    {
      var buf := PenalisedBuffer(logits, params, history);
      assert |buf[..]| == |logits|;
      if params.IsGreedy() {
        token := Argmax(buf);
      } else {
        CoolBuffer(buf, params.temperature);
        token := TruncateAndDraw(buf, params);
      }
    }

    /** The wide scores, written as the plain row followed by per-token updates in any order. */
    method WideSamplingScores(logits: seq<Logit>, params: SamplingParams, history: seq<nat>)
      returns (wide: seq<WideScore>)
      requires AllFinite(logits)
      ensures wide == WideRow(logits, params, history)
    {
      wide := seq(|logits|, i requires 0 <= i < |logits| => WideScore(logits[i].value, 0));
      if params.HasPenalties() && history != [] {
        var counts := CountTokens(history, |logits|);
        var rest := counts.Keys;
        while rest != {}
          invariant rest <= counts.Keys && |wide| == |logits|
          invariant forall t :: 0 <= t < |wide| ==>
            wide[t] == Widen(logits[t].value, params, if t in counts && t !in rest then counts[t] else 0)
          decreases rest
        {
          var t :| t in rest;
          wide := wide[t := WideScore(Repeated(wide[t].base, params), counts[t])];
          rest := rest - {t};
        }
      }
    }

    method WideArgmax(wide: seq<WideScore>, ghost logits: seq<Logit>, params: SamplingParams, ghost history: seq<nat>)
      returns (best: nat)
      requires |logits| > 0 && AllFinite(logits) && wide == WideRow(logits, params, history)
      ensures IsFirstMax(Penalised(logits, params, history), best)
    {
      ghost var p := Penalised(logits, params, history);
      best := 0;
      // the -inf sentinel loses to the first real score
      for i := 1 to |wide|
        invariant best < i
        invariant forall j :: 0 <= j < i ==> !Less(p[best], p[j])
        invariant forall j :: 0 <= j < best ==> Less(p[j], p[best])
      {
        WideRowDifference(logits, params, history, i, best);
        if Difference(wide[i], wide[best], params) > 0.0 {
          best := i;
        }
      }
    }

    method SampleRowWide(logits: seq<Logit>, params: SamplingParams, history: seq<nat>) returns (token: nat)
      requires |logits| > 0 && params.Valid() && AllFinite(logits)
      modifies this`cursor
      ensures IsSample(logits, params, history, exp, gumbel, old(cursor), token)
      ensures cursor == old(cursor) + if params.IsGreedy() then 0 else |logits|
    {
      var wide := WideSamplingScores(logits, params, history);
      var best := WideArgmax(wide, logits, params, history);
      if params.IsGreedy() {
        token := best;
        return;
      }
      var buf := new Logit[|wide|](i requires 0 <= i < |wide| =>
        Fin(CoolWide(Difference(wide[i], wide[best], params), params.temperature)));
      assert buf[..] == Normalised(logits, params, history, best);
      token := TruncateAndDraw(buf, params);
      WideDrawsTheSame(logits, params, history, best, exp, gumbel, old(cursor), token);
    }

    /**
     `overflows` is the verdict of the overflow predictor on a finite row; a row with an infinite
     logit always takes the ordinary path.  Neither the token nor the number of consumed draws
     depends on the path.
     */
    method SampleRowHost(logits: seq<Logit>, params: SamplingParams, history: seq<nat>, overflows: bool)
      returns (token: nat)
      requires |logits| > 0 && params.Valid() && Sortable(logits, params)
      modifies this`cursor
      ensures IsSample(logits, params, history, exp, gumbel, old(cursor), token)
      ensures cursor == old(cursor) + if params.IsGreedy() then 0 else |logits|
    {
      if AllFinite(logits) && overflows {
        token := SampleRowWide(logits, params, history);
      } else {
        token := SampleRowOrdinary(logits, params, history);
      }
    }
  }
}
