/**
 The statistics part of an approved calibration observation: per-case checks, the
 recomputed aggregate, and the proposal taken from fixed tolerance ladders.
 */
module Calibration {
  import opened Options
  import opened Numbers
  import opened RealOrder

  datatype Case = Case(
    promptId: string, rows: nat, elements: nat, divergence: Option<nat>, excluded: nat, gap: Option<real>,
    mean: real, rms: real, p50: real, p95: real, p99: real, p999: real, maximum: real, nonFinite: nat)

  datatype Aggregate = Aggregate(
    rows: nat, elements: nat, divergences: nat, mean: real, rms: real,
    p50: real, p95: real, p99: real, p999: real, maximum: real, nonFinite: nat)

  datatype Proposal = Proposal(l1: real, l2: real)

  const L1_LADDER: seq<real> := [
    0.0, 0.000244140625, 0.00048828125, 0.0009765625, 0.001953125, 0.00390625,
    0.0078125, 0.015625, 0.03125, 0.0625, 0.125]

  const L2_LADDER: seq<real> := L1_LADDER + [0.25, 0.5, 1.0]

  /** The prompts of an observation, in this order. */
  const CALIBRATION_IDS: seq<string> := ["canonical_01", "canonical_02", "canonical_03", "canonical_05a"]

  const COUNT_LIMIT: nat := 0xFFFF_FFFF
  const SIZE_LIMIT: nat := 0xFFFF_FFFF_FFFF_FFFF

  // -------------------------------------------------------------- per case

  predicate Ordered(p50: real, p95: real, p99: real, p999: real, maximum: real) {
    p50 <= p95 <= p99 <= p999 <= maximum
  }

  predicate GoodStatistics(c: Case) {
    && c.rows > 0 && c.elements > 0 && c.nonFinite == 0
    && Ordered(c.p50, c.p95, c.p99, c.p999, c.maximum) && c.p50 >= 0.0
    && 0.0 <= c.mean <= c.rms <= c.maximum
    && c.elements % c.rows == 0
  }

  predicate GoodDivergence(c: Case) {
    match (c.divergence, c.gap)
    case (Some(index), Some(gap)) => index + 1 == c.rows && gap >= 0.0
    case (None, None) => c.excluded == 0
    case _ => false
  }

  predicate GoodCase(c: Case) { GoodStatistics(c) && GoodDivergence(c) }

  // ------------------------------------------------------------ aggregates

  function Rows(cs: seq<Case>): nat { if cs == [] then 0 else Rows(cs[..|cs| - 1]) + cs[|cs| - 1].rows }

  function Elements(cs: seq<Case>): nat { if cs == [] then 0 else Elements(cs[..|cs| - 1]) + cs[|cs| - 1].elements }

  function Divergences(cs: seq<Case>): nat {
    if cs == [] then 0 else Divergences(cs[..|cs| - 1]) + if cs[|cs| - 1].gap.Some? then 1 else 0
  }

  function Weighted(x: real, c: Case): real { Product(x, c.elements as real) }

  /** Sum of the case means, weighted by their element counts. */
  function MeanSum(cs: seq<Case>): real {
    if cs == [] then 0.0 else MeanSum(cs[..|cs| - 1]) + Weighted(cs[|cs| - 1].mean, cs[|cs| - 1])
  }

  function SquareSum(cs: seq<Case>): real {
    if cs == [] then 0.0 else SquareSum(cs[..|cs| - 1]) + Weighted(Square(cs[|cs| - 1].rms), cs[|cs| - 1])
  }

  function Larger(x: real, y: real): real { if x < y then y else x }

  function MaxError(cs: seq<Case>): real {
    if cs == [] then 0.0 else Larger(MaxError(cs[..|cs| - 1]), cs[|cs| - 1].maximum)
  }

  function MaxGap(cs: seq<Case>): real {
    if cs == [] then 0.0
    else
      var before := MaxGap(cs[..|cs| - 1]);
      if cs[|cs| - 1].gap.Some? then Larger(before, cs[|cs| - 1].gap.value) else before
  }

  lemma Extend(cs: seq<Case>, i: nat)
    requires i < |cs|
    ensures var a, b, c := cs[..i], cs[..i + 1], cs[i];
      && Rows(b) == Rows(a) + c.rows && Elements(b) == Elements(a) + c.elements
      && Divergences(b) == Divergences(a) + (if c.gap.Some? then 1 else 0)
      && MeanSum(b) == MeanSum(a) + Weighted(c.mean, c) && SquareSum(b) == SquareSum(a) + Weighted(Square(c.rms), c)
      && MaxError(b) == Larger(MaxError(a), c.maximum)
      && MaxGap(b) == (if c.gap.Some? then Larger(MaxGap(a), c.gap.value) else MaxGap(a))
  {
    assert cs[..i + 1][..i] == cs[..i];
  }

  // ---------------------------------------------------------------- ladder

  predicate Ascending(ladder: seq<real>) {
    forall i, j :: 0 <= i < j < |ladder| ==> ladder[i] < ladder[j]
  }

  /** The first rung that covers the value. */
  function SmallestCovering(value: real, ladder: seq<real>): Option<real> {
    if ladder == [] then None
    else if value <= ladder[0] then Some(ladder[0])
    else SmallestCovering(value, ladder[1..])
  }

  /** `r` is a rung that covers the value, and no lower rung does. */
  ghost predicate IsLeastCover(value: real, ladder: seq<real>, r: real) {
    r in ladder && value <= r && forall i :: 0 <= i < |ladder| && value <= ladder[i] ==> r <= ladder[i]
  }

  lemma {:induction false} CoveringIsLeast(value: real, ladder: seq<real>)
    requires Ascending(ladder)
    ensures SmallestCovering(value, ladder).Some? ==> IsLeastCover(value, ladder, SmallestCovering(value, ladder).value)
    ensures SmallestCovering(value, ladder).None? ==> forall i :: 0 <= i < |ladder| ==> ladder[i] < value
  {
    if ladder != [] && value > ladder[0] {
      var rest := ladder[1..];
      CoveringIsLeast(value, rest);
      assert forall i :: 1 <= i < |ladder| ==> ladder[i] == rest[i - 1];
    }
  }

  // ------------------------------------------------------------- the check

  ghost predicate IsSquareRoot(sqrt: real -> real) {
    forall x :: x >= 0.0 ==> sqrt(x) >= 0.0 && Square(sqrt(x)) == x
  }

  predicate Close(left: real, right: real) {
    Abs(left - right) <= Larger(0.000000000000001, Abs(right) * 0.000000000001)
  }

  function PromptIds(cs: seq<Case>): seq<string> {
    seq(|cs|, i requires 0 <= i < |cs| => cs[i].promptId)
  }

  predicate ExactCases(cs: seq<Case>) { PromptIds(cs) == CALIBRATION_IDS }

  predicate AllGood(cs: seq<Case>) { forall i :: 0 <= i < |cs| ==> GoodCase(cs[i]) }

  /** Counts stay within the widths the totals are kept in. */
  predicate Countable(cs: seq<Case>) {
    && Rows(cs) <= SIZE_LIMIT
    && Elements(cs) <= COUNT_LIMIT
  }

  predicate GoodAggregate(cs: seq<Case>, a: Aggregate, sqrt: real -> real) {
    && Elements(cs) > 0
    && a.rows == Rows(cs) && a.elements == Elements(cs) && a.divergences == Divergences(cs) && a.nonFinite == 0
    && Close(a.mean, MeanSum(cs) / Elements(cs) as real)
    && Close(a.rms, sqrt(SquareSum(cs) / Elements(cs) as real))
    && a.maximum == MaxError(cs)
    && Ordered(a.p50, a.p95, a.p99, a.p999, a.maximum)
  }

  predicate GoodProposal(cs: seq<Case>, p: Proposal) {
    SmallestCovering(MaxGap(cs), L1_LADDER) == Some(p.l1) && SmallestCovering(MaxError(cs), L2_LADDER) == Some(p.l2)
  }

  predicate Accepted(cs: seq<Case>, a: Aggregate, p: Proposal, sqrt: real -> real) {
    ExactCases(cs) && AllGood(cs) && Countable(cs) && GoodAggregate(cs, a, sqrt) && GoodProposal(cs, p)
  }

  method FindCovering(value: real, ladder: seq<real>) returns (r: Option<real>)
    ensures r == SmallestCovering(value, ladder)
  {
    for i := 0 to |ladder|
      invariant SmallestCovering(value, ladder) == SmallestCovering(value, ladder[i..])
    {
      if value <= ladder[i] {
        return Some(ladder[i]);
      }
    }
    return None;
  }

  datatype Totals = Totals(
    rows: nat, elements: nat, divergences: nat, meanSum: real, squareSum: real, maximum: real, maximumGap: real)

  function TotalsOf(cs: seq<Case>): Totals {
    Totals(Rows(cs), Elements(cs), Divergences(cs), MeanSum(cs), SquareSum(cs), MaxError(cs), MaxGap(cs))
  }

  method AddCase(t: Totals, c: Case, ghost cs: seq<Case>, ghost i: nat) returns (r: Totals)
    requires i < |cs| && cs[i] == c && t == TotalsOf(cs[..i])
    ensures r == TotalsOf(cs[..i + 1])
  {
    Extend(cs, i);
    var diverged, gap := t.divergences, t.maximumGap;
    if c.gap.Some? {
      diverged, gap := diverged + 1, Larger(gap, c.gap.value);
    }
    r := Totals(t.rows + c.rows, t.elements + c.elements, diverged,
                t.meanSum + c.mean * c.elements as real, t.squareSum + c.rms * c.rms * c.elements as real,
                Larger(t.maximum, c.maximum), gap);
  }

  lemma {:induction false} CountsGrow(cs: seq<Case>, i: nat)
    requires i <= |cs|
    ensures Rows(cs[..i]) <= Rows(cs) && Elements(cs[..i]) <= Elements(cs)
    decreases |cs| - i
  {
    if i == |cs| {
      assert cs[..i] == cs;
    } else {
      CountsGrow(cs, i + 1);
      Extend(cs, i);
    }
  }

  /** The loop over the cases, with the overflow checks of the totals. */
  method Accumulate(cs: seq<Case>) returns (t: Option<Totals>)
    ensures t.Some? ==> AllGood(cs) && t.value == TotalsOf(cs) && Rows(cs) <= SIZE_LIMIT && Elements(cs) <= SIZE_LIMIT
    ensures t.None? ==> !AllGood(cs) || !Countable(cs)
  {
    var totals := Totals(0, 0, 0, 0.0, 0.0, 0.0, 0.0);
    for i := 0 to |cs|
      invariant totals == TotalsOf(cs[..i]) && totals.rows <= SIZE_LIMIT && totals.elements <= SIZE_LIMIT
      invariant forall k :: 0 <= k < i ==> GoodCase(cs[k])
    {
      var c := cs[i];
      CountsGrow(cs, i + 1);
      Extend(cs, i);
      if !GoodCase(c) || totals.rows + c.rows > SIZE_LIMIT || totals.elements + c.elements > SIZE_LIMIT
         || c.elements > COUNT_LIMIT {
        return None;
      }
      totals := AddCase(totals, c, cs, i);
    }
    assert cs[..|cs|] == cs;
    return Some(totals);
  }

  method ValidateObservation(cs: seq<Case>, a: Aggregate, p: Proposal, sqrt: real -> real) returns (ok: bool)
    ensures ok <==> Accepted(cs, a, p, sqrt)
  {
    if |cs| != |CALIBRATION_IDS| || PromptIds(cs) != CALIBRATION_IDS {
      return false;
    }
    var totals := Accumulate(cs);
    if totals.None? {
      return false;
    }
    var t := totals.value;
    if t.elements > COUNT_LIMIT || t.elements == 0 {
      return false;
    }
    var count := t.elements as real;
    if a.rows != t.rows || a.elements != t.elements || a.divergences != t.divergences || a.nonFinite != 0
       || !Close(a.mean, t.meanSum / count) || !Close(a.rms, sqrt(t.squareSum / count))
       || a.maximum != t.maximum || !Ordered(a.p50, a.p95, a.p99, a.p999, a.maximum) {
      return false;
    }
    var l1 := FindCovering(t.maximumGap, L1_LADDER);
    var l2 := FindCovering(t.maximum, L2_LADDER);
    return l1 == Some(p.l1) && l2 == Some(p.l2);
  }

  // ---------------------------------------------------------- consequences

  lemma {:induction false} ErrorsCovered(cs: seq<Case>)
    requires AllGood(cs)
    ensures MaxError(cs) >= 0.0 && MaxGap(cs) >= 0.0
    ensures forall i :: 0 <= i < |cs| ==> cs[i].maximum <= MaxError(cs)
    ensures forall i :: 0 <= i < |cs| && cs[i].gap.Some? ==> cs[i].gap.value <= MaxGap(cs)
    ensures MaxError(cs) == 0.0 || exists i :: 0 <= i < |cs| && cs[i].maximum == MaxError(cs)
    ensures MaxGap(cs) == 0.0 || exists i :: 0 <= i < |cs| && cs[i].gap == Some(MaxGap(cs))
  {
    if cs != [] {
      var init, last := cs[..|cs| - 1], cs[|cs| - 1];
      ErrorsCovered(init);
      assert forall i :: 0 <= i < |init| ==> init[i] == cs[i];
      assert GoodCase(last);
    }
  }

  /** A tolerance covers every divergence gap. */
  ghost predicate CoversGaps(cs: seq<Case>, t: real) {
    forall i :: 0 <= i < |cs| && cs[i].gap.Some? ==> cs[i].gap.value <= t
  }

  ghost predicate CoversErrors(cs: seq<Case>, t: real) {
    forall i :: 0 <= i < |cs| ==> cs[i].maximum <= t
  }

  ghost predicate IsLadder(ladder: seq<real>) {
    Ascending(ladder) && forall i :: 0 <= i < |ladder| ==> ladder[i] >= 0.0
  }

  lemma Ladders()
    ensures IsLadder(L1_LADDER) && IsLadder(L2_LADDER)
  {
  }

  ghost predicate LeastForGaps(cs: seq<Case>, ladder: seq<real>, r: real) {
    && r in ladder && CoversGaps(cs, r)
    && forall i :: 0 <= i < |ladder| && CoversGaps(cs, ladder[i]) ==> r <= ladder[i]
  }

  ghost predicate LeastForErrors(cs: seq<Case>, ladder: seq<real>, r: real) {
    && r in ladder && CoversErrors(cs, r)
    && forall i :: 0 <= i < |ladder| && CoversErrors(cs, ladder[i]) ==> r <= ladder[i]
  }

  lemma GapRung(cs: seq<Case>, ladder: seq<real>, r: real)
    requires AllGood(cs) && IsLadder(ladder) && SmallestCovering(MaxGap(cs), ladder) == Some(r)
    ensures LeastForGaps(cs, ladder, r)
  {
    ErrorsCovered(cs);
    CoveringIsLeast(MaxGap(cs), ladder);
  }

  lemma ErrorRung(cs: seq<Case>, ladder: seq<real>, r: real)
    requires AllGood(cs) && IsLadder(ladder) && SmallestCovering(MaxError(cs), ladder) == Some(r)
    ensures LeastForErrors(cs, ladder, r)
  {
    ErrorsCovered(cs);
    CoveringIsLeast(MaxError(cs), ladder);
  }

  /** An accepted proposal is the pair of least rungs that cover every gap and every error. */
  lemma ProposalIsLeast(cs: seq<Case>, a: Aggregate, p: Proposal, sqrt: real -> real)
    requires Accepted(cs, a, p, sqrt)
    ensures LeastForGaps(cs, L1_LADDER, p.l1) && LeastForErrors(cs, L2_LADDER, p.l2)
  {
    Ladders();
    GapRung(cs, L1_LADDER, p.l1);
    ErrorRung(cs, L2_LADDER, p.l2);
  }

  /** The cross term of the weighted Cauchy–Schwarz inequality. */
  lemma CrossTerm(a: real, b: real, c: real, m: real)
    requires Square(a) <= Product(b, c) && b >= 0.0 && c >= 0.0
    requires c == 0.0 ==> a == 0.0
    ensures 2.0 * Product(a, m) <= b + Product(Square(m), c)
  {
    if c > 0.0 {
      SquareNonNegative(a - m * c);
      assert Square(a - m * c) == Square(a) - (2.0 * a * m) * c + Square(m) * c * c;
      assert (2.0 * a * m) * c <= (b + Square(m) * c) * c;
      if 2.0 * a * m > b + Square(m) * c {
        StrictScale(b + Square(m) * c, 2.0 * a * m, c);
      }
    }
  }

  lemma Expand(a: real, b: real, c: real, m: real, w: real)
    ensures Square(a + Product(m, w)) == Square(a) + Product(2.0 * Product(a, m), w) + Product(Product(Square(m), w), w)
    ensures Product(b + Product(Square(m), w), c + w)
         == Product(b, c) + Product(b + Product(Square(m), c), w) + Product(Product(Square(m), w), w)
  {
  }

  /** One step of the weighted Cauchy–Schwarz inequality. */
  lemma CauchyStep(a: real, b: real, c: real, m: real, w: real)
    requires Square(a) <= Product(b, c) && b >= 0.0 && c >= 0.0 && w >= 0.0
    requires c == 0.0 ==> a == 0.0
    ensures Square(a + Product(m, w)) <= Product(b + Product(Square(m), w), c + w)
  {
    CrossTerm(a, b, c, m);
    ScaleOrder(2.0 * Product(a, m), b + Product(Square(m), c), w);
    Expand(a, b, c, m, w);
  }

  lemma MeanStep(a: real, b: real, c: real, m: real, r: real, w: real)
    requires Square(a) <= Product(b, c) && b >= 0.0 && c >= 0.0 && w >= 0.0 && 0.0 <= m <= r
    requires c == 0.0 ==> a == 0.0
    ensures Square(a + Product(m, w)) <= Product(b + Product(Square(r), w), c + w)
  {
    CauchyStep(a, b, c, m, w);
    SquareOrder(m, r);
    ScaleOrder(Square(m), Square(r), w);
    ScaleOrder(b + Product(Square(m), w), b + Product(Square(r), w), c + w);
  }

  lemma MaxStep(b: real, c: real, top: real, r: real, x: real, w: real)
    requires b <= Product(Square(top), c) && c >= 0.0 && w >= 0.0 && 0.0 <= top && 0.0 <= r <= x
    ensures b + Product(Square(r), w) <= Product(Square(Larger(top, x)), c + w)
  {
    var n := Larger(top, x);
    SquareOrder(top, n);
    SquareOrder(r, n);
    ScaleOrder(Square(top), Square(n), c);
    ScaleOrder(Square(r), Square(n), w);
    assert Product(Square(n), c + w) == Product(Square(n), c) + Product(Square(n), w);
  }

  /** The invariant of the weighted sums, in terms of their values. */
  ghost predicate Bounded(a: real, b: real, c: real, top: real) {
    && Square(a) <= Product(b, c) && 0.0 <= b <= Product(Square(top), c)
    && a >= 0.0 && c >= 0.0 && top >= 0.0 && (c == 0.0 ==> a == 0.0)
  }

  lemma BoundedStep(a: real, b: real, c: real, top: real, m: real, r: real, x: real, w: real)
    requires Bounded(a, b, c, top) && w > 0.0 && 0.0 <= m <= r <= x
    ensures Bounded(a + Product(m, w), b + Product(Square(r), w), c + w, Larger(top, x))
  {
    MeanStep(a, b, c, m, r, w);
    MaxStep(b, c, top, r, x, w);
    SquareNonNegative(r);
    ScaleOrder(0.0, Square(r), w);
    ScaleOrder(0.0, m, w);
  }

  lemma {:induction false} SumsBounded(cs: seq<Case>)
    requires AllGood(cs)
    ensures Bounded(MeanSum(cs), SquareSum(cs), Elements(cs) as real, MaxError(cs))
  {
    if cs != [] {
      var init, last := cs[..|cs| - 1], cs[|cs| - 1];
      assert GoodCase(last);
      SumsBounded(init);
      BoundedStep(MeanSum(init), SquareSum(init), Elements(init) as real, MaxError(init),
                  last.mean, last.rms, last.maximum, last.elements as real);
      assert Elements(cs) as real == Elements(init) as real + last.elements as real;
    }
  }

  lemma MeanSquareOrder(a: real, b: real, c: real, top: real)
    requires Bounded(a, b, c, top) && c > 0.0
    ensures a / c >= 0.0 && Square(a / c) <= b / c <= Square(top)
  {
    Divide(b, Square(top), c);
    var mean, square := a / c, b / c;
    assert a == mean * c && b == square * c;
    assert Square(a) == (Square(mean) * c) * c;
    assert ((Square(mean) * c) * c) / c == Square(mean) * c;
    Divide((Square(mean) * c) * c, b, c);
    if Square(mean) > square {
      StrictScale(square, Square(mean), c);
    }
  }

  /**
   For any number of good cases, the recomputed aggregate keeps the order mean, root mean square,
   maximum, which the check never tests.
   */
  lemma AggregateOrdered(cs: seq<Case>, sqrt: real -> real)
    requires AllGood(cs) && cs != [] && IsSquareRoot(sqrt)
    ensures Elements(cs) > 0
    ensures var n := Elements(cs) as real;
      && Square(MeanSum(cs) / n) <= SquareSum(cs) / n <= Square(MaxError(cs))
      && 0.0 <= MeanSum(cs) / n <= sqrt(SquareSum(cs) / n) <= MaxError(cs)
  {
    SumsBounded(cs);
    assert GoodCase(cs[|cs| - 1]);
    var n := Elements(cs) as real;
    MeanSquareOrder(MeanSum(cs), SquareSum(cs), n, MaxError(cs));
    SquareNonNegative(MeanSum(cs) / n);
    RootOrder(MeanSum(cs) / n, sqrt(SquareSum(cs) / n));
    RootOrder(sqrt(SquareSum(cs) / n), MaxError(cs));
  }

  // ------------------------------------------------------------ percentiles

  function WithPercentiles(a: Aggregate, p50: real, p95: real, p99: real, p999: real): Aggregate {
    a.(p50 := p50, p95 := p95, p99 := p99, p999 := p999)
  }

  /**
   All the check demands of the aggregate percentiles is their order below the largest error:
   any other ordered values are accepted in their place, and no others are.
   */
  lemma PercentilesExact(cs: seq<Case>, a: Aggregate, p: Proposal, sqrt: real -> real,
                         p50: real, p95: real, p99: real, p999: real)
    requires Accepted(cs, a, p, sqrt)
    ensures Accepted(cs, WithPercentiles(a, p50, p95, p99, p999), p, sqrt)
       <==> p50 <= p95 <= p99 <= p999 <= MaxError(cs)
  {
  }

  /** The aggregate as recomputed, with freely chosen percentiles. */
  function Recomputed(cs: seq<Case>, sqrt: real -> real, p50: real, p95: real, p99: real, p999: real): Aggregate
    requires Elements(cs) > 0
  {
    var n := Elements(cs) as real;
    Aggregate(Rows(cs), Elements(cs), Divergences(cs), MeanSum(cs) / n, sqrt(SquareSum(cs) / n),
              p50, p95, p99, p999, MaxError(cs), 0)
  }

  lemma CloseToItself(x: real)
    ensures Close(x, x)
  {
  }

  /**
   The percentiles have no lower bound: whatever admissible cases were measured, an aggregate with a
   median error as far below zero as one likes is accepted.
   */
  lemma NegativePercentileAccepted(cs: seq<Case>, p: Proposal, sqrt: real -> real, x: real)
    requires ExactCases(cs) && AllGood(cs) && Countable(cs) && GoodProposal(cs, p) && x <= 0.0
    ensures Elements(cs) > 0 && Accepted(cs, Recomputed(cs, sqrt, x, 0.0, 0.0, 0.0), p, sqrt)
  {
    assert GoodCase(cs[|cs| - 1]);
    assert MaxError(cs) >= 0.0 by { ErrorsCovered(cs); }
    var n := Elements(cs) as real;
    CloseToItself(MeanSum(cs) / n);
    CloseToItself(sqrt(SquareSum(cs) / n));
  }

  function FlatCase(id: string): Case {
    Case(id, 1, 1, None, 0, None, 0.0, 0.0, 0.0, 0.0, 0.0, 0.0, 0.0, 0)
  }

  /** Four cases without any error are admissible, so such an observation exists. */
  lemma AdmissibleCasesExist()
    ensures exists cs, p :: ExactCases(cs) && AllGood(cs) && Countable(cs) && GoodProposal(cs, p)
  {
    var cs := seq(4, i requires 0 <= i < 4 => FlatCase(CALIBRATION_IDS[i]));
    assert PromptIds(cs) == CALIBRATION_IDS;
    FlatTotals(cs, 4);
    assert cs[..4] == cs;
    assert SmallestCovering(0.0, L1_LADDER) == Some(0.0) && SmallestCovering(0.0, L2_LADDER) == Some(0.0);
    assert GoodProposal(cs, Proposal(0.0, 0.0));
  }

  lemma {:induction false} FlatTotals(cs: seq<Case>, n: nat)
    requires n <= |cs| && forall i :: 0 <= i < |cs| ==> cs[i] == FlatCase(cs[i].promptId)
    ensures Rows(cs[..n]) == Elements(cs[..n]) == n && MaxError(cs[..n]) == 0.0 && MaxGap(cs[..n]) == 0.0
  {
    if n > 0 {
      FlatTotals(cs, n - 1);
      Extend(cs, n - 1);
    }
  }
}
