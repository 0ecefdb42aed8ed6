/**
 What the L1 and L2 verdicts depend on, and how they agree.
 */
module SharedPrefixLaws {
  import opened Options
  import opened Numbers
  import opened SharedPrefix

  /** The runs diverge, and have the same tokens up to and including the divergence. */
  ghost predicate SameHistory(e1: seq<int>, a1: seq<int>, e2: seq<int>, a2: seq<int>) {
    var p := Agreement(e1, a1);
    && p < |e1| && p < |a1| && p < |e2| && p < |a2|
    && e1[..p + 1] == e2[..p + 1] && a1[..p + 1] == a2[..p + 1]
  }

  lemma HistoryAgrees(e1: seq<int>, a1: seq<int>, e2: seq<int>, a2: seq<int>)
    requires SameHistory(e1, a1, e2, a2)
    ensures Agreement(e2, a2) == Agreement(e1, a1)
    ensures var p := Agreement(e1, a1); e1[p] == e2[p] && a1[p] == a2[p] && Matches(e1, p) == Matches(e2, p)
  {
    var p := Agreement(e1, a1);
    assert forall i :: 0 <= i <= p ==> e1[i] == e1[..p + 1][i] == e2[i] && a1[i] == a1[..p + 1][i] == a2[i];
    AgreementIs(e2, a2, p);
  }

  /** Everything in an L1 result but the position counts that depend on the lengths. */
  function Core1(r: L1Result): (bool, nat, nat, nat, nat, Option<nat>, seq<Detail>) {
    (r.passed, r.compared, r.exact, r.nearTies, r.mismatches, r.divergence, r.details)
  }

  /** Two-run law: nothing after the first divergent token reaches the L1 verdict. */
  lemma L1IgnoresLaterTokens(e1: seq<int>, a1: seq<int>, l1: seq<Value>, e2: seq<int>, a2: seq<int>, l2: seq<Value>,
                             vocab: nat, tolerance: real)
    requires SameHistory(e1, a1, e2, a2)
    requires var m := (Agreement(e1, a1) + 1) * vocab; m <= |l1| && m <= |l2| && l1[..m] == l2[..m]
    ensures var r1 := L1(e1, a1, Classifying(Some((l1, vocab)), tolerance));
      var r2 := L1(e2, a2, Classifying(Some((l2, vocab)), tolerance));
      r1.Some? == r2.Some? && (r1.Some? ==> Core1(r1.value) == Core1(r2.value))
  {
    HistoryAgrees(e1, a1, e2, a2);
    SameGap(l1, l2, vocab, Agreement(e1, a1), e1[Agreement(e1, a1)], a1[Agreement(e1, a1)]);
  }

  lemma SameGap(l1: seq<Value>, l2: seq<Value>, vocab: nat, p: nat, e: int, a: int)
    requires (p + 1) * vocab <= |l1| && (p + 1) * vocab <= |l2| && l1[..(p + 1) * vocab] == l2[..(p + 1) * vocab]
    ensures CandidateGap(l1, vocab, p, e, a) == CandidateGap(l2, vocab, p, e, a)
  {
    var m := (p + 1) * vocab;
    assert m == p * vocab + vocab;
    if 0 <= e < vocab && 0 <= a < vocab {
      assert l1[p * vocab + e] == l1[..m][p * vocab + e] == l2[p * vocab + e];
      assert l1[p * vocab + a] == l1[..m][p * vocab + a] == l2[p * vocab + a];
    }
  }

  lemma {:induction false} CountsLocal(e1: seq<Value>, a1: seq<Value>, e2: seq<Value>, a2: seq<Value>, tolerance: real, m: nat)
    requires m <= |e1| && m <= |a1| && m <= |e2| && m <= |a2| && e1[..m] == e2[..m] && a1[..m] == a2[..m]
    ensures Exceeding(e1, a1, tolerance, m) == Exceeding(e2, a2, tolerance, m)
    ensures Largest(e1, a1, m) == Largest(e2, a2, m)
  {
    if m > 0 {
      assert e1[..m][m - 1] == e2[..m][m - 1] && a1[..m][m - 1] == a2[..m][m - 1];
      assert e1[..m - 1] == e1[..m][..m - 1] && e2[..m - 1] == e2[..m][..m - 1];
      assert a1[..m - 1] == a1[..m][..m - 1] && a2[..m - 1] == a2[..m][..m - 1];
      CountsLocal(e1, a1, e2, a2, tolerance, m - 1);
    }
  }

  function Core2(r: L2Result): (bool, nat, Option<nat>, nat, Magnitude, nat) {
    (r.passed, r.compared, r.divergence, r.elements, r.largest, r.exceeding)
  }

  /** Two-run law: nothing after the first divergent row reaches the L2 verdict. */
  lemma L2IgnoresLaterRows(f1: Reference, l1: seq<Value>, t1: seq<int>, f2: Reference, l2: seq<Value>, t2: seq<int>,
                           tolerance: real)
    requires Comparable(f1, l1, t1, tolerance) && Comparable(f2, l2, t2, tolerance) && f1.shape.1 == f2.shape.1
    requires SameHistory(f1.tokens, t1, f2.tokens, t2)
    requires var m := (Agreement(f1.tokens, t1) + 1) * f1.shape.1;
      && m <= |l1| && m <= |l2| && l1[..m] == l2[..m]
      && m <= |f1.logits.value| && m <= |f2.logits.value| && f1.logits.value[..m] == f2.logits.value[..m]
    ensures Core2(L2(f1, l1, t1, tolerance).value) == Core2(L2(f2, l2, t2, tolerance).value)
  {
    HistoryAgrees(f1.tokens, t1, f2.tokens, t2);
    CountsLocal(f1.logits.value, l1, f2.logits.value, l2, tolerance, (Agreement(f1.tokens, t1) + 1) * f1.shape.1);
  }

  /** With one row per token the row of a position exists, so only a token outside it can fail. */
  lemma RowExists(logits: seq<Value>, vocab: nat, n: nat, p: nat, e: int, a: int)
    requires n * vocab == |logits| && p < n
    ensures CandidateGap(logits, vocab, p, e, a) != NoRow
    ensures CandidateGap(logits, vocab, p, e, a) == OutsideRow <==> !(0 <= e < vocab && 0 <= a < vocab)
  {
    RowsFit(p + 1, n, vocab, |logits|);
    assert (p + 1) * vocab == p * vocab + vocab;
  }

  predicate Named(vocab: nat, e: int, a: int) { 0 <= e < vocab && 0 <= a < vocab }

  /** Both layers compare the same positions and report the same divergence within the common length. */
  lemma LayersAgree(f: Reference, logits: seq<Value>, tokens: seq<int>, gap: real, tolerance: real)
    requires Comparable(f, logits, tokens, tolerance)
    ensures var r1 := L1(f.tokens, tokens, Classifying(Some((logits, f.shape.1)), gap));
      var p, n := Agreement(f.tokens, tokens), Min(|f.tokens|, |tokens|);
      var r2 := L2(f, logits, tokens, tolerance).value;
      && (r1.None? <==> (p < n && !Named(f.shape.1, f.tokens[p], tokens[p])))
      && (r1.Some? ==> r1.value.compared == r2.compared)
      && (r1.Some? ==> r2.divergence == Within(r1.value.divergence, n))
  {
    var p, n := Agreement(f.tokens, tokens), Min(|f.tokens|, |tokens|);
    L2Shape(f, logits, tokens, tolerance);
    if p < n {
      RowExists(logits, f.shape.1, |tokens|, p, f.tokens[p], tokens[p]);
    }
  }

  function Within(divergence: Option<nat>, n: nat): Option<nat> {
    if divergence.Some? && divergence.value < n then divergence else None
  }

  lemma L2Shape(f: Reference, logits: seq<Value>, tokens: seq<int>, tolerance: real)
    requires Comparable(f, logits, tokens, tolerance)
    ensures var r := L2(f, logits, tokens, tolerance).value; var p, n := Agreement(f.tokens, tokens), Min(|f.tokens|, |tokens|);
      r.compared == ComparedSteps(f.tokens, tokens) && r.divergence == if p < n then Some(p) else None
  {
  }

  /** Raising the gap tolerance keeps a pass and moves nothing else. */
  lemma L1Monotone(expected: seq<int>, actual: seq<int>, logits: Option<(seq<Value>, nat)>, low: real, high: real)
    requires low <= high
    ensures var r := L1(expected, actual, Classifying(logits, low)); var s := L1(expected, actual, Classifying(logits, high));
      && r.Some? == s.Some?
      && (r.Some? && r.value.passed ==> s.value.passed)
      && (r.Some? ==> r.value.compared == s.value.compared && r.value.divergence == s.value.divergence)
  {
    var p := Agreement(expected, actual);
    if p < Min(|expected|, |actual|) {
      assert Classifying(logits, low)(p, expected[p], actual[p]) == Classify(logits, low, p, expected[p], actual[p]);
      assert Classifying(logits, high)(p, expected[p], actual[p]) == Classify(logits, high, p, expected[p], actual[p]);
    }
  }

  lemma {:induction false} ExceedingAntitone(e: seq<Value>, a: seq<Value>, low: real, high: real, m: nat)
    requires m <= |e| && m <= |a| && low <= high
    ensures Exceeding(e, a, high, m) <= Exceeding(e, a, low, m)
  {
    if m > 0 {
      ExceedingAntitone(e, a, low, high, m - 1);
    }
  }

  lemma L2Monotone(f: Reference, logits: seq<Value>, tokens: seq<int>, low: real, high: real)
    requires 0.0 <= low <= high
    ensures var r := L2(f, logits, tokens, low); var s := L2(f, logits, tokens, high);
      && r.Some? == s.Some?
      && (r.Some? && r.value.passed ==> s.value.passed)
      && (r.Some? ==> s.value.exceeding <= r.value.exceeding && r.value.compared == s.value.compared)
      && (r.Some? ==> r.value.divergence == s.value.divergence && r.value.largest == s.value.largest)
  {
    if Comparable(f, logits, tokens, low) {
      var c := ComparedSteps(f.tokens, tokens);
      RowsFit(c, |f.tokens|, f.shape.1, |f.logits.value|);
      RowsFit(c, |tokens|, f.shape.1, |logits|);
      ExceedingAntitone(f.logits.value, logits, low, high, c * f.shape.1);
    }
  }

  /** Counting the exceeding elements and bounding the largest difference are the same test. */
  lemma {:induction false} LargestDecides(e: seq<Value>, a: seq<Value>, tolerance: real, m: nat)
    requires m <= |e| && m <= |a| && tolerance >= 0.0
    ensures Exceeding(e, a, tolerance, m) == 0 <==> Largest(e, a, m).Bounded? && Largest(e, a, m).value <= tolerance
    ensures Largest(e, a, m).Bounded? ==> Largest(e, a, m).value >= 0.0
  {
    if m > 0 {
      LargestDecides(e, a, tolerance, m - 1);
    }
  }

  /** L2 passes exactly when the largest difference it reports is within the tolerance. */
  lemma L2PassesByLargest(f: Reference, logits: seq<Value>, tokens: seq<int>, tolerance: real)
    requires Comparable(f, logits, tokens, tolerance)
    ensures var r := L2(f, logits, tokens, tolerance).value;
      r.passed <==> r.largest.Bounded? && r.largest.value <= tolerance
  {
    var c := ComparedSteps(f.tokens, tokens);
    RowsFit(c, |f.tokens|, f.shape.1, |f.logits.value|);
    RowsFit(c, |tokens|, f.shape.1, |logits|);
    LargestDecides(f.logits.value, logits, tolerance, c * f.shape.1);
  }
}
