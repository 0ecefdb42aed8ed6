/**
 The token comparison (L1) and the logit comparison (L2) of a generated sequence with a
 reference.  Both stop at the first divergent token, because later rows have other histories.
 */
module SharedPrefix {
  import opened Options
  import opened Numbers
  import CaptureWire

  type Value = CaptureWire.Value

  /** Number of leading positions at which both sequences hold the same token. */
  function Agreement(expected: seq<int>, actual: seq<int>): (p: nat)
    ensures p <= |expected| && p <= |actual|
    ensures forall i :: 0 <= i < p ==> expected[i] == actual[i]
    ensures p < |expected| && p < |actual| ==> expected[p] != actual[p]
  {
    if expected == [] || actual == [] || expected[0] != actual[0] then 0
    else 1 + Agreement(expected[1..], actual[1..])
  }

  lemma AgreementIs(expected: seq<int>, actual: seq<int>, p: nat)
    requires p <= |expected| && p <= |actual|
    requires forall i :: 0 <= i < p ==> expected[i] == actual[i]
    requires p == |expected| || p == |actual| || expected[p] != actual[p]
    ensures Agreement(expected, actual) == p
  {
    var q := Agreement(expected, actual);
  }

  // --------------------------------------------------------------------- L1

  datatype Detail =
    | Match(position: nat, token: int)
    | NearTie(position: nat, expected: int, actual: int, gap: real)
    | Mismatch(position: nat, expected: int, actual: int)

  datatype L1Result = L1Result(
    passed: bool, total: nat, compared: nat, exact: nat, nearTies: nat, mismatches: nat,
    divergence: Option<nat>, excluded: nat, details: seq<Detail>)

  datatype Verdict = Same | Tied(gap: real) | Different | Failed

  type Classifier = (nat, int, int) -> Verdict

  /** A classifier calls tokens the same exactly when they are. */
  ghost predicate Faithful(classify: Classifier) {
    forall i, e, a :: classify(i, e, a) == Same <==> e == a
  }

  function Matches(tokens: seq<int>, n: nat): seq<Detail>
    requires n <= |tokens|
  {
    seq(n, i requires 0 <= i < n => Match(i, tokens[i]))
  }

  /** The result of the comparison, from the length of the agreement and the verdict on what follows it. */
  function L1(expected: seq<int>, actual: seq<int>, classify: Classifier): Option<L1Result> {
    var n, p, total := Min(|expected|, |actual|), Agreement(expected, actual), Max(|expected|, |actual|);
    if p == n then
      var cut := |expected| != |actual|;
      Some(L1Result(!cut, total, n, n, 0, if cut then 1 else 0, if cut then Some(n) else None, total - n,
                    Matches(expected, n)))
    else
      match classify(p, expected[p], actual[p])
      case Failed => None
      case Same => None
      case Tied(gap) =>
        Some(L1Result(true, total, p + 1, p, 1, 0, Some(p), total - (p + 1),
                      Matches(expected, p) + [NearTie(p, expected[p], actual[p], gap)]))
      case Different =>
        Some(L1Result(false, total, p + 1, p, 0, 1, Some(p), total - (p + 1),
                      Matches(expected, p) + [Mismatch(p, expected[p], actual[p])]))
  }

  method CompareTokensLoop(expected: seq<int>, actual: seq<int>, classify: Classifier) returns (r: Option<L1Result>)
    requires Faithful(classify)
    ensures r == L1(expected, actual, classify)
  {
    var n := Min(|expected|, |actual|);
    var details, exact, nearTies, mismatches := [], 0, 0, 0;
    var divergence: Option<nat> := None;
    for i := 0 to n
      invariant divergence == None && nearTies == 0 && mismatches == 0 && exact == i
      invariant details == Matches(expected, i)
      invariant forall k :: 0 <= k < i ==> expected[k] == actual[k]
    {
      var e, a := expected[i], actual[i];
      match classify(i, e, a) {
        case Failed =>
          AgreementIs(expected, actual, i);
          return None;
        case Same =>
          exact := exact + 1;
          details := details + [Match(i, e)];
        case Tied(gap) =>
          AgreementIs(expected, actual, i);
          nearTies, divergence := nearTies + 1, Some(i);
          details := details + [NearTie(i, e, a, gap)];
          break;
        case Different =>
          AgreementIs(expected, actual, i);
          mismatches, divergence := mismatches + 1, Some(i);
          details := details + [Mismatch(i, e, a)];
          break;
      }
    }
    var total := Max(|expected|, |actual|);
    if divergence == None {
      AgreementIs(expected, actual, n);
      if |expected| != |actual| {
        divergence, mismatches := Some(n), mismatches + 1;
      }
    }
    return Some(L1Result(mismatches == 0, total, |details|, exact, nearTies, mismatches, divergence,
                         total - |details|, details));
  }

  // ---------------------------------------------------------- classification

  datatype Gap = NoRow | OutsideRow | Unordered | Distance(value: real)

  /** Absolute gap between two candidates in the row of a position. */
  function CandidateGap(logits: seq<Value>, vocab: nat, position: nat, expected: int, actual: int): Gap {
    var start := position * vocab;
    if start + vocab > |logits| then NoRow
    else if !(0 <= expected < vocab) || !(0 <= actual < vocab) then OutsideRow
    else
      assert 0 <= start + expected < |logits| && 0 <= start + actual < |logits|;
      var e, a := logits[start + expected], logits[start + actual];
      if e.Finite? && a.Finite? then Distance(Abs(a.value - e.value)) else Unordered
  }

  function Classify(logits: Option<(seq<Value>, nat)>, tolerance: real, i: nat, expected: int, actual: int): Verdict {
    if expected == actual then Same
    else if logits.None? then Different
    else match CandidateGap(logits.value.0, logits.value.1, i, expected, actual)
      case NoRow => Failed
      case OutsideRow => Failed
      case Unordered => Different
      case Distance(gap) => if gap <= tolerance then Tied(gap) else Different
  }

  function Classifying(logits: Option<(seq<Value>, nat)>, tolerance: real): Classifier {
    (i: nat, e: int, a: int) => Classify(logits, tolerance, i, e, a)
  }

  method CompareL1(expected: seq<int>, actual: seq<int>, logits: Option<(seq<Value>, nat)>, tolerance: real)
    returns (r: Option<L1Result>)
    ensures r == L1(expected, actual, Classifying(logits, tolerance))
  {
    r := CompareTokensLoop(expected, actual, Classifying(logits, tolerance));
  }

  // --------------------------------------------------------------------- L2

  /** A largest difference, infinite once a value is not finite. */
  datatype Magnitude = Bounded(value: real) | Infinite

  datatype L2Result = L2Result(
    passed: bool, compared: nat, divergence: Option<nat>, excluded: nat, elements: nat, largest: Magnitude, exceeding: nat)

  datatype Reference = Reference(numTokens: nat, tokens: seq<int>, logits: Option<seq<Value>>, shape: (nat, nat))

  predicate Exceeds(e: Value, a: Value, tolerance: real) {
    !e.Finite? || !a.Finite? || Abs(a.value - e.value) > tolerance
  }

  /** Elements among the first `m` that are farther apart than the tolerance. */
  function Exceeding(e: seq<Value>, a: seq<Value>, tolerance: real, m: nat): nat
    requires m <= |e| && m <= |a|
  {
    if m == 0 then 0
    else Exceeding(e, a, tolerance, m - 1) + if Exceeds(e[m - 1], a[m - 1], tolerance) then 1 else 0
  }

  function Larger(x: Magnitude, e: Value, a: Value): Magnitude {
    if !e.Finite? || !a.Finite? then Infinite
    else if x.Bounded? && Abs(a.value - e.value) > x.value then Bounded(Abs(a.value - e.value))
    else x
  }

  function Largest(e: seq<Value>, a: seq<Value>, m: nat): Magnitude
    requires m <= |e| && m <= |a|
  {
    if m == 0 then Bounded(0.0) else Larger(Largest(e, a, m - 1), e[m - 1], a[m - 1])
  }

  predicate Comparable(f: Reference, logits: seq<Value>, tokens: seq<int>, tolerance: real) {
    && f.logits.Some? && f.numTokens > 0 && f.shape.1 > 0 && f.shape.0 == f.numTokens && |f.tokens| == f.numTokens
    && f.numTokens * f.shape.1 == |f.logits.value|
    && tokens != [] && |tokens| * f.shape.1 == |logits|
    && tolerance >= 0.0
  }

  /** Rows compared: the agreement, and the row that selects the first divergent token. */
  function ComparedSteps(expected: seq<int>, actual: seq<int>): (c: nat)
    ensures c <= |expected| && c <= |actual|
  {
    var n, p := Min(|expected|, |actual|), Agreement(expected, actual);
    if p < n then p + 1 else n
  }

  lemma RowsFit(c: nat, n: nat, vocab: nat, length: nat)
    requires c <= n && n * vocab == length
    ensures c * vocab <= length
  {
    assert n * vocab == c * vocab + (n - c) * vocab;
  }

  function L2(f: Reference, logits: seq<Value>, tokens: seq<int>, tolerance: real): Option<L2Result> {
    if !Comparable(f, logits, tokens, tolerance) then None
    else
      var n, p, c := Min(|f.tokens|, |tokens|), Agreement(f.tokens, tokens), ComparedSteps(f.tokens, tokens);
      RowsFit(c, |f.tokens|, f.shape.1, |f.logits.value|);
      RowsFit(c, |tokens|, f.shape.1, |logits|);
      var m := c * f.shape.1;
      var count := Exceeding(f.logits.value, logits, tolerance, m);
      Some(L2Result(count == 0, c, if p < n then Some(p) else None, n - c, m, Largest(f.logits.value, logits, m), count))
  }

  /** One row of logits. */
  method CompareRow(e: seq<Value>, a: seq<Value>, tolerance: real, start: nat, vocab: nat, largest: Magnitude, exceeding: nat)
    returns (l: Magnitude, x: nat)
    requires start + vocab <= |e| && start + vocab <= |a|
    requires largest == Largest(e, a, start) && exceeding == Exceeding(e, a, tolerance, start)
    ensures l == Largest(e, a, start + vocab) && x == Exceeding(e, a, tolerance, start + vocab)
  {
    l, x := largest, exceeding;
    for j := 0 to vocab
      invariant l == Largest(e, a, start + j) && x == Exceeding(e, a, tolerance, start + j)
    {
      var expected, actual := e[start + j], a[start + j];
      if !actual.Finite? || !expected.Finite? {
        l, x := Infinite, x + 1;
        continue;
      }
      var diff := Abs(actual.value - expected.value);
      if l.Bounded? && diff > l.value {
        l := Bounded(diff);
      }
      if diff > tolerance {
        x := x + 1;
      }
    }
  }

  method CompareL2(f: Reference, logits: seq<Value>, tokens: seq<int>, tolerance: real) returns (r: Option<L2Result>)
    ensures r == L2(f, logits, tokens, tolerance)
  {
    if !Comparable(f, logits, tokens, tolerance) {
      return None;
    }
    var e, vocab, n := f.logits.value, f.shape.1, Min(|f.tokens|, |tokens|);
    var compared, exceeding, largest := 0, 0, Bounded(0.0);
    var divergence: Option<nat> := None;
    for step := 0 to n
      invariant compared == step && divergence == None
      invariant forall k :: 0 <= k < step ==> f.tokens[k] == tokens[k]
      invariant step * vocab <= |e| && step * vocab <= |logits|
      invariant largest == Largest(e, logits, step * vocab) && exceeding == Exceeding(e, logits, tolerance, step * vocab)
    {
      compared := compared + 1;
      assert (step + 1) * vocab == step * vocab + vocab;
      RowsFit(step + 1, |f.tokens|, vocab, |e|);
      RowsFit(step + 1, |tokens|, vocab, |logits|);
      largest, exceeding := CompareRow(e, logits, tolerance, step * vocab, vocab, largest, exceeding);
      if f.tokens[step] != tokens[step] {
        AgreementIs(f.tokens, tokens, step);
        divergence := Some(step);
        break;
      }
    }
    if divergence == None {
      AgreementIs(f.tokens, tokens, n);
    }
    return Some(L2Result(exceeding == 0, compared, divergence, n - compared, compared * vocab, largest, exceeding));
  }
}
