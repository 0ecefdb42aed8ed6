/**
 Why the uniqueness of generated fixtures matters: a repeated entry whose file cannot be
 read is reported as a failure, but nothing the verdict counts changes.
 */
module ReleaseDuplicates {
  import opened Options
  import opened Sequences
  import opened ReleaseManifest
  import opened ReleaseLifecycle
  import opened ReleaseGate
  import opened ReleaseVerdict

  /** The run is passed, and this is its report. */
  ghost predicate Passing(m: Manifest, w: World, opts: DriverOptions, compare: string -> Comparison, r: Report) {
    |m.fixtures| == |w.readings| && Reports(r, m, w, opts, compare) && OverallPassed(r)
  }

  /** The world in which the file of fixture `j` cannot be read. */
  function Unread(w: World, j: nat): World
    requires j < |w.readings|
  {
    w.(readings := w.readings[j := ReadFailed])
  }

  /** Fixture `j` answers the same expectation as fixture `i`, and every file is as described. */
  ghost predicate Repeats(m: Manifest, w: World, i: nat, j: nat) {
    && i < |m.fixtures| == |w.readings| && j < |m.fixtures| && i != j
    && Match(m, i).Some? && Match(m, i) == Match(m, j)
    && AllReadWell(m, w, |m.fixtures|)
  }

  lemma SameKeySameMatch(m: Manifest, i: nat, j: nat)
    requires Sound(m) && i < |m.fixtures| && j < |m.fixtures| && Key(m.fixtures[i]) == Key(m.fixtures[j])
    ensures Match(m, i).Some? && Match(m, i) == Match(m, j)
  {
    MatchSome(m, i);
    MatchSome(m, j);
    var e, f := Match(m, i).value, Match(m, j).value;
    GoodMember(m, e);
    GoodMember(m, f);
    SameId(m.expected, e, f);
  }

  // -------------------------------------------------------------- preflight

  /** Whatever fixture `j` contributed, fixture `i` contributes too. */
  lemma SameReadIds(m: Manifest, w: World, i: nat, j: nat)
    requires Repeats(m, w, i, j)
    ensures ReadIds(m, Unread(w, j), |m.fixtures|) == ReadIds(m, w, |m.fixtures|)
  {
    var u, n := Unread(w, j), |m.fixtures|;
    forall id ensures id in ReadIds(m, u, n) <==> id in ReadIds(m, w, n) {
      ReadIdsMember(m, u, n, id);
      ReadIdsMember(m, w, n, id);
      if k :| 0 <= k < n && id in ReadId(m, w, k) {
        assert ReadsWell(m, w, i);
        assert id in ReadId(m, u, if k == j then i else k);
      }
      if k :| 0 <= k < n && id in ReadId(m, u, k) {
        assert id in ReadId(m, w, k);
      }
    }
  }

  lemma NoneRejectedEither(m: Manifest, w: World, i: nat, j: nat)
    requires Repeats(m, w, i, j)
    ensures RejectedIds(m, Unread(w, j), |m.fixtures|) == {} == RejectedIds(m, w, |m.fixtures|)
  {
    var u, n := Unread(w, j), |m.fixtures|;
    forall k | 0 <= k < n ensures !Rejected(m, w, k) && !Rejected(m, u, k) {
      assert ReadsWell(m, w, k);
    }
    NoneRejected(m, w, n);
    NoneRejected(m, u, n);
  }

  lemma SamePreflight(m: Manifest, w: World, i: nat, j: nat)
    requires Repeats(m, w, i, j)
    ensures Preflighted(m, Unread(w, j)) == Preflighted(m, w)
  {
    var u := Unread(w, j);
    SameReadIds(m, w, i, j);
    NoneRejectedEither(m, w, i, j);
    assert GeneratedBy(m, u) == GeneratedBy(m, w);
    assert FailedBefore(m, u) == FailedBefore(m, w);
    assert BadCalibration(m, u) == BadCalibration(m, w);
    assert UnexpectedBy(m, u) == UnexpectedBy(m, w);
  }

  lemma NotClean(m: Manifest, w: World, i: nat, j: nat)
    requires Repeats(m, w, i, j)
    ensures !Clean(m, Unread(w, j))
  {
    assert !ReadsWell(m, Unread(w, j), j);
  }

  // ------------------------------------------------------------ comparisons

  lemma CaseRemains(m: Manifest, w: World, i: nat, j: nat, c: ReferenceCase)
    requires Repeats(m, w, i, j) && c in Cases(m, w, |m.fixtures|)
    ensures exists d :: d in Cases(m, Unread(w, j), |m.fixtures|) && d.expected == c.expected
  {
    var u, n := Unread(w, j), |m.fixtures|;
    CaseMember(m, w, n, c);
    var k :| 0 <= k < n && CaseOf(m, w, k) == Some(c);
    var at := if k == j then i else k;
    assert ReadsWell(m, w, i) && Match(m, at) == Match(m, k);
    assert CaseOf(m, u, at) == CaseOf(m, w, at) && CaseOf(m, w, at).Some?;
    CaseMember(m, u, n, CaseOf(m, w, at).value);
  }

  lemma CaseWasThere(m: Manifest, w: World, i: nat, j: nat, c: ReferenceCase)
    requires Repeats(m, w, i, j) && c in Cases(m, Unread(w, j), |m.fixtures|)
    ensures c in Cases(m, w, |m.fixtures|)
  {
    var u, n := Unread(w, j), |m.fixtures|;
    CaseMember(m, u, n, c);
    var k :| 0 <= k < n && CaseOf(m, u, k) == Some(c);
    assert k != j && CaseOf(m, w, k) == CaseOf(m, u, k);
    CaseMember(m, w, n, c);
  }

  /** The same expectations are compared, so the comparisons that pass still pass and still report. */
  lemma SameComparisons(m: Manifest, w: World, i: nat, j: nat, opts: DriverOptions, compare: string -> Comparison)
    requires Repeats(m, w, i, j)
    requires var cases := Cases(m, w, |m.fixtures|); RunsAndPasses(cases, opts, compare, |cases|)
    ensures var cases, rest := Cases(m, w, |m.fixtures|), Cases(m, Unread(w, j), |m.fixtures|);
      && RunsAndPasses(rest, opts, compare, |rest|) && CaseIds(rest) == CaseIds(cases)
      && (Reported(rest, compare, |rest|) <==> Reported(cases, compare, |cases|))
  {
    var cases, rest := Cases(m, w, |m.fixtures|), Cases(m, Unread(w, j), |m.fixtures|);
    forall k | 0 <= k < |rest| ensures rest[k] in cases {
      CaseWasThere(m, w, i, j, rest[k]);
    }
    forall k | 0 <= k < |cases| ensures exists d :: d in rest && d.expected == cases[k].expected {
      CaseRemains(m, w, i, j, cases[k]);
    }
  }

  /** A passing run in which everything was read compares and passes every case. */
  lemma PassingRuns(m: Manifest, w: World, opts: DriverOptions, compare: string -> Comparison, r: Report)
    requires Passing(m, w, opts, compare, r)
    ensures var cases := Cases(m, w, |m.fixtures|); RunsAndPasses(cases, opts, compare, |cases|)
  {
    var cases, p, s := Cases(m, w, |m.fixtures|), FinalProgress(m, w, opts, compare), Final(m, w, opts, compare);
    assert s.skipped == {} && s.failed == {};
    assert p.skipped <= s.skipped && p.failed <= s.failed;
    CompareExact(cases, opts, compare, |cases|);
  }

  /** The comparison stage ends alike. */
  lemma SameProgress(m: Manifest, w: World, i: nat, j: nat, opts: DriverOptions, compare: string -> Comparison)
    requires Repeats(m, w, i, j)
    requires var cases := Cases(m, w, |m.fixtures|); RunsAndPasses(cases, opts, compare, |cases|)
    ensures var p, q := FinalProgress(m, w, opts, compare), FinalProgress(m, Unread(w, j), opts, compare);
      && q.compared == p.compared && q.skipped == p.skipped == {} && q.failed == p.failed == {}
      && AllTrue(q.l1) && AllTrue(q.l2) && (q.l1 != [] || q.l2 != [] <==> p.l1 != [] || p.l2 != [])
  {
    var cases, rest := Cases(m, w, |m.fixtures|), Cases(m, Unread(w, j), |m.fixtures|);
    SameComparisons(m, w, i, j, opts, compare);
    ComparePassing(cases, opts, compare, |cases|);
    ComparePassing(rest, opts, compare, |rest|);
    CompareExact(cases, opts, compare, |cases|);
    CompareExact(rest, opts, compare, |rest|);
    assert cases[..|cases|] == cases && rest[..|rest|] == rest;
  }

  // ----------------------------------------------------------- the verdict

  /** Losing the file of a repeated entry changes no count, but it is reported. */
  lemma RepeatHidesFailure(m: Manifest, w: World, opts: DriverOptions, compare: string -> Comparison, r: Report,
                           i: nat, j: nat, hidden: Report)
    requires Passing(m, w, opts, compare, r) && Repeats(m, w, i, j)
    requires Reports(hidden, m, Unread(w, j), opts, compare)
    ensures OverallPassed(hidden) && hidden.failures != []
  {
    PassingRuns(m, w, opts, compare, r);
    SameProgress(m, w, i, j, opts, compare);
    SamePreflight(m, w, i, j);
    assert Final(m, Unread(w, j), opts, compare) == Final(m, w, opts, compare);
    NotClean(m, w, i, j);
  }

  /** Every run has a report; `RunComparison` computes one. */
  lemma SomeReport(m: Manifest, w: World, opts: DriverOptions, compare: string -> Comparison) returns (r: Report)
    requires |m.fixtures| == |w.readings|
    ensures Reports(r, m, w, opts, compare)
  {
    var p, totals := FinalProgress(m, w, opts, compare), TotalsOf(Final(m, w, opts, compare));
    var clean := Clean(m, w);
    r := Report(p.l1, p.l2, totals, if clean && p.failures == [] then [] else [ListingUnreadable]);
    assert r.failures == [] <==> clean && p.failures == [];
  }

  /** In no passing run of the manifest was a failure recorded. */
  ghost predicate PassesOnlyClean(m: Manifest) {
    forall w, opts, compare, r :: Passing(m, w, opts, compare, r) ==> r.failures == []
  }

  lemma RepeatedKeys(m: Manifest) returns (i: nat, j: nat)
    requires !Distinct(Keys(m.fixtures))
    ensures i < j < |m.fixtures| && Key(m.fixtures[i]) == Key(m.fixtures[j])
  {
    var keys := Keys(m.fixtures);
    i, j :| 0 <= i < j < |keys| && keys[i] == keys[j];
  }

  /**
   For every manifest that meets the rest of its contract and has some passing run: a passing
   verdict implies an empty failure list if and only if the generated fixtures are unique.
   */
  lemma UniquenessIsExact(m: Manifest, w: World, opts: DriverOptions, compare: string -> Comparison, r: Report)
    requires Sound(m) && Passing(m, w, opts, compare, r)
    ensures PassesOnlyClean(m) <==> Distinct(Keys(m.fixtures))
  {
    if Distinct(Keys(m.fixtures)) {
      forall v, o, c, s | Passing(m, v, o, c, s) ensures s.failures == [] {
        AcceptedVerdict(m, v, o, c, s);
      }
    } else if r.failures == [] {
      var i, j := RepeatedKeys(m);
      SameKeySameMatch(m, i, j);
      assert Repeats(m, w, i, j);
      var hidden := SomeReport(m, Unread(w, j), opts, compare);
      RepeatHidesFailure(m, w, opts, compare, r, i, j, hidden);
      assert Passing(m, Unread(w, j), opts, compare, hidden);
    }
  }
}
