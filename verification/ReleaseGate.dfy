/**
 The comparison driver, the report and the release verdict.

 The verdict reads only counts.  For a manifest that meets its contract it is nevertheless
 exact: it passes if and only if every expected fixture went through every stage.
 */
module ReleaseGate {
  import opened Options
  import opened Sequences
  import opened ReleaseManifest
  import opened ReleaseLifecycle

  datatype DriverOptions = DriverOptions(l1Only: bool, l2Only: bool)

  /** What comparing one case yields: the verdicts of the layers that ran. */
  datatype Comparison = Errored | Compared(l1: Option<bool>, l2: Option<bool>)

  datatype Report = Report(l1: seq<bool>, l2: seq<bool>, lifecycle: Totals, failures: seq<Failure>)

  predicate Enabled(required: Required, opts: DriverOptions) {
    match required
    case L1 => !opts.l2Only
    case L1L2 => !opts.l1Only && !opts.l2Only
    case Calibration => false
  }

  predicate Passes(c: Comparison) {
    c.Compared? && (c.l1.Some? ==> c.l1.value) && (c.l2.Some? ==> c.l2.value)
  }

  // --------------------------------------------------------------- verdict

  predicate ReleasePassed(t: Totals) {
    && t.expected > 0
    && t.discovered == t.expected && t.generated == t.expected && t.compared == t.expected
    && t.missing == 0 && t.unexpected == 0 && t.skipped == 0 && t.failed == 0
  }

  predicate AllTrue(results: seq<bool>) { forall i :: 0 <= i < |results| ==> results[i] }

  predicate ReferencePassed(r: Report) {
    (r.l1 != [] || r.l2 != []) && AllTrue(r.l1) && AllTrue(r.l2)
  }

  predicate OverallPassed(r: Report) { ReferencePassed(r) && ReleasePassed(r.lifecycle) }

  // ------------------------------------------------------------- preflight

  ghost function FailedBefore(m: Manifest, w: World): set<string>
    requires |m.fixtures| == |w.readings|
  {
    FamilyFailed(m, w, |m.expected|) + (if BadListing(w.listing) then KnownIds(m) else {})
    + RejectedIds(m, w, |m.fixtures|)
  }

  ghost function GeneratedBy(m: Manifest, w: World): set<string>
    requires |m.fixtures| == |w.readings|
  {
    (AllStrays(m, w.listing) * KnownIds(m)) + ReadIds(m, w, |m.fixtures|)
  }

  ghost function BadCalibration(m: Manifest, w: World): set<string>
    requires |m.fixtures| == |w.readings|
  {
    BadCalibrated(m, GeneratedBy(m, w), FailedBefore(m, w), |m.calibrated|)
  }

  ghost function UnexpectedBy(m: Manifest, w: World): set<string> {
    Unplanned(KnownIds(m), w.prompts, w.prompts.Keys) + (AllStrays(m, w.listing) - KnownIds(m))
    + (ToSet(m.calibrated) - KnownIds(m))
  }

  /** The tracker after preflight. */
  ghost function Preflighted(m: Manifest, w: World): Stages
    requires |m.fixtures| == |w.readings|
  {
    Stages(KnownIds(m), Discovered(m, w, |m.expected|), GeneratedBy(m, w),
           Calibrated(m, GeneratedBy(m, w), FailedBefore(m, w), |m.calibrated|), {},
           FailedBefore(m, w) + BadCalibration(m, w), UnexpectedBy(m, w))
  }

  /** Preflight had nothing to report. */
  ghost predicate Clean(m: Manifest, w: World)
    requires |m.fixtures| == |w.readings|
  {
    && FamilyFailed(m, w, |m.expected|) == {} && !BadListing(w.listing)
    && AllReadWell(m, w, |m.fixtures|) && BadCalibration(m, w) == {}
  }

  ghost function Surveyed(m: Manifest, w: World): Stages {
    var strays := AllStrays(m, w.listing);
    Stages(KnownIds(m), Discovered(m, w, |m.expected|), strays * KnownIds(m), {}, {},
           FamilyFailed(m, w, |m.expected|) + (if BadListing(w.listing) then KnownIds(m) else {}),
           Unplanned(KnownIds(m), w.prompts, w.prompts.Keys) + (strays - KnownIds(m)))
  }

  /** The corpus and the directory. */
  method Survey(m: Manifest, w: World) returns (tracker: LifecycleTracker, errors: seq<Failure>)
    ensures fresh(tracker) && tracker.Value() == Surveyed(m, w)
    ensures errors == [] <==> FamilyFailed(m, w, |m.expected|) == {} && !BadListing(w.listing)
  {
    tracker := new LifecycleTracker(KnownIds(m));
    var families := tracker.DiscoverExpected(m, w);
    tracker.DiscoverPrompts(w.prompts);
    var listing := tracker.ScanDirectory(m, w.listing);
    errors := families + listing;
    assert tracker.discovered == Discovered(m, w, |m.expected|);
    assert tracker.unexpected == Surveyed(m, w).unexpected;
    assert tracker.generated == Surveyed(m, w).generated;
    assert tracker.failed == Surveyed(m, w).failed;
  }

  method Preflight(m: Manifest, w: World)
    returns (tracker: LifecycleTracker, cases: seq<ReferenceCase>, errors: seq<Failure>)
    requires |m.fixtures| == |w.readings|
    ensures fresh(tracker) && tracker.Value() == Preflighted(m, w)
    ensures cases == Cases(m, w, |m.fixtures|)
    ensures errors == [] <==> Clean(m, w)
  {
    var survey, readings;
    tracker, survey := Survey(m, w);
    readings, cases := tracker.ReadFixtures(m, w);
    assert tracker.failed == FailedBefore(m, w);
    assert tracker.generated == GeneratedBy(m, w);
    var calibration := tracker.Calibrate(m);
    errors := survey + readings + calibration;
    assert tracker.compared == Preflighted(m, w).compared;
    assert tracker.unexpected == UnexpectedBy(m, w);
  }

  // ------------------------------------------------------------ comparison

  /** What the first `n` cases contributed. */
  datatype Progress = Progress(
    compared: set<string>, skipped: set<string>, failed: set<string>,
    l1: seq<bool>, l2: seq<bool>, failures: seq<Failure>)

  function Listed(r: Option<bool>): seq<bool> { if r.Some? then [r.value] else [] }

  function Advance(p: Progress, c: ReferenceCase, opts: DriverOptions, result: Comparison): Progress {
    var id := c.expected.fixtureId;
    if id in p.skipped || !Enabled(c.expected.required, opts) then p.(skipped := p.skipped + {id})
    else match result
      case Errored => p.(failed := p.failed + {id}, failures := p.failures + [ComparisonFailed(id)])
      case Compared(l1, l2) =>
        p.(compared := p.compared + {id}, failed := p.failed + (if Passes(result) then {} else {id}),
           l1 := p.l1 + Listed(l1), l2 := p.l2 + Listed(l2))
  }

  function Compare(cases: seq<ReferenceCase>, opts: DriverOptions, compare: string -> Comparison, n: nat): Progress
    requires n <= |cases|
  {
    if n == 0 then Progress({}, {}, {}, [], [], [])
    else Advance(Compare(cases, opts, compare, n - 1), cases[n - 1], opts, compare(cases[n - 1].expected.fixtureId))
  }

  function TotalsOf(s: Stages): Totals {
    Totals(|s.expected|, |s.discovered|, |s.generated|, |s.compared|, |Missing(s)|, |s.unexpected|, |s.skipped|, |s.failed|)
  }

  ghost function Merge(s: Stages, p: Progress): Stages {
    s.(compared := s.compared + p.compared, skipped := s.skipped + p.skipped, failed := s.failed + p.failed)
  }

  /** Runs one case and records it. */
  method RunCase(tracker: LifecycleTracker, c: ReferenceCase, opts: DriverOptions, result: Comparison,
                 ghost p: Progress, ghost start: Stages)
    returns (l1: seq<bool>, l2: seq<bool>, failures: seq<Failure>)
    requires c.expected.fixtureId in tracker.expected
    requires start.skipped == {} && tracker.Value() == Merge(start, p)
    modifies tracker
    ensures var q := Advance(p, c, opts, result);
      && tracker.Value() == Merge(start, q)
      && q.l1 == p.l1 + l1 && q.l2 == p.l2 + l2 && q.failures == p.failures + failures
  {
    l1, l2, failures := [], [], [];
    var id := c.expected.fixtureId;
    if id in tracker.skipped || !Enabled(c.expected.required, opts) {
      tracker.RecordSkipped(id);
      assert tracker.Value() == Merge(start, Advance(p, c, opts, result));
      return;
    }
    match result
    case Errored =>
      tracker.RecordFailed(id);
      failures := [ComparisonFailed(id)];
      assert tracker.Value() == Merge(start, Advance(p, c, opts, result));
    case Compared(r1, r2) =>
      l1, l2 := Listed(r1), Listed(r2);
      tracker.RecordCompared(id);
      if !Passes(result) {
        tracker.RecordFailed(id);
      }
      assert tracker.Value() == Merge(start, Advance(p, c, opts, result));
  }

  method RunPreparedComparisons(tracker: LifecycleTracker, cases: seq<ReferenceCase>, errors: seq<Failure>,
                                opts: DriverOptions, compare: string -> Comparison) returns (r: Report)
    requires tracker.skipped == {}
    requires forall i :: 0 <= i < |cases| ==> cases[i].expected.fixtureId in tracker.expected
    modifies tracker
    ensures var p := Compare(cases, opts, compare, |cases|);
      && tracker.Value() == Merge(old(tracker.Value()), p)
      && r == Report(p.l1, p.l2, TotalsOf(tracker.Value()), errors + p.failures)
  {
    var l1, l2, failures := [], [], errors;
    ghost var start := tracker.Value();
    assert Reached(tracker.Value(), start, Compare(cases, opts, compare, 0), l1, l2, failures, errors);
    for i := 0 to |cases|
      invariant Reached(tracker.Value(), start, Compare(cases, opts, compare, i), l1, l2, failures, errors)
    {
      var a, b, more := RunCase(tracker, cases[i], opts, compare(cases[i].expected.fixtureId),
                                Compare(cases, opts, compare, i), start);
      ReachedNext(tracker.Value(), start, Compare(cases, opts, compare, i), Compare(cases, opts, compare, i + 1),
                  l1, l2, failures, errors, a, b, more);
      l1, l2, failures := l1 + a, l2 + b, failures + more;
    }
    var totals := tracker.CountTotals();
    r := Report(l1, l2, totals, failures);
  }

  /** The tracker and the report lists hold what the cases so far contributed. */
  ghost predicate Reached(v: Stages, start: Stages, p: Progress, l1: seq<bool>, l2: seq<bool>,
                          failures: seq<Failure>, errors: seq<Failure>) {
    v == Merge(start, p) && l1 == p.l1 && l2 == p.l2 && failures == errors + p.failures
  }

  lemma ReachedNext(v: Stages, start: Stages, p: Progress, q: Progress, l1: seq<bool>, l2: seq<bool>,
                    failures: seq<Failure>, errors: seq<Failure>, a: seq<bool>, b: seq<bool>, more: seq<Failure>)
    requires l1 == p.l1 && l2 == p.l2 && failures == errors + p.failures && v == Merge(start, q)
    requires q.l1 == p.l1 + a && q.l2 == p.l2 + b && q.failures == p.failures + more
    ensures Reached(v, start, q, l1 + a, l2 + b, failures + more, errors)
  {
    assert errors + p.failures + more == errors + (p.failures + more);
  }
}
