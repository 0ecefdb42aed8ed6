/**
 What a passing release verdict means.
 */
module ReleaseVerdict {
  import opened Options
  import opened Sequences
  import opened ReleaseManifest
  import opened ReleaseLifecycle
  import opened ReleaseGate

  // ---------------------------------------------------------- the meaning

  predicate HasPrompt(w: World, e: Expected) {
    e.promptId in w.prompts && w.prompts[e.promptId].family == e.family
  }

  /** The fixture was generated and its file is the one the manifest describes. */
  ghost predicate IsReady(m: Manifest, w: World, e: Expected)
    requires |m.fixtures| == |w.readings|
  {
    exists j :: 0 <= j < |m.fixtures| && Describes(m.fixtures[j], e)
      && GoodReading(m, e, m.fixtures[j], w.readings[j])
  }

  /** A baseline is calibrated; a reference was compared in full and passed. */
  ghost predicate IsSettled(m: Manifest, opts: DriverOptions, compare: string -> Comparison, e: Expected) {
    if e.role == Baseline then e.fixtureId in m.calibrated
    else Enabled(e.required, opts) && Passes(compare(e.fixtureId))
  }

  ghost predicate AllPrompted(m: Manifest, w: World) {
    forall e {:trigger HasPrompt(w, e)} :: e in m.expected ==> HasPrompt(w, e)
  }

  ghost predicate AllReady(m: Manifest, w: World)
    requires |m.fixtures| == |w.readings|
  {
    forall e {:trigger IsReady(m, w, e)} :: e in m.expected ==> IsReady(m, w, e)
  }

  ghost predicate AllSettled(m: Manifest, opts: DriverOptions, compare: string -> Comparison) {
    forall e {:trigger IsSettled(m, opts, compare, e)} :: e in m.expected ==> IsSettled(m, opts, compare, e)
  }

  /** Nothing turned up that the manifest does not expect. */
  ghost predicate NothingExtra(m: Manifest, w: World) {
    && !BadListing(w.listing) && AllStrays(m, w.listing) == {}
    && forall k :: k in w.prompts ==> Planned(w.prompts[k]) <= KnownIds(m)
  }

  predicate ReportsLayer(r: Comparison) { r.Compared? && (r.l1.Some? || r.l2.Some?) }

  /** At least one reference comparison reported a layer. */
  ghost predicate SomeEvidence(m: Manifest, compare: string -> Comparison) {
    exists e :: e in m.expected && e.role == Reference && ReportsLayer(compare(e.fixtureId))
  }

  // ---------------------------------------------------------- final state

  ghost function FinalProgress(m: Manifest, w: World, opts: DriverOptions, compare: string -> Comparison): Progress
    requires |m.fixtures| == |w.readings|
  {
    var cases := Cases(m, w, |m.fixtures|);
    Compare(cases, opts, compare, |cases|)
  }

  ghost function Final(m: Manifest, w: World, opts: DriverOptions, compare: string -> Comparison): Stages
    requires |m.fixtures| == |w.readings|
  {
    Merge(Preflighted(m, w), FinalProgress(m, w, opts, compare))
  }

  /** Every stage is full and nothing is skipped, failed or unexpected. */
  ghost predicate AllThrough(s: Stages) {
    && s.expected != {} && s.discovered == s.expected && s.generated == s.expected && s.compared == s.expected
    && s.unexpected == {} && s.skipped == {} && s.failed == {}
  }

  /** When the stages lie within the expected set, the counts decide. */
  lemma CountsDecide(s: Stages)
    requires s.discovered <= s.expected && s.generated <= s.expected && s.compared <= s.expected
    ensures ReleasePassed(TotalsOf(s)) <==> AllThrough(s)
  {
    FullSubset(s.discovered, s.expected);
    FullSubset(s.generated, s.expected);
    FullSubset(s.compared, s.expected);
    if AllThrough(s) {
      assert Missing(s) == {};
    }
  }

  // ---------------------------------------------- facts about the manifest

  lemma MatchIs(m: Manifest, j: nat, e: Expected)
    requires Sound(m) && j < |m.fixtures| && e in m.expected && Describes(m.fixtures[j], e)
    ensures Match(m, j) == Some(e)
  {
    var f := Match(m, j);
    assert f.Some?;
    assert f.value.fixtureId == CanonicalId(f.value.promptId, f.value.oracle) by { GoodMember(m, f.value); }
    assert e.fixtureId == CanonicalId(e.promptId, e.oracle) by { GoodMember(m, e); }
    SameId(m.expected, f.value, e);
  }

  lemma GoodMember(m: Manifest, e: Expected)
    requires Sound(m) && e in m.expected
    ensures GoodExpected(m.model, e)
  {
    var i :| 0 <= i < |m.expected| && m.expected[i] == e;
  }

  lemma MatchSome(m: Manifest, j: nat)
    requires Sound(m) && j < |m.fixtures|
    ensures Match(m, j).Some?
  {
    assert GoodFixture(m.expected, m.fixtures[j]);
  }

  /** Two generated fixtures never answer the same expectation. */
  lemma MatchInjective(m: Manifest, i: nat, j: nat)
    requires Accepted(m) && i < |m.fixtures| && j < |m.fixtures|
    requires Match(m, i).Some? && Match(m, i) == Match(m, j)
    ensures i == j
  {
    var keys := Keys(m.fixtures);
    assert keys[i] == Key(m.fixtures[i]) == (Match(m, i).value.promptId, Match(m, i).value.oracle) == keys[j];
  }

  /** An expected identity is never a fixture file name. */
  lemma IdIsNoName(m: Manifest, e: Expected)
    requires Sound(m) && e in m.expected
    ensures !IsFixtureName(e.fixtureId)
  {
    GoodMember(m, e);
    var id := e.fixtureId;
    var suffix := Label(e.oracle);
    assert id[|id| - 3] == suffix[|suffix| - 3];
    if IsFixtureName(id) {
      NameTail(id);
    }
  }

  lemma NameTail(name: string)
    requires IsFixtureName(name)
    ensures name[|name| - 3] == 'o'
  {
    assert name[|name| - |EXTENSION|..][|EXTENSION| - 3] == EXTENSION[|EXTENSION| - 3];
  }

  lemma CalibratedRole(m: Manifest, id: string)
    requires Sound(m) && id in m.calibrated
    ensures FindById(m.expected, id).Some? && FindById(m.expected, id).value.role == Baseline
  {
    var i :| 0 <= i < |m.calibrated| && m.calibrated[i] == id;
    assert GoodCalibrated(m, m.calibrated[i]);
    var e :| e in m.expected && e.fixtureId == id && e.role == Baseline;
    assert id in Ids(m.expected);
    SameId(m.expected, e, FindById(m.expected, id).value);
  }

  /** What the verdict relies on: identities identify, and fixtures match expectations one to one. */
  ghost predicate Regular(m: Manifest) {
    && m.expected != [] && UniqueIds(m.expected)
    && (forall j {:trigger Match(m, j)} :: 0 <= j < |m.fixtures| ==> Match(m, j).Some?)
    && (forall i, j {:trigger Match(m, i), Match(m, j)} :: 0 <= i < j < |m.fixtures| ==> Match(m, i) != Match(m, j))
    && (forall j, e {:trigger Describes(m.fixtures[j], e)} ::
          0 <= j < |m.fixtures| && e in m.expected && Describes(m.fixtures[j], e) ==> Match(m, j) == Some(e))
    && (forall e {:trigger IsFixtureName(e.fixtureId)} :: e in m.expected ==> !IsFixtureName(e.fixtureId))
    && (forall id {:trigger FindById(m.expected, id)} :: id in m.calibrated ==>
          FindById(m.expected, id).Some? && FindById(m.expected, id).value.role == Baseline)
  }

  lemma AcceptedIsRegular(m: Manifest)
    requires Accepted(m)
    ensures Regular(m)
  {
    forall j | 0 <= j < |m.fixtures| ensures Match(m, j).Some? {
      MatchSome(m, j);
    }
    forall i, j | 0 <= i < j < |m.fixtures| ensures Match(m, i) != Match(m, j) {
      if Match(m, i) == Match(m, j) {
        MatchSome(m, i);
        MatchInjective(m, i, j);
      }
    }
    forall j, e | 0 <= j < |m.fixtures| && e in m.expected && Describes(m.fixtures[j], e) ensures Match(m, j) == Some(e) {
      MatchIs(m, j, e);
    }
    forall e | e in m.expected ensures !IsFixtureName(e.fixtureId) {
      IdIsNoName(m, e);
    }
    forall id | id in m.calibrated
      ensures FindById(m.expected, id).Some? && FindById(m.expected, id).value.role == Baseline
    {
      CalibratedRole(m, id);
    }
  }

  // --------------------------------------------------------- stage by stage

  lemma DiscoveredExact(m: Manifest, w: World)
    requires Regular(m)
    ensures var d := Discovered(m, w, |m.expected|);
      && d <= KnownIds(m)
      && (d == KnownIds(m) <==> forall e :: e in m.expected ==> e.promptId in w.prompts)
  {
    var d := Discovered(m, w, |m.expected|);
    forall id | id in d ensures id in KnownIds(m) {
      var i :| 0 <= i < |m.expected| && m.expected[i].promptId in w.prompts && m.expected[i].fixtureId == id;
      assert m.expected[i] in m.expected;
    }
    forall e | e in m.expected ensures e.fixtureId in d <==> e.promptId in w.prompts {
      var k :| 0 <= k < |m.expected| && m.expected[k] == e;
      if e.fixtureId in d {
        var i :| 0 <= i < |m.expected| && m.expected[i].promptId in w.prompts && m.expected[i].fixtureId == e.fixtureId;
        SameId(m.expected, m.expected[i], e);
      }
    }
    if d == KnownIds(m) {
      forall e | e in m.expected ensures e.promptId in w.prompts {
        assert e.fixtureId in KnownIds(m);
      }
    }
  }

  lemma FamilyExact(m: Manifest, w: World)
    ensures FamilyFailed(m, w, |m.expected|) == {} <==> forall e :: e in m.expected ==> !FamilyWrong(w, e)
  {
    var bad := FamilyFailed(m, w, |m.expected|);
    forall e | e in m.expected && FamilyWrong(w, e) ensures e.fixtureId in bad {
      var k :| 0 <= k < |m.expected| && m.expected[k] == e;
    }
    if bad != {} {
      var id :| id in bad;
      var i :| 0 <= i < |m.expected| && FamilyWrong(w, m.expected[i]) && m.expected[i].fixtureId == id;
      assert m.expected[i] in m.expected;
    }
  }

  lemma UnplannedExact(m: Manifest, w: World)
    ensures Unplanned(KnownIds(m), w.prompts, w.prompts.Keys) == {}
       <==> forall k :: k in w.prompts ==> Planned(w.prompts[k]) <= KnownIds(m)
  {
    var extra := Unplanned(KnownIds(m), w.prompts, w.prompts.Keys);
    forall k, id | k in w.prompts && id in Planned(w.prompts[k]) && id !in KnownIds(m) ensures id in extra {
    }
  }

  lemma NoStrayIsExpected(m: Manifest, w: World)
    requires Regular(m)
    ensures AllStrays(m, w.listing) * KnownIds(m) == {}
  {
    forall id | id in AllStrays(m, w.listing) ensures id !in KnownIds(m) {
      var i :| 0 <= i < |w.listing.entries| && StrayEntry(m, w.listing.entries[i]) && w.listing.entries[i].name == id;
      assert IsFixtureName(id);
      assert forall e :: e in m.expected && e.fixtureId == id ==> IsFixtureName(e.fixtureId);
    }
  }

  lemma ReadIdsWithin(m: Manifest, w: World)
    requires |m.fixtures| == |w.readings|
    ensures ReadIds(m, w, |m.fixtures|) <= KnownIds(m)
  {
    forall id | id in ReadIds(m, w, |m.fixtures|) ensures id in KnownIds(m) {
      ReadIdsMember(m, w, |m.fixtures|, id);
      var j :| 0 <= j < |m.fixtures| && id in ReadId(m, w, j);
      assert Match(m, j).value in m.expected;
    }
  }

  /** Readable and not rejected fixtures are ready. */
  lemma ReadyFrom(m: Manifest, w: World, e: Expected)
    requires Regular(m) && |m.fixtures| == |w.readings| && e in m.expected
    requires e.fixtureId in ReadIds(m, w, |m.fixtures|) && e.fixtureId !in RejectedIds(m, w, |m.fixtures|)
    ensures IsReady(m, w, e)
  {
    ReadIdsMember(m, w, |m.fixtures|, e.fixtureId);
    var j :| 0 <= j < |m.fixtures| && e.fixtureId in ReadId(m, w, j);
    SameId(m.expected, Match(m, j).value, e);
    assert e.fixtureId !in RejectedId(m, w, j);
    assert Describes(m.fixtures[j], e);
  }

  /** A ready expectation is answered by exactly one generated fixture, which reads well. */
  lemma ReadyAt(m: Manifest, w: World, j: nat)
    requires Regular(m) && j < |m.fixtures| == |w.readings|
    requires Match(m, j).Some? && IsReady(m, w, Match(m, j).value)
    ensures Readable(m, w, j) && !Rejected(m, w, j)
  {
    var e := Match(m, j).value;
    var i :| 0 <= i < |m.fixtures| && Describes(m.fixtures[i], e) && GoodReading(m, e, m.fixtures[i], w.readings[i]);
    assert Match(m, i) == Match(m, j);
  }

  lemma ReadingsExact(m: Manifest, w: World)
    requires Regular(m) && |m.fixtures| == |w.readings|
    ensures AllReady(m, w)
       <==> ReadIds(m, w, |m.fixtures|) == KnownIds(m) && RejectedIds(m, w, |m.fixtures|) == {}
    ensures AllReady(m, w) ==> AllReadWell(m, w, |m.fixtures|)
  {
    var n := |m.fixtures|;
    if ReadIds(m, w, n) == KnownIds(m) && RejectedIds(m, w, n) == {} {
      forall e | e in m.expected ensures IsReady(m, w, e) {
        assert e.fixtureId in KnownIds(m);
        ReadyFrom(m, w, e);
      }
    }
    if AllReady(m, w) {
      AllReadable(m, w);
    }
  }

  lemma ReadyIsRead(m: Manifest, w: World, e: Expected)
    requires Regular(m) && |m.fixtures| == |w.readings| && e in m.expected && IsReady(m, w, e)
    ensures e.fixtureId in ReadIds(m, w, |m.fixtures|)
  {
    var j :| 0 <= j < |m.fixtures| && Describes(m.fixtures[j], e) && GoodReading(m, e, m.fixtures[j], w.readings[j]);
    assert Match(m, j) == Some(e);
    assert e.fixtureId in ReadId(m, w, j);
    ReadIdsMember(m, w, |m.fixtures|, e.fixtureId);
  }

  lemma {:induction false} NoneRejected(m: Manifest, w: World, n: nat)
    requires n <= |m.fixtures| == |w.readings| && forall j :: 0 <= j < n ==> !Rejected(m, w, j)
    ensures RejectedIds(m, w, n) == {}
  {
    if n > 0 {
      NoneRejected(m, w, n - 1);
      assert RejectedId(m, w, n - 1) == {};
    }
  }

  lemma AllReadable(m: Manifest, w: World)
    requires Regular(m) && |m.fixtures| == |w.readings|
    requires AllReady(m, w)
    ensures ReadIds(m, w, |m.fixtures|) == KnownIds(m) && RejectedIds(m, w, |m.fixtures|) == {}
    ensures AllReadWell(m, w, |m.fixtures|)
  {
    var n := |m.fixtures|;
    forall j | 0 <= j < n ensures ReadsWell(m, w, j) && !Rejected(m, w, j) {
      ReadyAt(m, w, j);
    }
    NoneRejected(m, w, n);
    forall id | id in KnownIds(m) ensures id in ReadIds(m, w, n) {
      var e :| e in m.expected && e.fixtureId == id;
      ReadyIsRead(m, w, e);
    }
    ReadIdsWithin(m, w);
  }

  /** With everything generated and nothing failed, all calibration evidence counts. */
  lemma CalibrationExact(m: Manifest, generated: set<string>, failed: set<string>)
    requires Regular(m)
    ensures ToSet(m.calibrated) <= KnownIds(m)
    ensures Calibrated(m, generated, failed, |m.calibrated|) <= ToSet(m.calibrated)
    ensures generated == KnownIds(m) && failed == {} ==>
      (Calibrated(m, generated, failed, |m.calibrated|) == ToSet(m.calibrated)
       && BadCalibrated(m, generated, failed, |m.calibrated|) == {})
  {
    forall i | 0 <= i < |m.calibrated|
      ensures m.calibrated[i] in KnownIds(m)
      ensures generated == KnownIds(m) && failed == {} ==> CalibrationGood(m, generated, failed, m.calibrated[i])
    {
      assert m.calibrated[i] in m.calibrated && FindById(m.expected, m.calibrated[i]).Some?;
      assert FindById(m.expected, m.calibrated[i]).value in m.expected;
    }
  }

  // ----------------------------------------------------------- comparisons

  lemma {:induction false} CaseMember(m: Manifest, w: World, n: nat, c: ReferenceCase)
    requires n <= |m.fixtures| == |w.readings|
    ensures c in Cases(m, w, n) <==> exists j :: 0 <= j < n && CaseOf(m, w, j) == Some(c)
  {
    if n > 0 {
      CaseMember(m, w, n - 1, c);
      assert c in CaseList(m, w, n - 1) <==> CaseOf(m, w, n - 1) == Some(c);
    }
  }

  /** Every case is for an expected reference fixture. */
  lemma CaseExpected(m: Manifest, w: World, c: ReferenceCase)
    requires |m.fixtures| == |w.readings| && c in Cases(m, w, |m.fixtures|)
    ensures c.expected in m.expected && c.expected.role == Reference && c.expected.fixtureId in KnownIds(m)
  {
    CaseMember(m, w, |m.fixtures|, c);
  }

  /** A ready reference fixture with its prompt is a case. */
  lemma ReadyCase(m: Manifest, w: World, e: Expected) returns (c: ReferenceCase)
    requires Regular(m) && |m.fixtures| == |w.readings| && e in m.expected && e.role == Reference
    requires IsReady(m, w, e) && HasPrompt(w, e)
    ensures c in Cases(m, w, |m.fixtures|) && c.expected == e
  {
    var j :| 0 <= j < |m.fixtures| && Describes(m.fixtures[j], e) && GoodReading(m, e, m.fixtures[j], w.readings[j]);
    assert Match(m, j) == Some(e);
    c := CaseOf(m, w, j).value;
    CaseMember(m, w, |m.fixtures|, c);
  }

  function CaseIds(cases: seq<ReferenceCase>): set<string> { set c | c in cases :: c.expected.fixtureId }

  ghost predicate RunsAndPasses(cases: seq<ReferenceCase>, opts: DriverOptions, compare: string -> Comparison, n: nat)
    requires n <= |cases|
  {
    forall k :: 0 <= k < n ==>
      Enabled(cases[k].expected.required, opts) && Passes(compare(cases[k].expected.fixtureId))
  }

  ghost predicate Reported(cases: seq<ReferenceCase>, compare: string -> Comparison, n: nat)
    requires n <= |cases|
  {
    exists k :: 0 <= k < n && ReportsLayer(compare(cases[k].expected.fixtureId))
  }

  /** Nothing skipped and nothing failed means that every case ran and passed. */
  lemma {:induction false} CompareExact(cases: seq<ReferenceCase>, opts: DriverOptions,
                                        compare: string -> Comparison, n: nat)
    requires n <= |cases|
    ensures var p := Compare(cases, opts, compare, n);
      p.skipped == {} && p.failed == {} <==> RunsAndPasses(cases, opts, compare, n)
  {
    if n > 0 {
      CompareExact(cases, opts, compare, n - 1);
    }
  }

  lemma AdvancePassing(p: Progress, c: ReferenceCase, opts: DriverOptions, r: Comparison)
    requires p.skipped == {} && Enabled(c.expected.required, opts) && Passes(r)
    requires AllTrue(p.l1) && AllTrue(p.l2) && p.failures == []
    ensures var q := Advance(p, c, opts, r);
      && q.compared == p.compared + {c.expected.fixtureId} && AllTrue(q.l1) && AllTrue(q.l2) && q.failures == []
      && (q.l1 != [] || q.l2 != [] <==> p.l1 != [] || p.l2 != [] || r.l1.Some? || r.l2.Some?)
  {
  }

  lemma {:induction false} ComparePassing(cases: seq<ReferenceCase>, opts: DriverOptions,
                                          compare: string -> Comparison, n: nat)
    requires n <= |cases| && RunsAndPasses(cases, opts, compare, n)
    ensures var p := Compare(cases, opts, compare, n);
      && p.compared == CaseIds(cases[..n]) && p.failures == [] && AllTrue(p.l1) && AllTrue(p.l2)
      && (p.l1 != [] || p.l2 != [] <==> Reported(cases, compare, n))
  {
    if n > 0 {
      ComparePassing(cases, opts, compare, n - 1);
      CompareExact(cases, opts, compare, n - 1);
      var r := compare(cases[n - 1].expected.fixtureId);
      assert Passes(r);
      AdvancePassing(Compare(cases, opts, compare, n - 1), cases[n - 1], opts, r);
      CaseIdsStep(cases, n);
      ReportedStep(cases, compare, n);
    }
  }

  lemma CaseIdsStep(cases: seq<ReferenceCase>, n: nat)
    requires 0 < n <= |cases|
    ensures CaseIds(cases[..n]) == CaseIds(cases[..n - 1]) + {cases[n - 1].expected.fixtureId}
  {
    assert cases[..n] == cases[..n - 1] + [cases[n - 1]];
  }

  lemma ReportedStep(cases: seq<ReferenceCase>, compare: string -> Comparison, n: nat)
    requires 0 < n <= |cases|
    ensures Reported(cases, compare, n)
       <==> Reported(cases, compare, n - 1) || ReportsLayer(compare(cases[n - 1].expected.fixtureId))
  {
  }

  lemma {:induction false} ComparedWithin(cases: seq<ReferenceCase>, opts: DriverOptions,
                                          compare: string -> Comparison, n: nat)
    requires n <= |cases|
    ensures Compare(cases, opts, compare, n).compared <= CaseIds(cases)
  {
    if n > 0 {
      ComparedWithin(cases, opts, compare, n - 1);
      assert cases[n - 1] in cases;
    }
  }

  // ------------------------------------------------------------ the verdict

  lemma CaseIdsWithin(m: Manifest, w: World)
    requires |m.fixtures| == |w.readings|
    ensures CaseIds(Cases(m, w, |m.fixtures|)) <= KnownIds(m)
  {
    forall c | c in Cases(m, w, |m.fixtures|) ensures c.expected.fixtureId in KnownIds(m) {
      CaseExpected(m, w, c);
    }
  }

  /** Whatever happens, the stages stay within the expected set. */
  lemma FinalWithin(m: Manifest, w: World, opts: DriverOptions, compare: string -> Comparison)
    requires Regular(m) && |m.fixtures| == |w.readings|
    ensures var s := Final(m, w, opts, compare);
      s.discovered <= s.expected && s.generated <= s.expected && s.compared <= s.expected
  {
    DiscoveredExact(m, w);
    ReadIdsWithin(m, w);
    CalibrationExact(m, GeneratedBy(m, w), FailedBefore(m, w));
    var cases := Cases(m, w, |m.fixtures|);
    ComparedWithin(cases, opts, compare, |cases|);
    CaseIdsWithin(m, w);
  }

  /** What preflight must have found for the final state to be full. */
  ghost predicate Prepared(m: Manifest, w: World)
    requires |m.fixtures| == |w.readings|
  {
    NothingExtra(m, w) && AllPrompted(m, w) && AllReady(m, w)
  }

  lemma UnionEmpty<T>(a: set<T>, b: set<T>, c: set<T>)
    ensures a + b + c == {} <==> a == {} && b == {} && c == {}
  {
    assert a <= a + b + c && b <= a + b + c && c <= a + b + c;
  }

  lemma MergedThrough(s: Stages, p: Progress)
    ensures AllThrough(Merge(s, p)) <==>
      (s.expected != {} && s.discovered == s.expected && s.generated == s.expected
       && s.compared + p.compared == s.expected && s.unexpected == {}
       && s.skipped == {} && p.skipped == {} && s.failed == {} && p.failed == {})
  {
    UnionEmpty(s.skipped, p.skipped, {});
    UnionEmpty(s.failed, p.failed, {});
  }

  /** The parts of an empty failed set and an empty unexpected set. */
  lemma PreflightParts(m: Manifest, w: World)
    requires |m.fixtures| == |w.readings| && KnownIds(m) != {}
    ensures FailedBefore(m, w) == {} <==>
      (FamilyFailed(m, w, |m.expected|) == {} && !BadListing(w.listing) && RejectedIds(m, w, |m.fixtures|) == {})
    ensures UnexpectedBy(m, w) == {} <==>
      (Unplanned(KnownIds(m), w.prompts, w.prompts.Keys) == {} && AllStrays(m, w.listing) <= KnownIds(m)
       && ToSet(m.calibrated) <= KnownIds(m))
  {
    UnionEmpty(FamilyFailed(m, w, |m.expected|), if BadListing(w.listing) then KnownIds(m) else {},
               RejectedIds(m, w, |m.fixtures|));
    UnionEmpty(Unplanned(KnownIds(m), w.prompts, w.prompts.Keys), AllStrays(m, w.listing) - KnownIds(m),
               ToSet(m.calibrated) - KnownIds(m));
    DifferenceEmpty(AllStrays(m, w.listing), KnownIds(m));
    DifferenceEmpty(ToSet(m.calibrated), KnownIds(m));
  }

  lemma DifferenceEmpty<T>(a: set<T>, b: set<T>)
    ensures a - b == {} <==> a <= b
  {
    assert forall x :: x in a && x !in b ==> x in a - b;
  }

  lemma KnownNonempty(m: Manifest)
    requires m.expected != []
    ensures KnownIds(m) != {}
  {
    assert m.expected[0].fixtureId in KnownIds(m);
  }

  /** Nothing generated can be a stray, so what was generated was read. */
  lemma GeneratedIsRead(m: Manifest, w: World)
    requires Regular(m) && |m.fixtures| == |w.readings|
    ensures GeneratedBy(m, w) == ReadIds(m, w, |m.fixtures|)
  {
    NoStrayIsExpected(m, w);
  }

  lemma PromptsExact(m: Manifest, w: World)
    requires Regular(m)
    ensures AllPrompted(m, w) <==> Discovered(m, w, |m.expected|) == KnownIds(m) && FamilyFailed(m, w, |m.expected|) == {}
  {
    DiscoveredExact(m, w);
    FamilyExact(m, w);
    assert forall e :: HasPrompt(w, e) <==> e.promptId in w.prompts && !FamilyWrong(w, e);
  }

  lemma ExtrasExact(m: Manifest, w: World)
    requires Regular(m) && |m.fixtures| == |w.readings|
    ensures NothingExtra(m, w) <==> !BadListing(w.listing) && UnexpectedBy(m, w) == {}
  {
    KnownNonempty(m);
    PreflightParts(m, w);
    UnplannedExact(m, w);
    NoStrayIsExpected(m, w);
    CalibrationExact(m, {}, {});
    var strays := AllStrays(m, w.listing);
    assert strays <= KnownIds(m) <==> strays == {} by {
      assert strays <= KnownIds(m) ==> strays == strays * KnownIds(m);
    }
  }

  /** Preflight prepared everything exactly when its stages are full. */
  lemma PreparedExact(m: Manifest, w: World)
    requires Regular(m) && |m.fixtures| == |w.readings|
    ensures Prepared(m, w) <==>
      (Discovered(m, w, |m.expected|) == KnownIds(m) && GeneratedBy(m, w) == KnownIds(m)
       && FailedBefore(m, w) == {} && UnexpectedBy(m, w) == {})
  {
    var noFamily, noBad := FamilyFailed(m, w, |m.expected|) == {}, !BadListing(w.listing);
    var noReject := RejectedIds(m, w, |m.fixtures|) == {};
    assert AllPrompted(m, w) <==> Discovered(m, w, |m.expected|) == KnownIds(m) && noFamily by {
      PromptsExact(m, w);
    }
    assert NothingExtra(m, w) <==> noBad && UnexpectedBy(m, w) == {} by {
      ExtrasExact(m, w);
    }
    assert AllReady(m, w) <==> GeneratedBy(m, w) == KnownIds(m) && noReject by {
      GeneratedIsRead(m, w);
      ReadingsExact(m, w);
    }
    assert FailedBefore(m, w) == {} <==> noFamily && noBad && noReject by {
      KnownNonempty(m);
      PreflightParts(m, w);
    }
  }

  lemma PreparedStages(m: Manifest, w: World)
    requires Regular(m) && |m.fixtures| == |w.readings| && Prepared(m, w)
    ensures Clean(m, w)
    ensures Preflighted(m, w) == Stages(KnownIds(m), KnownIds(m), KnownIds(m), ToSet(m.calibrated), {}, {}, {})
  {
    PreparedExact(m, w);
    CalibrationExact(m, GeneratedBy(m, w), FailedBefore(m, w));
    ReadingsExact(m, w);
    PromptsExact(m, w);
  }

  /** Once prepared, the comparisons are exactly the reference fixtures. */
  lemma CasesAreReferences(m: Manifest, w: World, e: Expected)
    requires Regular(m) && |m.fixtures| == |w.readings| && Prepared(m, w) && e in m.expected
    ensures e.fixtureId in CaseIds(Cases(m, w, |m.fixtures|)) <==> e.role == Reference
  {
    var cases := Cases(m, w, |m.fixtures|);
    if e.role == Reference {
      assert IsReady(m, w, e) && HasPrompt(w, e);
      var c := ReadyCase(m, w, e);
    } else if e.fixtureId in CaseIds(cases) {
      var c :| c in cases && c.expected.fixtureId == e.fixtureId;
      CaseExpected(m, w, c);
      SameId(m.expected, c.expected, e);
    }
  }

  /** All the cases run and pass exactly when every reference fixture is settled. */
  lemma CasesSettle(m: Manifest, w: World, opts: DriverOptions, compare: string -> Comparison, e: Expected)
    requires Regular(m) && |m.fixtures| == |w.readings| && Prepared(m, w) && e in m.expected && e.role == Reference
    requires var cases := Cases(m, w, |m.fixtures|); RunsAndPasses(cases, opts, compare, |cases|)
    ensures IsSettled(m, opts, compare, e)
  {
    var cases := Cases(m, w, |m.fixtures|);
    assert IsReady(m, w, e) && HasPrompt(w, e);
    var c := ReadyCase(m, w, e);
    var k :| 0 <= k < |cases| && cases[k] == c;
  }

  lemma SettledRuns(m: Manifest, w: World, opts: DriverOptions, compare: string -> Comparison)
    requires |m.fixtures| == |w.readings| && AllSettled(m, opts, compare)
    ensures var cases := Cases(m, w, |m.fixtures|); RunsAndPasses(cases, opts, compare, |cases|)
  {
    var cases := Cases(m, w, |m.fixtures|);
    forall k | 0 <= k < |cases|
      ensures Enabled(cases[k].expected.required, opts) && Passes(compare(cases[k].expected.fixtureId))
    {
      CaseExpected(m, w, cases[k]);
      assert IsSettled(m, opts, compare, cases[k].expected);
    }
  }

  /** Calibrated and compared identities cover the manifest exactly when all baselines are calibrated. */
  lemma CoverExact(m: Manifest, w: World)
    requires Regular(m) && |m.fixtures| == |w.readings| && Prepared(m, w)
    ensures ToSet(m.calibrated) + CaseIds(Cases(m, w, |m.fixtures|)) == KnownIds(m)
       <==> forall e :: e in m.expected && e.role == Baseline ==> e.fixtureId in m.calibrated
  {
    var ids := CaseIds(Cases(m, w, |m.fixtures|));
    assert ToSet(m.calibrated) <= KnownIds(m) by { CalibrationExact(m, {}, {}); }
    assert ids <= KnownIds(m) by { CaseIdsWithin(m, w); }
    forall e | e in m.expected ensures e.fixtureId in KnownIds(m) && (e.fixtureId in ids <==> e.role == Reference) {
      CasesAreReferences(m, w, e);
    }
  }

  /** The comparison stage is full exactly when everything is settled. */
  lemma SettledExact(m: Manifest, w: World, opts: DriverOptions, compare: string -> Comparison)
    requires Regular(m) && |m.fixtures| == |w.readings| && Prepared(m, w)
    ensures var p := FinalProgress(m, w, opts, compare);
      AllSettled(m, opts, compare)
      <==> p.skipped == {} && p.failed == {} && ToSet(m.calibrated) + p.compared == KnownIds(m)
  {
    var cases := Cases(m, w, |m.fixtures|);
    var p := FinalProgress(m, w, opts, compare);
    var runs := RunsAndPasses(cases, opts, compare, |cases|);
    assert p.skipped == {} && p.failed == {} <==> runs by { CompareExact(cases, opts, compare, |cases|); }
    assert runs ==> p.compared == CaseIds(cases) by {
      if runs {
        ComparePassing(cases, opts, compare, |cases|);
        assert cases[..|cases|] == cases;
      }
    }
    CoverExact(m, w);
    if AllSettled(m, opts, compare) {
      SettledRuns(m, w, opts, compare);
      assert forall e :: e in m.expected && e.role == Baseline ==> IsSettled(m, opts, compare, e);
    } else {
      var e :| e in m.expected && !IsSettled(m, opts, compare, e);
      if runs && e.role == Reference {
        CasesSettle(m, w, opts, compare, e);
      }
    }
  }

  /** The final state is full exactly when everything is prepared and settled. */
  lemma ThroughExact(m: Manifest, w: World, opts: DriverOptions, compare: string -> Comparison)
    requires Regular(m) && |m.fixtures| == |w.readings|
    ensures AllThrough(Final(m, w, opts, compare)) <==> Prepared(m, w) && AllSettled(m, opts, compare)
  {
    var s, p := Preflighted(m, w), FinalProgress(m, w, opts, compare);
    assert KnownIds(m) != {} by { KnownNonempty(m); }
    MergedThrough(s, p);
    if Prepared(m, w) {
      PreparedStages(m, w);
      SettledExact(m, w, opts, compare);
    } else {
      PreparedExact(m, w);
      UnionEmpty(FailedBefore(m, w), BadCalibration(m, w), {});
    }
  }

  lemma EvidenceExact(m: Manifest, w: World, opts: DriverOptions, compare: string -> Comparison)
    requires Regular(m) && |m.fixtures| == |w.readings| && Prepared(m, w) && AllSettled(m, opts, compare)
    ensures var p := FinalProgress(m, w, opts, compare);
      && p.failures == [] && AllTrue(p.l1) && AllTrue(p.l2)
      && (p.l1 != [] || p.l2 != [] <==> SomeEvidence(m, compare))
  {
    SettledRuns(m, w, opts, compare);
    var cases := Cases(m, w, |m.fixtures|);
    ComparePassing(cases, opts, compare, |cases|);
    if Reported(cases, compare, |cases|) {
      var k :| 0 <= k < |cases| && ReportsLayer(compare(cases[k].expected.fixtureId));
      CaseExpected(m, w, cases[k]);
    }
    if SomeEvidence(m, compare) {
      var e :| e in m.expected && e.role == Reference && ReportsLayer(compare(e.fixtureId));
      assert IsReady(m, w, e) && HasPrompt(w, e);
      var c := ReadyCase(m, w, e);
      var k :| 0 <= k < |cases| && cases[k] == c;
    }
  }

  /** Everything the verdict stands for. */
  ghost predicate Releasable(m: Manifest, w: World, opts: DriverOptions, compare: string -> Comparison)
    requires |m.fixtures| == |w.readings|
  {
    Prepared(m, w) && AllSettled(m, opts, compare) && SomeEvidence(m, compare)
  }

  /** The report drawn up from the final state, apart from its failure list. */
  ghost predicate Reports(r: Report, m: Manifest, w: World, opts: DriverOptions, compare: string -> Comparison)
    requires |m.fixtures| == |w.readings|
  {
    var p := FinalProgress(m, w, opts, compare);
    && r.l1 == p.l1 && r.l2 == p.l2 && r.lifecycle == TotalsOf(Final(m, w, opts, compare))
    && (r.failures == [] <==> Clean(m, w) && p.failures == [])
  }

  /** The release counts are exact. */
  lemma CountsExact(m: Manifest, w: World, opts: DriverOptions, compare: string -> Comparison)
    requires Regular(m) && |m.fixtures| == |w.readings|
    ensures ReleasePassed(TotalsOf(Final(m, w, opts, compare))) <==> Prepared(m, w) && AllSettled(m, opts, compare)
  {
    FinalWithin(m, w, opts, compare);
    CountsDecide(Final(m, w, opts, compare));
    ThroughExact(m, w, opts, compare);
  }

  lemma ReferenceExact(m: Manifest, w: World, opts: DriverOptions, compare: string -> Comparison, r: Report)
    requires Regular(m) && |m.fixtures| == |w.readings| && Reports(r, m, w, opts, compare)
    requires Prepared(m, w) && AllSettled(m, opts, compare)
    ensures ReferencePassed(r) <==> SomeEvidence(m, compare)
    ensures r.failures == []
  {
    assert Clean(m, w) by { PreparedStages(m, w); }
    EvidenceExact(m, w, opts, compare);
  }

  lemma VerdictWhenReady(m: Manifest, w: World, opts: DriverOptions, compare: string -> Comparison, r: Report)
    requires Regular(m) && |m.fixtures| == |w.readings| && Reports(r, m, w, opts, compare)
    requires Prepared(m, w) && AllSettled(m, opts, compare)
    ensures OverallPassed(r) <==> SomeEvidence(m, compare)
    ensures r.failures == []
  {
    assert ReleasePassed(r.lifecycle) by { CountsExact(m, w, opts, compare); }
    ReferenceExact(m, w, opts, compare, r);
  }

  lemma VerdictOtherwise(m: Manifest, w: World, opts: DriverOptions, compare: string -> Comparison, r: Report)
    requires Regular(m) && |m.fixtures| == |w.readings| && Reports(r, m, w, opts, compare)
    requires !(Prepared(m, w) && AllSettled(m, opts, compare))
    ensures !OverallPassed(r)
  {
    CountsExact(m, w, opts, compare);
  }

  /** The counts pass exactly when the run is releasable, and then nothing was reported. */
  lemma VerdictExact(m: Manifest, w: World, opts: DriverOptions, compare: string -> Comparison, r: Report)
    requires Regular(m) && |m.fixtures| == |w.readings| && Reports(r, m, w, opts, compare)
    ensures OverallPassed(r) <==> Releasable(m, w, opts, compare)
    ensures OverallPassed(r) ==> r.failures == []
  {
    if Prepared(m, w) && AllSettled(m, opts, compare) {
      VerdictWhenReady(m, w, opts, compare, r);
    } else {
      VerdictOtherwise(m, w, opts, compare, r);
    }
  }

  method RunPrepared(m: Manifest, w: World, opts: DriverOptions, compare: string -> Comparison) returns (r: Report)
    requires |m.fixtures| == |w.readings|
    ensures Reports(r, m, w, opts, compare)
  {
    var tracker, cases, errors := Preflight(m, w);
    forall i | 0 <= i < |cases| ensures cases[i].expected.fixtureId in tracker.expected {
      CaseExpected(m, w, cases[i]);
    }
    r := RunPreparedComparisons(tracker, cases, errors, opts, compare);
  }

  /**
   A whole validation run.  For an accepted manifest the report passes exactly when the run is
   releasable; then every stage is full and the failure list, which the verdict never reads, is empty.
   */
  method RunComparison(m: Manifest, w: World, opts: DriverOptions, compare: string -> Comparison) returns (r: Report)
    requires |m.fixtures| == |w.readings|
    ensures Reports(r, m, w, opts, compare)
    ensures Accepted(m) ==> (OverallPassed(r) <==> Releasable(m, w, opts, compare))
    ensures Accepted(m) && OverallPassed(r) ==> r.failures == [] && AllThrough(Final(m, w, opts, compare))
  {
    r := RunPrepared(m, w, opts, compare);
    if Accepted(m) {
      AcceptedVerdict(m, w, opts, compare, r);
    }
  }

  lemma AcceptedVerdict(m: Manifest, w: World, opts: DriverOptions, compare: string -> Comparison, r: Report)
    requires Accepted(m) && |m.fixtures| == |w.readings| && Reports(r, m, w, opts, compare)
    ensures OverallPassed(r) <==> Releasable(m, w, opts, compare)
    ensures OverallPassed(r) ==> r.failures == [] && AllThrough(Final(m, w, opts, compare))
  {
    AcceptedIsRegular(m);
    VerdictExact(m, w, opts, compare, r);
    if OverallPassed(r) {
      ThroughExact(m, w, opts, compare);
    }
  }
}
