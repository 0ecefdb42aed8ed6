/**
 Which manifests have a passing run at all, and a manifest that has one.
 */
module ReleaseWitness {
  import opened Options
  import opened Sequences
  import opened ReleaseManifest
  import opened ReleaseLifecycle
  import opened ReleaseGate
  import opened ReleaseVerdict
  import opened ReleaseDuplicates

  /** Every expectation is generated in the right shape, and every baseline is calibrated. */
  ghost predicate CompleteAt(m: Manifest, e: Expected) {
    && (exists j :: 0 <= j < |m.fixtures| && Describes(m.fixtures[j], e) && GoodShape(m, e, m.fixtures[j]))
    && (e.role == Baseline ==> e.fixtureId in m.calibrated)
  }

  ghost predicate Complete(m: Manifest) {
    forall e {:trigger CompleteAt(m, e)} :: e in m.expected ==> CompleteAt(m, e)
  }

  ghost predicate HasPassingRun(m: Manifest) {
    exists w, opts, compare, r :: Passing(m, w, opts, compare, r)
  }

  // ------------------------------------------------------- the ideal world

  ghost function FamilyOf(m: Manifest, p: string): Family
    requires p in Prompts(m.expected)
  {
    var e :| e in m.expected && e.promptId == p;
    e.family
  }

  ghost function Corpus(m: Manifest): map<string, Prompt> {
    map p | p in Prompts(m.expected) :: Prompt(p, FamilyOf(m, p))
  }

  /** Every prompt is in the corpus, nothing else is in the directory, and every file is as described. */
  ghost function IdealWorld(m: Manifest): World {
    World(Corpus(m), Entries([]),
          seq(|m.fixtures|, j requires 0 <= j < |m.fixtures| => Read(m.fixtures[j].sha256, Some(Fixture(1, [], None)))))
  }

  const ALL_LAYERS := DriverOptions(false, false)

  function AlwaysPasses(id: string): Comparison { Compared(Some(true), None) }

  lemma ReferenceOf(m: Manifest, p: string) returns (e: Expected)
    requires Sound(m) && p in Prompts(m.expected)
    ensures e in m.expected && e.promptId == p && e.role == Reference && e.fixtureId == CanonicalId(p, Transformers)
  {
    assert PairedAt(m.expected, p);
    e :| e in m.expected && e.promptId == p && e.role == Reference;
    GoodMember(m, e);
  }

  lemma BaselineOf(m: Manifest, p: string) returns (e: Expected)
    requires Sound(m) && p in Prompts(m.expected)
    ensures e in m.expected && e.promptId == p && e.role == Baseline && e.fixtureId == CanonicalId(p, Vllm)
  {
    assert PairedAt(m.expected, p);
    e :| e in m.expected && e.promptId == p && e.role == Baseline;
    GoodMember(m, e);
  }

  lemma IdealHasNothingExtra(m: Manifest)
    requires Sound(m)
    ensures NothingExtra(m, IdealWorld(m))
  {
    forall p | p in Corpus(m) ensures Planned(Corpus(m)[p]) <= KnownIds(m) {
      var e := ReferenceOf(m, p);
      var f := BaselineOf(m, p);
    }
  }

  lemma IdealIsPrompted(m: Manifest)
    requires Sound(m)
    ensures AllPrompted(m, IdealWorld(m))
  {
    forall e | e in m.expected ensures HasPrompt(IdealWorld(m), e) {
      assert e.promptId in Prompts(m.expected) && PairedAt(m.expected, e.promptId);
    }
  }

  lemma IdealIsReady(m: Manifest)
    requires Complete(m)
    ensures AllReady(m, IdealWorld(m))
  {
    forall e | e in m.expected ensures IsReady(m, IdealWorld(m), e) {
      assert CompleteAt(m, e);
      var j :| 0 <= j < |m.fixtures| && Describes(m.fixtures[j], e) && GoodShape(m, e, m.fixtures[j]);
      assert GoodReading(m, e, m.fixtures[j], IdealWorld(m).readings[j]);
    }
  }

  lemma IdealIsSettled(m: Manifest)
    requires Sound(m) && Complete(m)
    ensures AllSettled(m, ALL_LAYERS, AlwaysPasses) && SomeEvidence(m, AlwaysPasses)
  {
    forall e | e in m.expected ensures IsSettled(m, ALL_LAYERS, AlwaysPasses, e) {
      assert CompleteAt(m, e);
      GoodMember(m, e);
    }
    assert m.expected[0].promptId in Prompts(m.expected);
    var e := ReferenceOf(m, m.expected[0].promptId);
    assert ReportsLayer(AlwaysPasses(e.fixtureId));
  }

  lemma IdealIsReleasable(m: Manifest)
    requires Sound(m) && Complete(m)
    ensures Releasable(m, IdealWorld(m), ALL_LAYERS, AlwaysPasses)
  {
    IdealHasNothingExtra(m);
    IdealIsPrompted(m);
    IdealIsReady(m);
    IdealIsSettled(m);
  }

  lemma CompletePasses(m: Manifest) returns (r: Report)
    requires Accepted(m) && Complete(m)
    ensures Passing(m, IdealWorld(m), ALL_LAYERS, AlwaysPasses, r)
  {
    var w := IdealWorld(m);
    r := SomeReport(m, w, ALL_LAYERS, AlwaysPasses);
    assert OverallPassed(r) by {
      IdealIsReleasable(m);
      AcceptedVerdict(m, w, ALL_LAYERS, AlwaysPasses, r);
    }
  }

  lemma PassingIsComplete(m: Manifest, w: World, opts: DriverOptions, compare: string -> Comparison, r: Report)
    requires Accepted(m) && Passing(m, w, opts, compare, r)
    ensures Complete(m)
  {
    assert AllReady(m, w) && AllSettled(m, opts, compare) by {
      AcceptedVerdict(m, w, opts, compare, r);
    }
    forall e | e in m.expected ensures CompleteAt(m, e) {
      assert IsReady(m, w, e) && IsSettled(m, opts, compare, e);
    }
  }

  /** An accepted manifest has a passing run if and only if it is complete. */
  lemma PassableExactly(m: Manifest)
    requires Accepted(m)
    ensures HasPassingRun(m) <==> Complete(m)
  {
    if HasPassingRun(m) {
      SomePassingRun(m);
    }
    if Complete(m) {
      var r := CompletePasses(m);
      RunExists(m, IdealWorld(m), ALL_LAYERS, AlwaysPasses, r);
    }
  }

  lemma SomePassingRun(m: Manifest)
    requires Accepted(m) && HasPassingRun(m)
    ensures Complete(m)
  {
    var w, opts, compare, r :| Passing(m, w, opts, compare, r);
    PassingIsComplete(m, w, opts, compare, r);
  }

  lemma RunExists(m: Manifest, w: World, opts: DriverOptions, compare: string -> Comparison, r: Report)
    requires Passing(m, w, opts, compare, r)
    ensures HasPassingRun(m)
  {
  }

  // ------------------------------------------------------------- an example

  const MODEL := Model("r", "d", 1)

  function Wanted(oracle: Oracle, role: Role, required: Required): Expected {
    var id := CanonicalId("p", oracle);
    Expected(id, "p", Family.Canonical, "r", "d", oracle, role, required, id + EXTENSION)
  }

  function Generated(oracle: Oracle): Metadata {
    Metadata("p", CanonicalPrompt, oracle, (0, 1), seq(64, _ => '0'), CanonicalId("p", oracle) + EXTENSION)
  }

  /** One prompt, generated for both oracles and calibrated. */
  const EXAMPLE := Manifest(MODEL, [Wanted(Transformers, Reference, L1L2), Wanted(Vllm, Baseline, Calibration)],
                            [Generated(Transformers), Generated(Vllm)], [CanonicalId("p", Vllm)])

  lemma ExampleAccepted()
    ensures Accepted(EXAMPLE) && Complete(EXAMPLE)
  {
    ExampleExpectations();
    ExampleFixtures();
  }

  lemma ExampleExpectations()
    ensures GoodExpectations(EXAMPLE) && GoodModel(MODEL)
  {
    var a, b := Wanted(Transformers, Reference, L1L2), Wanted(Vllm, Baseline, Calibration);
    assert EXAMPLE.expected == [a, b];
    assert GoodExpected(MODEL, a) && GoodExpected(MODEL, b) by { ExampleGood(); }
    assert a.fixtureId != b.fixtureId && PortableName(a) != PortableName(b) by { ExampleNames(); }
    assert PairedAt(EXAMPLE.expected, "p") by {
      assert a in EXAMPLE.expected && b in EXAMPLE.expected;
    }
  }

  lemma ExampleGood()
    ensures GoodExpected(MODEL, Wanted(Transformers, Reference, L1L2))
    ensures GoodExpected(MODEL, Wanted(Vllm, Baseline, Calibration))
  {
  }

  lemma ExampleNames()
    ensures var a, b := Wanted(Transformers, Reference, L1L2), Wanted(Vllm, Baseline, Calibration);
      a.fixtureId != b.fixtureId && PortableName(a) != PortableName(b)
  {
    var a, b := Wanted(Transformers, Reference, L1L2), Wanted(Vllm, Baseline, Calibration);
    assert a.fixtureId[2] == 't' && b.fixtureId[2] == 'v';
    assert PortableName(a)[2] == 't' && PortableName(b)[2] == 'v';
  }

  lemma ExampleFixtures()
    ensures Distinct(Keys(EXAMPLE.fixtures)) && Distinct(EXAMPLE.calibrated) && Complete(EXAMPLE)
    ensures forall i :: 0 <= i < |EXAMPLE.calibrated| ==> GoodCalibrated(EXAMPLE, EXAMPLE.calibrated[i])
    ensures forall i :: 0 <= i < |EXAMPLE.fixtures| ==> GoodFixture(EXAMPLE.expected, EXAMPLE.fixtures[i])
  {
    var a, b := Wanted(Transformers, Reference, L1L2), Wanted(Vllm, Baseline, Calibration);
    var f, g := Generated(Transformers), Generated(Vllm);
    assert EXAMPLE.expected == [a, b] && EXAMPLE.fixtures == [f, g] && EXAMPLE.calibrated == [b.fixtureId];
    ExampleFixture(a, f, 0);
    ExampleFixture(b, g, 1);
    assert Keys(EXAMPLE.fixtures)[0] == ("p", Transformers) && Keys(EXAMPLE.fixtures)[1] == ("p", Vllm);
    assert b in EXAMPLE.expected && GoodCalibrated(EXAMPLE, b.fixtureId);
  }

  lemma ExampleFixture(e: Expected, f: Metadata, j: nat)
    requires j < 2 && EXAMPLE.expected[j] == e && EXAMPLE.fixtures[j] == f
    ensures GoodFixture(EXAMPLE.expected, f) && CompleteAt(EXAMPLE, e)
  {
    assert e in EXAMPLE.expected && Describes(f, e) && GoodShape(EXAMPLE, e, f);
    assert EXAMPLE.calibrated[0] in EXAMPLE.calibrated;
  }

  /** The example has a passing run, and none of its passing runs records a failure. */
  lemma ExamplePasses()
    ensures Accepted(EXAMPLE) && HasPassingRun(EXAMPLE) && PassesOnlyClean(EXAMPLE)
  {
    ExampleAccepted();
    var r := CompletePasses(EXAMPLE);
    RunExists(EXAMPLE, IdealWorld(EXAMPLE), ALL_LAYERS, AlwaysPasses, r);
    UniquenessIsExact(EXAMPLE, IdealWorld(EXAMPLE), ALL_LAYERS, AlwaysPasses, r);
  }

  // ------------------------------------------------------------- a repeat

  /** The manifest with its first generated fixture listed once more. */
  function Appended(m: Manifest): Manifest
    requires m.fixtures != []
  {
    m.(fixtures := m.fixtures + [m.fixtures[0]])
  }

  function LastUnread(w: World): World { w.(readings := w.readings + [ReadFailed]) }

  lemma {:induction false} SameReads(m: Manifest, w: World, n: nat)
    requires m.fixtures != [] && n <= |m.fixtures| == |w.readings|
    ensures ReadIds(Appended(m), LastUnread(w), n) == ReadIds(m, w, n)
    ensures RejectedIds(Appended(m), LastUnread(w), n) == RejectedIds(m, w, n)
    ensures Cases(Appended(m), LastUnread(w), n) == Cases(m, w, n)
  {
    if n > 0 {
      SameReads(m, w, n - 1);
      SameEntry(m, w, n - 1);
    }
  }

  lemma SameEntry(m: Manifest, w: World, j: nat)
    requires m.fixtures != [] && j < |m.fixtures| == |w.readings|
    ensures ReadId(Appended(m), LastUnread(w), j) == ReadId(m, w, j)
    ensures RejectedId(Appended(m), LastUnread(w), j) == RejectedId(m, w, j)
    ensures CaseList(Appended(m), LastUnread(w), j) == CaseList(m, w, j)
  {
    assert Appended(m).fixtures[j] == m.fixtures[j] && LastUnread(w).readings[j] == w.readings[j];
  }

  /** The unread entry adds nothing. */
  lemma LastAddsNothing(m: Manifest, w: World)
    requires m.fixtures != [] && |m.fixtures| == |w.readings|
    ensures var d, u, n := Appended(m), LastUnread(w), |m.fixtures|;
      && ReadIds(d, u, n + 1) == ReadIds(m, w, n) && RejectedIds(d, u, n + 1) == RejectedIds(m, w, n)
      && Cases(d, u, n + 1) == Cases(m, w, n)
  {
    var d, u, n := Appended(m), LastUnread(w), |m.fixtures|;
    SameReads(m, w, n);
    assert u.readings[n] == ReadFailed && !Readable(d, u, n);
    assert Cases(d, u, n) + [] == Cases(d, u, n);
  }

  lemma SamePreflighted(m: Manifest, w: World)
    requires m.fixtures != [] && |m.fixtures| == |w.readings|
    ensures Preflighted(Appended(m), LastUnread(w)) == Preflighted(m, w)
  {
    var d, u := Appended(m), LastUnread(w);
    LastAddsNothing(m, w);
    assert GeneratedBy(d, u) == GeneratedBy(m, w);
    assert FailedBefore(d, u) == FailedBefore(m, w);
    assert BadCalibration(d, u) == BadCalibration(m, w);
    assert UnexpectedBy(d, u) == UnexpectedBy(m, w);
  }

  lemma SameFinal(m: Manifest, w: World, opts: DriverOptions, compare: string -> Comparison)
    requires m.fixtures != [] && |m.fixtures| == |w.readings|
    ensures FinalProgress(Appended(m), LastUnread(w), opts, compare) == FinalProgress(m, w, opts, compare)
    ensures Final(Appended(m), LastUnread(w), opts, compare) == Final(m, w, opts, compare)
  {
    LastAddsNothing(m, w);
    SamePreflighted(m, w);
  }

  lemma AppendedIsSound(m: Manifest)
    requires Sound(m) && m.fixtures != []
    ensures Sound(Appended(m)) && !Distinct(Keys(Appended(m).fixtures))
  {
    var d, n := Appended(m), |m.fixtures|;
    assert Keys(d.fixtures)[0] == Keys(d.fixtures)[n];
    assert Keys(d.fixtures) == Keys(m.fixtures) + [Key(m.fixtures[0])];
    forall i | 0 <= i < |d.calibrated| ensures GoodCalibrated(d, d.calibrated[i]) {
      assert GoodCalibrated(m, m.calibrated[i]);
    }
    forall i | 0 <= i < |d.fixtures| ensures GoodFixture(d.expected, d.fixtures[i]) {
      assert GoodFixture(m.expected, m.fixtures[if i < n then i else 0]);
    }
  }

  /** Every passing manifest has a repeating one that passes, and passes with a recorded failure. */
  lemma RepeatPasses(m: Manifest, w: World, opts: DriverOptions, compare: string -> Comparison, r: Report)
    requires Sound(m) && m.fixtures != [] && Passing(m, w, opts, compare, r)
    ensures Sound(Appended(m)) && HasPassingRun(Appended(m)) && !PassesOnlyClean(Appended(m))
  {
    AppendedIsSound(m);
    var again := SomeReport(Appended(m), LastUnread(w), opts, compare);
    assert OverallPassed(again) by {
      SameFinal(m, w, opts, compare);
    }
    RunExists(Appended(m), LastUnread(w), opts, compare, again);
    UniquenessIsExact(Appended(m), LastUnread(w), opts, compare, again);
  }
}
