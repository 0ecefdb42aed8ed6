/**
 The lifecycle tracker and the preflight that fills it before any comparison runs.
 What the file system and the prompt corpus returned is part of the input.
 */
module ReleaseLifecycle {
  import opened Options
  import opened Sequences
  import opened ReleaseManifest

  datatype Prompt = Prompt(id: string, family: Family)

  /** What listing the fixture directory yields. */
  datatype Entry = Unreadable | Nameless(safetensors: bool) | Named(name: string)
  datatype Listing = ListingFailed | Entries(entries: seq<Entry>)

  datatype Fixture = Fixture(promptTokens: int, tokenIds: seq<int>, top5: Option<seq<int>>)

  /** What reading one generated fixture yields: its digest, and its contents if they could be loaded. */
  datatype Reading = ReadFailed | Read(digest: string, contents: Option<Fixture>)

  datatype World = World(prompts: map<string, Prompt>, listing: Listing, readings: seq<Reading>)

  datatype Failure =
    | FamilyMismatch(id: string) | EntryUnreadable | EntryNameless | ListingUnreadable
    | FixtureUnreadable(name: string) | FixtureRejected(id: string) | CalibrationInvalid(id: string)
    | ComparisonFailed(id: string)

  datatype ReferenceCase = ReferenceCase(expected: Expected, metadata: Metadata, fixture: Fixture, prompt: Prompt)

  // --------------------------------------------------- what each stage sees

  function KnownIds(m: Manifest): set<string> { Ids(m.expected) }
  function KnownNames(m: Manifest): set<string> { set e | e in m.expected :: e.filename }

  /** A file name whose extension is that of a fixture; a bare extension is a hidden file without one. */
  predicate IsFixtureName(name: string) {
    |name| > |EXTENSION| && name[|name| - |EXTENSION|..] == EXTENSION
  }

  predicate FamilyWrong(w: World, e: Expected) {
    e.promptId in w.prompts && w.prompts[e.promptId].family != e.family
  }

  function Discovered(m: Manifest, w: World, n: nat): set<string>
    requires n <= |m.expected|
  {
    set i | 0 <= i < n && m.expected[i].promptId in w.prompts :: m.expected[i].fixtureId
  }

  function FamilyFailed(m: Manifest, w: World, n: nat): set<string>
    requires n <= |m.expected|
  {
    set i | 0 <= i < n && FamilyWrong(w, m.expected[i]) :: m.expected[i].fixtureId
  }

  /** The two fixtures a prompt of the corpus calls for. */
  function Planned(prompt: Prompt): set<string> {
    {CanonicalId(prompt.id, Transformers), CanonicalId(prompt.id, Vllm)}
  }

  /** Fixtures the corpus calls for that the manifest does not expect. */
  function Unplanned(known: set<string>, prompts: map<string, Prompt>, keys: set<string>): set<string>
    requires keys <= prompts.Keys
  {
    set k, id | k in keys && id in Planned(prompts[k]) && id !in known :: id
  }

  predicate BadEntry(x: Entry) { x.Unreadable? || (x.Nameless? && x.safetensors) }

  predicate BadListing(l: Listing) {
    l.ListingFailed? || exists i :: 0 <= i < |l.entries| && BadEntry(l.entries[i])
  }

  predicate StrayEntry(m: Manifest, x: Entry) {
    x.Named? && IsFixtureName(x.name) && x.name !in KnownNames(m)
  }

  /** Fixture files in the directory that no expectation names. */
  function Strays(m: Manifest, entries: seq<Entry>): set<string> {
    set i | 0 <= i < |entries| && StrayEntry(m, entries[i]) :: entries[i].name
  }

  function AllStrays(m: Manifest, l: Listing): set<string> {
    if l.ListingFailed? then {} else Strays(m, l.entries)
  }

  /** The first expectation a generated fixture answers. */
  function FindExpected(expected: seq<Expected>, f: Metadata): (r: Option<Expected>)
    ensures r.Some? ==> r.value in expected && Describes(f, r.value)
    ensures r.None? ==> !IsExpected(expected, f)
    decreases |expected|
  {
    if expected == [] then None
    else if Describes(f, expected[0]) then Some(expected[0])
    else FindExpected(expected[1..], f)
  }

  function FindById(expected: seq<Expected>, id: string): (r: Option<Expected>)
    ensures r.Some? ==> r.value in expected && r.value.fixtureId == id
    ensures r.None? ==> id !in Ids(expected)
    decreases |expected|
  {
    if expected == [] then None
    else if expected[0].fixtureId == id then Some(expected[0])
    else
      assert id in Ids(expected) ==> id in Ids(expected[1..]);
      FindById(expected[1..], id)
  }

  predicate InVocabulary(token: int, vocabSize: nat) { 0 <= token < vocabSize }

  predicate GoodValues(f: Fixture, vocabSize: nat) {
    && f.promptTokens > 0
    && (forall i :: 0 <= i < |f.tokenIds| ==> InVocabulary(f.tokenIds[i], vocabSize))
    && (f.top5.Some? ==> forall i :: 0 <= i < |f.top5.value| ==> InVocabulary(f.top5.value[i], vocabSize))
  }

  predicate GoodShape(m: Manifest, e: Expected, f: Metadata) {
    && f.category == CategoryOf(e.family)
    && if e.family == Regression then f.logitsShape == (0, 0) else f.logitsShape.1 == m.model.vocabSize
  }

  /** The file that was read is the one the manifest describes. */
  predicate GoodReading(m: Manifest, e: Expected, f: Metadata, r: Reading) {
    && r.Read? && r.digest == f.sha256
    && r.contents.Some? && GoodValues(r.contents.value, m.model.vocabSize)
    && GoodShape(m, e, f)
  }

  function Match(m: Manifest, j: nat): Option<Expected>
    requires j < |m.fixtures|
  {
    FindExpected(m.expected, m.fixtures[j])
  }

  /** The generated fixture answers an expectation and its file could be read. */
  predicate Readable(m: Manifest, w: World, j: nat)
    requires j < |m.fixtures| == |w.readings|
  {
    Match(m, j).Some? && w.readings[j].Read?
  }

  predicate Rejected(m: Manifest, w: World, j: nat)
    requires j < |m.fixtures| == |w.readings|
  {
    Readable(m, w, j) && !GoodReading(m, Match(m, j).value, m.fixtures[j], w.readings[j])
  }

  function ReadId(m: Manifest, w: World, j: nat): set<string>
    requires j < |m.fixtures| == |w.readings|
  {
    if Readable(m, w, j) then {Match(m, j).value.fixtureId} else {}
  }

  function RejectedId(m: Manifest, w: World, j: nat): set<string>
    requires j < |m.fixtures| == |w.readings|
  {
    if Rejected(m, w, j) then {Match(m, j).value.fixtureId} else {}
  }

  /** Identities of the first `n` generated fixtures that could be read. */
  function ReadIds(m: Manifest, w: World, n: nat): set<string>
    requires n <= |m.fixtures| == |w.readings|
  {
    if n == 0 then {} else ReadIds(m, w, n - 1) + ReadId(m, w, n - 1)
  }

  /** Of those, the ones whose file is not what the manifest describes. */
  function RejectedIds(m: Manifest, w: World, n: nat): set<string>
    requires n <= |m.fixtures| == |w.readings|
  {
    if n == 0 then {} else RejectedIds(m, w, n - 1) + RejectedId(m, w, n - 1)
  }

  /** The comparison a generated fixture gives rise to, if any. */
  function CaseOf(m: Manifest, w: World, j: nat): Option<ReferenceCase>
    requires j < |m.fixtures| == |w.readings|
  {
    if !Readable(m, w, j) || Rejected(m, w, j) then None
    else
      var e := Match(m, j).value;
      if e.role == Reference && e.promptId in w.prompts && w.prompts[e.promptId].family == e.family
      then Some(ReferenceCase(e, m.fixtures[j], w.readings[j].contents.value, w.prompts[e.promptId]))
      else None
  }

  function CaseList(m: Manifest, w: World, j: nat): seq<ReferenceCase>
    requires j < |m.fixtures| == |w.readings|
  {
    match CaseOf(m, w, j) case None => [] case Some(c) => [c]
  }

  function Cases(m: Manifest, w: World, n: nat): seq<ReferenceCase>
    requires n <= |m.fixtures| == |w.readings|
  {
    if n == 0 then []
    else Cases(m, w, n - 1) + CaseList(m, w, n - 1)
  }

  predicate ReadsWell(m: Manifest, w: World, j: nat)
    requires j < |m.fixtures| == |w.readings|
  {
    Match(m, j).Some? ==> Readable(m, w, j) && !Rejected(m, w, j)
  }

  predicate AllReadWell(m: Manifest, w: World, n: nat)
    requires n <= |m.fixtures| == |w.readings|
  {
    forall j :: 0 <= j < n ==> ReadsWell(m, w, j)
  }

  /** Calibration evidence must be for an expected baseline that was generated and has not failed. */
  predicate CalibrationGood(m: Manifest, generated: set<string>, failed: set<string>, id: string) {
    var e := FindById(m.expected, id);
    e.Some? && e.value.role == Baseline && id in generated && id !in failed
  }

  predicate CalibrationBad(m: Manifest, generated: set<string>, failed: set<string>, id: string) {
    FindById(m.expected, id).Some? && !CalibrationGood(m, generated, failed, id)
  }

  function BadCalibrated(m: Manifest, generated: set<string>, failed: set<string>, n: nat): set<string>
    requires n <= |m.calibrated|
  {
    set i | 0 <= i < n && CalibrationBad(m, generated, failed, m.calibrated[i]) :: m.calibrated[i]
  }

  function Calibrated(m: Manifest, generated: set<string>, failed: set<string>, n: nat): set<string>
    requires n <= |m.calibrated|
  {
    set i | 0 <= i < n && CalibrationGood(m, generated, failed, m.calibrated[i]) :: m.calibrated[i]
  }

  // --------------------------------------------------------------- tracker

  /** The seven sets of a tracker, as a value. */
  datatype Stages = Stages(
    expected: set<string>, discovered: set<string>, generated: set<string>, compared: set<string>,
    skipped: set<string>, failed: set<string>, unexpected: set<string>)

  datatype Totals = Totals(
    expected: nat, discovered: nat, generated: nat, compared: nat,
    missing: nat, unexpected: nat, skipped: nat, failed: nat)

  function Missing(s: Stages): set<string> {
    set id | id in s.expected && (id !in s.discovered || id !in s.generated)
  }

  class LifecycleTracker {
    const expected: set<string>
    var discovered: set<string>
    var generated: set<string>
    var compared: set<string>
    var skipped: set<string>
    var failed: set<string>
    var unexpected: set<string>

    ghost function Value(): Stages
      reads this
    {
      Stages(expected, discovered, generated, compared, skipped, failed, unexpected)
    }

    constructor (expected: set<string>)
      ensures Value() == Stages(expected, {}, {}, {}, {}, {}, {})
    {
      this.expected := expected;
      discovered, generated, compared, skipped, failed, unexpected := {}, {}, {}, {}, {}, {};
    }

    method RecordDiscovered(id: string)
      modifies this`discovered, this`unexpected
      ensures discovered == old(discovered) + ({id} * expected) && unexpected == old(unexpected) + ({id} - expected)
    {
      if id in expected { discovered := discovered + {id}; } else { unexpected := unexpected + {id}; }
    }

    method RecordGenerated(id: string)
      modifies this`generated, this`unexpected
      ensures generated == old(generated) + ({id} * expected) && unexpected == old(unexpected) + ({id} - expected)
    {
      if id in expected { generated := generated + {id}; } else { unexpected := unexpected + {id}; }
    }

    method RecordCompared(id: string)
      modifies this`compared, this`unexpected
      ensures compared == old(compared) + ({id} * expected) && unexpected == old(unexpected) + ({id} - expected)
    {
      if id in expected { compared := compared + {id}; } else { unexpected := unexpected + {id}; }
    }

    method RecordSkipped(id: string)
      modifies this`skipped, this`unexpected
      ensures skipped == old(skipped) + ({id} * expected) && unexpected == old(unexpected) + ({id} - expected)
    {
      if id in expected { skipped := skipped + {id}; } else { unexpected := unexpected + {id}; }
    }

    method RecordFailed(id: string)
      modifies this`failed, this`unexpected
      ensures failed == old(failed) + ({id} * expected) && unexpected == old(unexpected) + ({id} - expected)
    {
      if id in expected { failed := failed + {id}; } else { unexpected := unexpected + {id}; }
    }

    method RecordAllFailed()
      modifies this`failed
      ensures failed == old(failed) + expected
    {
      failed := failed + expected;
    }

    method CountTotals() returns (t: Totals)
      ensures t == Totals(|expected|, |discovered|, |generated|, |compared|, |Missing(Value())|,
                          |unexpected|, |skipped|, |failed|)
    {
      var missing := {};
      var rest := expected;
      while rest != {}
        invariant rest <= expected
        invariant missing == set id | id in Missing(Value()) && id !in rest
      {
        var id :| id in rest;
        if id !in discovered || id !in generated {
          missing := missing + {id};
        }
        rest := rest - {id};
      }
      assert missing == Missing(Value());
      return Totals(|expected|, |discovered|, |generated|, |compared|, |missing|, |unexpected|, |skipped|, |failed|);
    }

    // ------------------------------------------------------------ preflight

    /** Expected fixtures whose prompt exists; a prompt of another family is a failure. */
    method DiscoverExpected(m: Manifest, w: World) returns (errors: seq<Failure>)
      requires expected == KnownIds(m)
      modifies this`discovered, this`failed, this`unexpected
      ensures discovered == old(discovered) + Discovered(m, w, |m.expected|)
      ensures failed == old(failed) + FamilyFailed(m, w, |m.expected|)
      ensures unexpected == old(unexpected)
      ensures errors == [] <==> FamilyFailed(m, w, |m.expected|) == {}
    {
      errors := [];
      for i := 0 to |m.expected|
        invariant discovered == old(discovered) + Discovered(m, w, i)
        invariant failed == old(failed) + FamilyFailed(m, w, i)
        invariant unexpected == old(unexpected)
        invariant errors == [] <==> FamilyFailed(m, w, i) == {}
      {
        var e := m.expected[i];
        assert e.fixtureId in expected;
        assert Discovered(m, w, i + 1) == Discovered(m, w, i) + if e.promptId in w.prompts then {e.fixtureId} else {};
        assert FamilyFailed(m, w, i + 1) == FamilyFailed(m, w, i) + if FamilyWrong(w, e) then {e.fixtureId} else {};
        if e.promptId in w.prompts {
          RecordDiscovered(e.fixtureId);
          if w.prompts[e.promptId].family != e.family {
            RecordFailed(e.fixtureId);
            errors := errors + [FamilyMismatch(e.fixtureId)];
          }
        }
      }
    }

    method DiscoverPrompt(prompt: Prompt)
      modifies this`discovered, this`unexpected
      ensures discovered == old(discovered)
      ensures unexpected == old(unexpected) + (Planned(prompt) - expected)
    {
      var reference, baseline := CanonicalId(prompt.id, Transformers), CanonicalId(prompt.id, Vllm);
      if reference !in expected {
        RecordDiscovered(reference);
      }
      if baseline !in expected {
        RecordDiscovered(baseline);
      }
    }

    /** Prompts of the corpus whose fixtures are not expected, in any order. */
    method DiscoverPrompts(prompts: map<string, Prompt>)
      modifies this`discovered, this`unexpected
      ensures discovered == old(discovered)
      ensures unexpected == old(unexpected) + Unplanned(expected, prompts, prompts.Keys)
    {
      var rest := prompts.Keys;
      ghost var done: set<string> := {};
      while rest != {}
        invariant done + rest == prompts.Keys && done !! rest
        invariant discovered == old(discovered)
        invariant unexpected == old(unexpected) + Unplanned(expected, prompts, done)
      {
        var key :| key in rest;
        DiscoverPrompt(prompts[key]);
        UnplannedStep(expected, prompts, done, key);
        rest := rest - {key};
        done := done + {key};
      }
      assert done == prompts.Keys;
    }

    /** One directory entry. */
    method ScanEntry(m: Manifest, x: Entry) returns (errors: seq<Failure>)
      modifies this`generated, this`failed, this`unexpected
      ensures var strays := if StrayEntry(m, x) then {x.name} else {};
        generated == old(generated) + (strays * expected) && unexpected == old(unexpected) + (strays - expected)
      ensures failed == old(failed) + if BadEntry(x) then expected else {}
      ensures errors == [] <==> !BadEntry(x)
    {
      errors := [];
      match x
      case Unreadable =>
        RecordAllFailed();
        errors := [EntryUnreadable];
      case Nameless(safetensors) =>
        if safetensors {
          RecordAllFailed();
          errors := [EntryNameless];
        }
      case Named(name) =>
        if IsFixtureName(name) && name !in KnownNames(m) {
          RecordGenerated(name);
        }
    }

    method ScanEntries(m: Manifest, entries: seq<Entry>) returns (errors: seq<Failure>)
      modifies this`generated, this`failed, this`unexpected
      ensures var strays := Strays(m, entries);
        generated == old(generated) + (strays * expected) && unexpected == old(unexpected) + (strays - expected)
      ensures failed == old(failed) + if BadListing(Entries(entries)) then expected else {}
      ensures errors == [] <==> !BadListing(Entries(entries))
    {
      errors := [];
      for i := 0 to |entries|
        invariant generated == old(generated) + (Strays(m, entries[..i]) * expected)
        invariant unexpected == old(unexpected) + (Strays(m, entries[..i]) - expected)
        invariant failed == old(failed) + if BadListing(Entries(entries[..i])) then expected else {}
        invariant errors == [] <==> !BadListing(Entries(entries[..i]))
      {
        var problems := ScanEntry(m, entries[i]);
        errors := errors + problems;
        StraysStep(m, entries, i);
      }
      assert entries[..|entries|] == entries;
    }

    /** An unreadable directory or entry fails every expected fixture. */
    method ScanDirectory(m: Manifest, listing: Listing) returns (errors: seq<Failure>)
      requires expected == KnownIds(m)
      modifies this`generated, this`failed, this`unexpected
      ensures var strays := AllStrays(m, listing);
        generated == old(generated) + (strays * expected) && unexpected == old(unexpected) + (strays - expected)
      ensures failed == old(failed) + if BadListing(listing) then expected else {}
      ensures errors == [] <==> !BadListing(listing)
    {
      match listing
      case Entries(entries) =>
        errors := ScanEntries(m, entries);
      case ListingFailed =>
        FailExpected(m);
        errors := [ListingUnreadable];
    }

    method FailExpected(m: Manifest)
      requires expected == KnownIds(m)
      modifies this`failed, this`unexpected
      ensures failed == old(failed) + expected && unexpected == old(unexpected)
    {
      for i := 0 to |m.expected|
        invariant failed == old(failed) + Ids(m.expected[..i]) && unexpected == old(unexpected)
      {
        assert m.expected[..i + 1] == m.expected[..i] + [m.expected[i]];
        EnterSets(m.expected[..i], m.expected[i]);
        assert m.expected[i].fixtureId in expected;
        RecordFailed(m.expected[i].fixtureId);
      }
      assert m.expected[..|m.expected|] == m.expected;
    }

    /** One generated fixture; a read error is reported but marks nothing. */
    method ReadFixture(m: Manifest, w: World, j: nat) returns (errors: seq<Failure>, cases: seq<ReferenceCase>)
      requires expected == KnownIds(m) && j < |m.fixtures| == |w.readings|
      modifies this`generated, this`failed, this`unexpected
      ensures generated == old(generated) + ReadId(m, w, j)
      ensures failed == old(failed) + RejectedId(m, w, j)
      ensures unexpected == old(unexpected)
      ensures errors == [] <==> ReadsWell(m, w, j)
      ensures cases == CaseList(m, w, j)
    {
      errors, cases := [], [];
      var found := FindExpected(m.expected, m.fixtures[j]);
      if found.None? {
        return;
      }
      var e := found.value;
      assert e.fixtureId in expected;
      match w.readings[j] {
        case ReadFailed =>
          errors := [FixtureUnreadable(m.fixtures[j].filename)];
        case Read(digest, contents) =>
          RecordGenerated(e.fixtureId);
          if digest != m.fixtures[j].sha256 || contents.None? || !GoodValues(contents.value, m.model.vocabSize)
             || !GoodShape(m, e, m.fixtures[j]) {
            RecordFailed(e.fixtureId);
            errors := [FixtureRejected(e.fixtureId)];
          } else if e.role == Reference && e.promptId in w.prompts && w.prompts[e.promptId].family == e.family {
            cases := [ReferenceCase(e, m.fixtures[j], contents.value, w.prompts[e.promptId])];
          }
      }
    }

    method ReadFixtures(m: Manifest, w: World) returns (errors: seq<Failure>, cases: seq<ReferenceCase>)
      requires expected == KnownIds(m) && |m.fixtures| == |w.readings|
      modifies this`generated, this`failed, this`unexpected
      ensures generated == old(generated) + ReadIds(m, w, |m.fixtures|)
      ensures failed == old(failed) + RejectedIds(m, w, |m.fixtures|)
      ensures unexpected == old(unexpected)
      ensures errors == [] <==> AllReadWell(m, w, |m.fixtures|)
      ensures cases == Cases(m, w, |m.fixtures|)
    {
      errors, cases := [], [];
      for j := 0 to |m.fixtures|
        invariant generated == old(generated) + ReadIds(m, w, j)
        invariant failed == old(failed) + RejectedIds(m, w, j)
        invariant unexpected == old(unexpected)
        invariant errors == [] <==> AllReadWell(m, w, j)
        invariant cases == Cases(m, w, j)
      {
        var problems, more := ReadFixture(m, w, j);
        errors, cases := errors + problems, cases + more;
      }
    }

    method CalibrateOne(m: Manifest, id: string) returns (errors: seq<Failure>)
      requires expected == KnownIds(m)
      modifies this`failed, this`compared, this`unexpected
      ensures failed == old(failed) + if CalibrationBad(m, generated, old(failed), id) then {id} else {}
      ensures compared == old(compared) + if CalibrationGood(m, generated, old(failed), id) then {id} else {}
      ensures unexpected == old(unexpected) + ({id} - expected)
      ensures errors == [] <==> !CalibrationBad(m, generated, old(failed), id)
    {
      errors := [];
      var found := FindById(m.expected, id);
      if found.None? {
        RecordCompared(id);
      } else if found.value.role != Baseline || id !in generated || id in failed {
        assert id in expected;
        RecordFailed(id);
        errors := [CalibrationInvalid(id)];
      } else {
        assert id in expected;
        RecordCompared(id);
      }
    }

    /** Calibrated baselines count as compared; they must have been generated and not have failed. */
    method Calibrate(m: Manifest) returns (errors: seq<Failure>)
      requires expected == KnownIds(m)
      modifies this`failed, this`compared, this`unexpected
      ensures failed == old(failed) + BadCalibrated(m, generated, old(failed), |m.calibrated|)
      ensures compared == old(compared) + Calibrated(m, generated, old(failed), |m.calibrated|)
      ensures unexpected == old(unexpected) + (ToSet(m.calibrated) - expected)
      ensures errors == [] <==> BadCalibrated(m, generated, old(failed), |m.calibrated|) == {}
    {
      errors := [];
      for i := 0 to |m.calibrated|
        invariant failed == old(failed) + BadCalibrated(m, generated, old(failed), i)
        invariant compared == old(compared) + Calibrated(m, generated, old(failed), i)
        invariant unexpected == old(unexpected) + (ToSet(m.calibrated[..i]) - expected)
        invariant errors == [] <==> BadCalibrated(m, generated, old(failed), i) == {}
      {
        CalibrateStep(m, generated, old(failed), failed, i);
        var problems := CalibrateOne(m, m.calibrated[i]);
        errors := errors + problems;
      }
      assert m.calibrated[..|m.calibrated|] == m.calibrated;
    }
  }

  lemma UnplannedStep(known: set<string>, prompts: map<string, Prompt>, done: set<string>, key: string)
    requires done <= prompts.Keys && key in prompts
    ensures Unplanned(known, prompts, done + {key})
         == Unplanned(known, prompts, done) + (Planned(prompts[key]) - known)
  {
  }

  lemma StraysStep(m: Manifest, entries: seq<Entry>, i: nat)
    requires i < |entries|
    ensures Strays(m, entries[..i + 1]) == Strays(m, entries[..i]) + if StrayEntry(m, entries[i]) then {entries[i].name} else {}
    ensures BadListing(Entries(entries[..i + 1])) <==> BadListing(Entries(entries[..i])) || BadEntry(entries[i])
  {
    var before, after := entries[..i], entries[..i + 1];
    assert forall k :: 0 <= k < i ==> before[k] == after[k];
    assert after[i] == entries[i];
  }

  lemma {:induction false} ReadIdsMember(m: Manifest, w: World, n: nat, id: string)
    requires n <= |m.fixtures| == |w.readings|
    ensures id in ReadIds(m, w, n) <==> exists j :: 0 <= j < n && id in ReadId(m, w, j)
    ensures id in RejectedIds(m, w, n) <==> exists j :: 0 <= j < n && id in RejectedId(m, w, j)
  {
    if n > 0 {
      ReadIdsMember(m, w, n - 1, id);
    }
  }

  lemma CalibrateStep(m: Manifest, generated: set<string>, before: set<string>, failed: set<string>, i: nat)
    requires i < |m.calibrated| && failed == before + BadCalibrated(m, generated, before, i)
    ensures var id := m.calibrated[i];
      && (CalibrationBad(m, generated, failed, id) <==> CalibrationBad(m, generated, before, id))
      && (CalibrationGood(m, generated, failed, id) <==> CalibrationGood(m, generated, before, id))
      && BadCalibrated(m, generated, before, i + 1)
           == BadCalibrated(m, generated, before, i) + (if CalibrationBad(m, generated, before, id) then {id} else {})
      && Calibrated(m, generated, before, i + 1)
           == Calibrated(m, generated, before, i) + (if CalibrationGood(m, generated, before, id) then {id} else {})
      && ToSet(m.calibrated[..i + 1]) == ToSet(m.calibrated[..i]) + {id}
  {
    assert m.calibrated[..i + 1] == m.calibrated[..i] + [m.calibrated[i]];
  }
}
