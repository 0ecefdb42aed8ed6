/**
 The fixture part of a golden manifest and the contract a manifest must meet.
 */
module ReleaseManifest {
  import opened Options
  import opened Sequences

  datatype Oracle = Transformers | Vllm | Fake
  datatype Role = Reference | Baseline
  datatype Family = Canonical | Batch | Regression
  datatype Category = CanonicalPrompt | RegressionPrompt
  datatype Required = L1 | L1L2 | Calibration

  datatype Expected = Expected(
    fixtureId: string, promptId: string, family: Family, modelRevision: string, dtype: string,
    oracle: Oracle, role: Role, required: Required, filename: string)

  datatype Metadata = Metadata(
    promptId: string, category: Category, oracle: Oracle, logitsShape: (nat, nat), sha256: string, filename: string)

  datatype Model = Model(revision: string, dtype: string, vocabSize: nat)

  datatype Manifest = Manifest(
    model: Model, expected: seq<Expected>, fixtures: seq<Metadata>, calibrated: seq<string>)

  // ------------------------------------------------------------ identities

  function Label(oracle: Oracle): string {
    match oracle
    case Transformers => "transformers"
    case Vllm => "vllm"
    case Fake => "fake"
  }

  function CanonicalId(promptId: string, oracle: Oracle): string {
    promptId + "." + Label(oracle)
  }

  const EXTENSION := ".safetensors"

  predicate IdentifierChar(c: char) {
    'a' <= c <= 'z' || 'A' <= c <= 'Z' || '0' <= c <= '9' || c == '_' || c == '-'
  }

  function LowerChar(c: char): char {
    if 'A' <= c <= 'Z' then c - 'A' + 'a' else c
  }

  function Lower(s: string): string {
    seq(|s|, i requires 0 <= i < |s| => LowerChar(s[i]))
  }

  predicate LowerHex(s: string, length: nat) {
    |s| == length && forall i :: 0 <= i < |s| ==> '0' <= s[i] <= '9' || 'a' <= s[i] <= 'f'
  }

  // -------------------------------------------------------------- contract

  function ReferenceComparison(family: Family): Required {
    if family == Regression then L1 else L1L2
  }

  function CategoryOf(family: Family): Category {
    if family == Regression then RegressionPrompt else CanonicalPrompt
  }

  predicate RoleContract(e: Expected) {
    || (e.oracle == Transformers && e.role == Reference && e.required == ReferenceComparison(e.family))
    || (e.oracle == Vllm && e.role == Baseline && e.required == Calibration)
  }

  /** What is demanded of one expected fixture on its own. */
  predicate GoodExpected(model: Model, e: Expected) {
    && e.promptId != [] && (forall i :: 0 <= i < |e.promptId| ==> IdentifierChar(e.promptId[i]))
    && e.fixtureId == CanonicalId(e.promptId, e.oracle)
    && e.filename == CanonicalId(e.promptId, e.oracle) + EXTENSION
    && e.modelRevision == model.revision && e.dtype == model.dtype
    && e.modelRevision != [] && e.dtype != []
    && RoleContract(e)
  }

  predicate UniqueIds(expected: seq<Expected>) {
    forall i, j :: 0 <= i < j < |expected| ==> expected[i].fixtureId != expected[j].fixtureId
  }

  function PortableName(e: Expected): string { Lower(e.filename) }

  predicate UniqueNames(expected: seq<Expected>) {
    forall i, j :: 0 <= i < j < |expected| ==> PortableName(expected[i]) != PortableName(expected[j])
  }

  function Prompts(expected: seq<Expected>): set<string> { set e | e in expected :: e.promptId }

  /** The prompt is declared for both roles, always in the same family. */
  ghost predicate PairedAt(expected: seq<Expected>, p: string) {
    && (exists f :: f in expected && f.promptId == p && f.role == Reference)
    && (exists f :: f in expected && f.promptId == p && f.role == Baseline)
    && (forall e, f :: e in expected && f in expected && e.promptId == p && f.promptId == p ==> f.family == e.family)
  }

  ghost predicate Paired(expected: seq<Expected>) {
    forall p :: p in Prompts(expected) ==> PairedAt(expected, p)
  }

  function Key(f: Metadata): (string, Oracle) { (f.promptId, f.oracle) }

  function Keys(fixtures: seq<Metadata>): seq<(string, Oracle)> {
    seq(|fixtures|, i requires 0 <= i < |fixtures| => Key(fixtures[i]))
  }

  predicate Describes(f: Metadata, e: Expected) {
    e.promptId == f.promptId && e.oracle == f.oracle && e.filename == f.filename
  }

  /** A generated fixture answers an expectation and has the category of its family. */
  ghost predicate GoodFixture(expected: seq<Expected>, f: Metadata) {
    LowerHex(f.sha256, 64) && exists e :: e in expected && Describes(f, e) && f.category == CategoryOf(e.family)
  }

  /** A calibrated fixture is an expected baseline that was generated. */
  ghost predicate GoodCalibrated(m: Manifest, id: string) {
    exists e :: e in m.expected && e.fixtureId == id && e.role == Baseline && (e.promptId, e.oracle) in Keys(m.fixtures)
  }

  ghost predicate GoodExpectations(m: Manifest) {
    && m.expected != [] && AllGood(m.model, m.expected)
    && UniqueIds(m.expected) && UniqueNames(m.expected) && Paired(m.expected)
  }

  predicate GoodModel(model: Model) {
    model.revision != [] && model.dtype != [] && model.vocabSize != 0
  }

  /** The contract apart from the uniqueness of generated fixtures. */
  ghost predicate Sound(m: Manifest) {
    && GoodExpectations(m) && GoodModel(m.model) && Distinct(m.calibrated)
    && (forall i :: 0 <= i < |m.calibrated| ==> GoodCalibrated(m, m.calibrated[i]))
    && (forall i :: 0 <= i < |m.fixtures| ==> GoodFixture(m.expected, m.fixtures[i]))
  }

  ghost predicate Accepted(m: Manifest) { Sound(m) && Distinct(Keys(m.fixtures)) }

  // ------------------------------------------------------------- the check

  function Ids(expected: seq<Expected>): set<string> { set e | e in expected :: e.fixtureId }
  function Names(expected: seq<Expected>): set<string> { set e | e in expected :: PortableName(e) }
  function RolesOf(expected: seq<Expected>, p: string): set<Role> {
    set e | e in expected && e.promptId == p :: e.role
  }
  function FamiliesOf(expected: seq<Expected>, p: string): set<Family> {
    set e | e in expected && e.promptId == p :: e.family
  }

  function RoleTable(expected: seq<Expected>): map<string, set<Role>> {
    map p | p in Prompts(expected) :: RolesOf(expected, p)
  }
  function FamilyTable(expected: seq<Expected>): map<string, set<Family>> {
    map p | p in Prompts(expected) :: FamiliesOf(expected, p)
  }

  function Insert<T>(table: map<string, set<T>>, p: string, x: T): map<string, set<T>> {
    table[p := (if p in table then table[p] else {}) + {x}]
  }

  lemma EnterSets(seen: seq<Expected>, e: Expected)
    ensures Ids(seen + [e]) == Ids(seen) + {e.fixtureId} && Names(seen + [e]) == Names(seen) + {PortableName(e)}
    ensures Prompts(seen + [e]) == Prompts(seen) + {e.promptId}
  {
  }

  lemma EnterRole(seen: seq<Expected>, e: Expected)
    ensures RoleTable(seen + [e]) == Insert(RoleTable(seen), e.promptId, e.role)
  {
    EnterSets(seen, e);
    assert forall p :: p != e.promptId ==> RolesOf(seen + [e], p) == RolesOf(seen, p);
    assert RolesOf(seen + [e], e.promptId) == RolesOf(seen, e.promptId) + {e.role};
    assert e.promptId !in Prompts(seen) ==> RolesOf(seen, e.promptId) == {};
  }

  lemma EnterFamily(seen: seq<Expected>, e: Expected)
    ensures FamilyTable(seen + [e]) == Insert(FamilyTable(seen), e.promptId, e.family)
  {
    EnterSets(seen, e);
    assert forall p :: p != e.promptId ==> FamiliesOf(seen + [e], p) == FamiliesOf(seen, p);
    assert FamiliesOf(seen + [e], e.promptId) == FamiliesOf(seen, e.promptId) + {e.family};
    assert e.promptId !in Prompts(seen) ==> FamiliesOf(seen, e.promptId) == {};
  }

  predicate AllGood(model: Model, expected: seq<Expected>) {
    forall i :: 0 <= i < |expected| ==> GoodExpected(model, expected[i])
  }

  lemma UniqueIdsStep(expected: seq<Expected>, i: nat)
    requires i < |expected| && UniqueIds(expected[..i])
    ensures UniqueIds(expected[..i + 1]) <==> expected[i].fixtureId !in Ids(expected[..i])
  {
    var seen, e := expected[..i], expected[i];
    assert forall k :: 0 <= k < i ==> seen[k] in seen && seen[k] == expected[..i + 1][k];
    if e.fixtureId in Ids(seen) {
      var f :| f in seen && f.fixtureId == e.fixtureId;
      var k :| 0 <= k < i && seen[k] == f;
    }
  }

  lemma UniqueNamesStep(expected: seq<Expected>, i: nat)
    requires i < |expected| && UniqueNames(expected[..i])
    ensures UniqueNames(expected[..i + 1]) <==> PortableName(expected[i]) !in Names(expected[..i])
  {
    var seen, e := expected[..i], expected[i];
    assert forall k :: 0 <= k < i ==> seen[k] in seen && seen[k] == expected[..i + 1][k];
    if PortableName(e) in Names(seen) {
      var f :| f in seen && PortableName(f) == PortableName(e);
      var k :| 0 <= k < i && seen[k] == f;
    }
  }

  lemma UniquePrefix(expected: seq<Expected>, i: nat)
    requires i <= |expected|
    ensures UniqueIds(expected) ==> UniqueIds(expected[..i])
    ensures UniqueNames(expected) ==> UniqueNames(expected[..i])
  {
  }

  datatype Tables = Tables(
    ids: set<string>, names: set<string>, roles: map<string, set<Role>>, families: map<string, set<Family>>)

  function TablesOf(seen: seq<Expected>): Tables {
    Tables(Ids(seen), Names(seen), RoleTable(seen), FamilyTable(seen))
  }

  method EnterExpected(t: Tables, e: Expected, ghost seen: seq<Expected>) returns (next: Tables)
    requires t == TablesOf(seen)
    ensures next == TablesOf(seen + [e])
  {
    EnterSets(seen, e);
    EnterRole(seen, e);
    EnterFamily(seen, e);
    next := Tables(t.ids + {e.fixtureId}, t.names + {PortableName(e)},
                   Insert(t.roles, e.promptId, e.role), Insert(t.families, e.promptId, e.family));
  }

  /** First loop: each expectation on its own and uniqueness, filling the tables by prompt. */
  method CheckExpected(model: Model, expected: seq<Expected>) returns (t: Option<Tables>)
    ensures t.Some? <==> AllGood(model, expected) && UniqueIds(expected) && UniqueNames(expected)
    ensures t.Some? ==> t.value == TablesOf(expected)
  {
    var tables := Tables({}, {}, map[], map[]);
    for i := 0 to |expected|
      invariant AllGood(model, expected[..i]) && UniqueIds(expected[..i]) && UniqueNames(expected[..i])
      invariant tables == TablesOf(expected[..i])
    {
      var good := GoodNext(model, expected, i, tables);
      if !good {
        return None;
      }
      tables := EnterExpected(tables, expected[i], expected[..i]);
      assert expected[..i + 1] == expected[..i] + [expected[i]];
    }
    assert expected[..|expected|] == expected;
    return Some(tables);
  }

  method GoodNext(model: Model, expected: seq<Expected>, i: nat, t: Tables) returns (ok: bool)
    requires i < |expected| && t == TablesOf(expected[..i])
    requires AllGood(model, expected[..i]) && UniqueIds(expected[..i]) && UniqueNames(expected[..i])
    ensures ok ==> AllGood(model, expected[..i + 1]) && UniqueIds(expected[..i + 1]) && UniqueNames(expected[..i + 1])
    ensures !ok ==> !AllGood(model, expected) || !UniqueIds(expected) || !UniqueNames(expected)
  {
    UniqueIdsStep(expected, i);
    UniqueNamesStep(expected, i);
    UniquePrefix(expected, i + 1);
    return GoodExpected(model, expected[i]) && expected[i].fixtureId !in t.ids && PortableName(expected[i]) !in t.names;
  }

  /** Comparing the two sets of a prompt decides whether it is paired. */
  lemma PairedBySets(expected: seq<Expected>, p: string)
    requires p in Prompts(expected)
    ensures PairedAt(expected, p) <==> RolesOf(expected, p) == {Reference, Baseline} && |FamiliesOf(expected, p)| == 1
  {
    var roles, families := RolesOf(expected, p), FamiliesOf(expected, p);
    assert forall r :: r in roles ==> r == Reference || r == Baseline;
    assert roles == {Reference, Baseline} <==> Reference in roles && Baseline in roles;
    var e :| e in expected && e.promptId == p;
    assert e.family in families;
    if |families| == 1 {
      Singleton(families, e.family);
      assert forall f :: f in expected && f.promptId == p ==> f.family in families;
    }
    assert PairedAt(expected, p) ==> families == {e.family};
  }

  lemma Singleton<T>(s: set<T>, x: T)
    requires |s| == 1 && x in s
    ensures s == {x}
  {
    assert |s - {x}| == 0;
  }

  /** Second loop, over the prompts. */
  method CheckPairs(expected: seq<Expected>, roles: map<string, set<Role>>, families: map<string, set<Family>>)
    returns (ok: bool)
    requires roles == RoleTable(expected) && families == FamilyTable(expected)
    ensures ok <==> Paired(expected)
  {
    var rest := roles.Keys;
    while rest != {}
      invariant rest <= Prompts(expected)
      invariant forall p :: p in Prompts(expected) && p !in rest ==> PairedAt(expected, p)
    {
      var p :| p in rest;
      PairedBySets(expected, p);
      if roles[p] != {Reference, Baseline} || |families[p]| != 1 {
        return false;
      }
      rest := rest - {p};
    }
    return true;
  }

  // ------------------------------------------------- looking up identities

  function IdTable(expected: seq<Expected>): (table: map<string, Expected>)
    ensures table.Keys == Ids(expected)
    ensures forall id :: id in table ==> table[id] in expected && table[id].fixtureId == id
  {
    if expected == [] then map[]
    else
      var init, last := expected[..|expected| - 1], expected[|expected| - 1];
      assert expected == init + [last];
      EnterSets(init, last);
      IdTable(init)[last.fixtureId := last]
  }

  /** With unique identities an identity determines the expectation. */
  lemma SameId(expected: seq<Expected>, e: Expected, f: Expected)
    requires UniqueIds(expected) && e in expected && f in expected && e.fixtureId == f.fixtureId
    ensures e == f
  {
    var i :| 0 <= i < |expected| && expected[i] == e;
    var j :| 0 <= j < |expected| && expected[j] == f;
  }

  predicate CalibratedInTable(table: map<string, Expected>, fixtures: seq<Metadata>, id: string) {
    id in table && table[id].role == Baseline && (table[id].promptId, table[id].oracle) in Keys(fixtures)
  }

  lemma CalibratedByTable(m: Manifest, id: string)
    requires UniqueIds(m.expected)
    ensures GoodCalibrated(m, id) <==> CalibratedInTable(IdTable(m.expected), m.fixtures, id)
  {
    if GoodCalibrated(m, id) {
      var e :| e in m.expected && e.fixtureId == id && e.role == Baseline && (e.promptId, e.oracle) in Keys(m.fixtures);
      assert id in Ids(m.expected);
      SameId(m.expected, e, IdTable(m.expected)[id]);
    }
  }

  predicate IsExpected(expected: seq<Expected>, f: Metadata) {
    exists e :: e in expected && Describes(f, e)
  }

  /** A described fixture's canonical identity finds the expectation that describes it. */
  lemma FixtureByTable(m: Manifest, f: Metadata)
    requires UniqueIds(m.expected) && AllGood(m.model, m.expected)
    ensures IsExpected(m.expected, f) ==> CanonicalId(f.promptId, f.oracle) in IdTable(m.expected)
    ensures GoodFixture(m.expected, f) <==>
      (LowerHex(f.sha256, 64) && IsExpected(m.expected, f)
       && f.category == CategoryOf(IdTable(m.expected)[CanonicalId(f.promptId, f.oracle)].family))
  {
    var id := CanonicalId(f.promptId, f.oracle);
    forall e | e in m.expected && Describes(f, e) ensures id in IdTable(m.expected) && IdTable(m.expected)[id] == e {
      assert e.fixtureId == id && id in Ids(m.expected);
      SameId(m.expected, e, IdTable(m.expected)[id]);
    }
  }

  method CheckCalibrated(m: Manifest) returns (ok: bool)
    requires UniqueIds(m.expected)
    ensures ok <==> Distinct(m.calibrated) && forall i :: 0 <= i < |m.calibrated| ==> GoodCalibrated(m, m.calibrated[i])
  {
    var table, seen := IdTable(m.expected), {};
    for i := 0 to |m.calibrated|
      invariant seen == ToSet(m.calibrated[..i]) && Distinct(m.calibrated[..i])
      invariant forall k :: 0 <= k < i ==> GoodCalibrated(m, m.calibrated[k])
    {
      var id := m.calibrated[i];
      SeenStep(m.calibrated, i);
      CalibratedByTable(m, id);
      if id in seen || !CalibratedInTable(table, m.fixtures, id) {
        return false;
      }
      seen := seen + {id};
    }
    assert m.calibrated[..|m.calibrated|] == m.calibrated;
    return true;
  }

  method CheckFixture(m: Manifest, f: Metadata, table: map<string, Expected>) returns (ok: bool)
    requires UniqueIds(m.expected) && AllGood(m.model, m.expected) && table == IdTable(m.expected)
    ensures ok <==> GoodFixture(m.expected, f)
  {
    FixtureByTable(m, f);
    if !LowerHex(f.sha256, 64) || !IsExpected(m.expected, f) {
      return false;
    }
    return f.category == CategoryOf(table[CanonicalId(f.promptId, f.oracle)].family);
  }

  method CheckFixtures(m: Manifest) returns (ok: bool)
    requires UniqueIds(m.expected) && AllGood(m.model, m.expected)
    ensures ok <==> forall i :: 0 <= i < |m.fixtures| ==> GoodFixture(m.expected, m.fixtures[i])
  {
    var table := IdTable(m.expected);
    ok := true;
    for i := 0 to |m.fixtures|
      invariant ok && forall k :: 0 <= k < i ==> GoodFixture(m.expected, m.fixtures[k])
    {
      ok := CheckFixture(m, m.fixtures[i], table);
      if !ok {
        return;
      }
    }
  }

  /** The fixture part of the manifest contract: what it accepts, stated outright. */
  method ValidateManifestContract(m: Manifest) returns (ok: bool)
    ensures ok <==> Accepted(m)
  {
    if m.expected == [] || !GoodModel(m.model) {
      return false;
    }
    var tables := CheckExpected(m.model, m.expected);
    if tables.None? {
      return false;
    }
    var paired := CheckPairs(m.expected, tables.value.roles, tables.value.families);
    if !paired {
      return false;
    }
    DistinctCount(Keys(m.fixtures));
    if |ToSet(Keys(m.fixtures))| != |m.fixtures| {
      return false;
    }
    var calibrated := CheckCalibrated(m);
    if !calibrated {
      return false;
    }
    ok := CheckFixtures(m);
  }
}
