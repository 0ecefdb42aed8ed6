/**
 The artifact inventory of a release manifest: canonical names, strictly increasing
 paths, and no path that is a directory of another.
 */
module Inventory {
  import opened Ustar

  const SLASH: byte := 47
  const TOTAL_LIMIT: nat := 1024 * 1024 * 1024 * 1024
  const MAX_ARTIFACTS: nat := 50_000
  const U64: nat := 0x1_0000_0000_0000_0000

  datatype Artifact = Artifact(path: bytes, filename: bytes, sha256: bytes, size: nat)

  // ------------------------------------------------------------ path parts

  function Split(path: bytes): (parts: seq<bytes>)
    ensures |parts| >= 1
  {
    if path == [] then [[]]
    else
      var rest := Split(path[1..]);
      if path[0] == SLASH then [[]] + rest else [[path[0]] + rest[0]] + rest[1..]
  }

  function Join(parts: seq<bytes>): bytes
    requires |parts| >= 1
  {
    if |parts| == 1 then parts[0] else parts[0] + [SLASH] + Join(parts[1..])
  }

  lemma {:induction false} JoinSplit(path: bytes)
    ensures Join(Split(path)) == path
  {
    if path != [] {
      var rest := Split(path[1..]);
      JoinSplit(path[1..]);
      if path[0] == SLASH {
        assert Split(path)[1..] == rest;
      } else if |rest| > 1 {
        assert Split(path)[1..] == rest[1..];
      }
    }
  }

  lemma {:induction false} SplitAtSlash(a: bytes, b: bytes)
    ensures Split(a + [SLASH] + b) == Split(a) + Split(b)
  {
    var whole := a + [SLASH] + b;
    if a == [] {
      assert whole[1..] == b;
    } else {
      assert whole[1..] == a[1..] + [SLASH] + b;
      SplitAtSlash(a[1..], b);
    }
  }

  lemma {:induction false} JoinAppend(a: seq<bytes>, b: seq<bytes>)
    requires |a| >= 1 && |b| >= 1
    ensures Join(a + b) == Join(a) + [SLASH] + Join(b)
  {
    if |a| == 1 {
      assert (a + b)[1..] == b;
    } else {
      assert (a + b)[1..] == a[1..] + b;
      JoinAppend(a[1..], b);
      assert Join(a + b) == a[0] + [SLASH] + (Join(a[1..]) + [SLASH] + Join(b));
    }
  }

  /** `q` names a directory on the way to `path`. */
  predicate IsAncestor(q: bytes, path: bytes) {
    |q| < |path| && path[..|q|] == q && path[|q|] == SLASH
  }

  lemma PrefixIsAncestor(path: bytes, k: nat)
    requires 1 <= k < |Split(path)|
    ensures IsAncestor(Join(Split(path)[..k]), path)
  {
    var parts := Split(path);
    assert parts == parts[..k] + parts[k..];
    JoinAppend(parts[..k], parts[k..]);
    JoinSplit(path);
  }

  /** The ancestors of a path are the joins of its proper leading parts. */
  lemma AncestorIsPrefix(q: bytes, path: bytes)
    ensures IsAncestor(q, path) <==> exists k :: 1 <= k < |Split(path)| && q == Join(Split(path)[..k])
  {
    var parts := Split(path);
    if IsAncestor(q, path) {
      var rest := path[|q| + 1..];
      assert path == q + [SLASH] + rest;
      SplitAtSlash(q, rest);
      JoinSplit(q);
      assert parts[..|Split(q)|] == Split(q);
    }
    if k :| 1 <= k < |parts| && q == Join(parts[..k]) {
      PrefixIsAncestor(path, k);
    }
  }

  predicate SafePart(part: bytes) {
    part != [] && part != [46] && part != [46, 46] && part != [46, 103, 105, 116]
  }

  predicate SafePath(path: bytes) {
    && 0 < |path| <= 512
    && (forall i :: 0 <= i < |path| ==> path[i] < 128 && path[i] != 92 && path[i] != 0)
    && (forall k :: 0 <= k < |Split(path)| ==> SafePart(Split(path)[k]))
  }

  // ------------------------------------------------------------ byte order

  predicate Precedes(a: bytes, b: bytes) {
    b != [] && (a == [] || a[0] < b[0] || (a[0] == b[0] && Precedes(a[1..], b[1..])))
  }

  lemma {:induction false} PrecedesTransitive(a: bytes, b: bytes, c: bytes)
    requires Precedes(a, b) && Precedes(b, c)
    ensures Precedes(a, c)
  {
    if a != [] && a[0] == b[0] && b[0] == c[0] {
      PrecedesTransitive(a[1..], b[1..], c[1..]);
    }
  }

  lemma {:induction false} PrecedesIrreflexive(a: bytes)
    ensures !Precedes(a, a)
  {
    if a != [] {
      PrecedesIrreflexive(a[1..]);
    }
  }

  lemma {:induction false} PrefixPrecedes(a: bytes, b: bytes)
    requires |a| < |b| && b[..|a|] == a
    ensures Precedes(a, b)
  {
    if a != [] {
      assert b[1..][..|a| - 1] == a[1..];
      PrefixPrecedes(a[1..], b[1..]);
    }
  }

  // ------------------------------------------------------------- inventory

  function DecimalDigit(n: nat): byte { 48 + n % 10 }

  /** "artifact-" + six decimal digits + ".bin", for an index below one million. */
  function ArtifactName(index: nat): (name: bytes)
    ensures |name| == 19 && forall i :: 0 <= i < |name| ==> name[i] != 0
  {
    [97, 114, 116, 105, 102, 97, 99, 116, 45]
    + [DecimalDigit(index / 100000), DecimalDigit(index / 10000), DecimalDigit(index / 1000),
       DecimalDigit(index / 100), DecimalDigit(index / 10), DecimalDigit(index)]
    + [46, 98, 105, 110]
  }

  predicate LowerHex(value: bytes, size: nat) {
    |value| == size && forall i :: 0 <= i < size ==> 48 <= value[i] <= 57 || 97 <= value[i] <= 102
  }

  function TotalSize(artifacts: seq<Artifact>): nat {
    if artifacts == [] then 0 else TotalSize(artifacts[..|artifacts| - 1]) + artifacts[|artifacts| - 1].size
  }

  predicate GoodEntry(a: Artifact, index: nat) {
    && SafePath(a.path) && a.filename == ArtifactName(index) && LowerHex(a.sha256, 64) && a.size <= FILE_LIMIT
  }

  /** What a release inventory promises, without reference to the order of checks. */
  ghost predicate GoodInventory(artifacts: seq<Artifact>) {
    && (forall i :: 0 <= i < |artifacts| ==> GoodEntry(artifacts[i], i))
    && (forall i, j :: 0 <= i < j < |artifacts| ==> Precedes(artifacts[i].path, artifacts[j].path))
    && (forall i, j :: 0 <= i < |artifacts| && 0 <= j < |artifacts| ==>
          !IsAncestor(artifacts[i].path, artifacts[j].path))
  }

  ghost function Paths(artifacts: seq<Artifact>): set<bytes> {
    set i | 0 <= i < |artifacts| :: artifacts[i].path
  }

  ghost predicate GoodManifest(artifacts: seq<Artifact>, entrypoints: seq<bytes>) {
    && 1 <= |artifacts| <= MAX_ARTIFACTS
    && GoodInventory(artifacts)
    && TotalSize(artifacts) <= TOTAL_LIMIT
    && (forall e :: 0 <= e < |entrypoints| ==> entrypoints[e] in Paths(artifacts))
  }

  lemma JoinNonEmpty(parts: seq<bytes>)
    requires |parts| >= 1 && parts[0] != []
    ensures Join(parts) != []
  {
  }

  /** Walks the leading parts of `path` and looks each one up among the earlier names. */
  method HasAncestor(names: set<bytes>, path: bytes) returns (found: bool)
    requires [] !in names && SafePath(path)
    ensures found <==> exists q :: q in names && IsAncestor(q, path)
  {
    var parts := Split(path);
    var prefix: bytes := [];
    for k := 0 to |parts|
      invariant prefix == if k == 0 then [] else Join(parts[..k])
      invariant forall m :: 0 < m < k ==> Join(parts[..m]) !in names
    {
      if prefix in names {
        PrefixIsAncestor(path, k);
        return true;
      }
      NextPrefix(parts, k);
      if prefix != [] {
        prefix := prefix + [SLASH];
      }
      prefix := prefix + parts[k];
    }
    forall q | q in names ensures !IsAncestor(q, path) {
      AncestorIsPrefix(q, path);
    }
    return false;
  }

  lemma NextPrefix(parts: seq<bytes>, k: nat)
    requires k < |parts| && forall i :: 0 <= i < |parts| ==> SafePart(parts[i])
    ensures k == 0 ==> Join(parts[..k + 1]) == parts[k]
    ensures k > 0 ==> Join(parts[..k]) != [] && Join(parts[..k + 1]) == Join(parts[..k]) + [SLASH] + parts[k]
  {
    assert parts[..k + 1] == parts[..k] + [parts[k]];
    if k > 0 {
      JoinAppend(parts[..k], [parts[k]]);
      JoinNonEmpty(parts[..k]);
    }
  }

  /** What the scan has established after `i` artifacts. */
  ghost predicate Scanned(artifacts: seq<Artifact>, i: nat) {
    && i <= |artifacts|
    && (forall k :: 0 <= k < i ==> GoodEntry(artifacts[k], k))
    && (forall k :: 0 < k < i ==> Precedes(artifacts[k - 1].path, artifacts[k].path))
    && (forall k, m :: 0 <= k < m < i ==> !IsAncestor(artifacts[k].path, artifacts[m].path))
  }

  lemma {:induction false} ScannedOrder(artifacts: seq<Artifact>, n: nat, i: nat, j: nat)
    requires Scanned(artifacts, n) && i < j < n
    ensures Precedes(artifacts[i].path, artifacts[j].path)
    decreases j
  {
    if i + 1 < j {
      ScannedOrder(artifacts, n, i, j - 1);
      PrecedesTransitive(artifacts[i].path, artifacts[j - 1].path, artifacts[j].path);
    }
  }

  /** Checking only earlier names suffices: an ancestor precedes its descendants. */
  lemma NoLaterAncestor(a: bytes, b: bytes)
    requires Precedes(a, b)
    ensures !IsAncestor(b, a)
  {
    if IsAncestor(b, a) {
      PrefixPrecedes(b, a);
      PrecedesTransitive(a, b, a);
      PrecedesIrreflexive(a);
    }
  }

  lemma ScannedIsGood(artifacts: seq<Artifact>)
    ensures Scanned(artifacts, |artifacts|) <==> GoodInventory(artifacts)
  {
    if Scanned(artifacts, |artifacts|) {
      forall i, j | 0 <= i < j < |artifacts| ensures Precedes(artifacts[i].path, artifacts[j].path) {
        ScannedOrder(artifacts, |artifacts|, i, j);
      }
      forall i, j | 0 <= i < |artifacts| && 0 <= j < |artifacts|
        ensures !IsAncestor(artifacts[i].path, artifacts[j].path)
      {
        if j < i {
          ScannedOrder(artifacts, |artifacts|, j, i);
          NoLaterAncestor(artifacts[j].path, artifacts[i].path);
        }
      }
    }
  }

  /** The checks of one artifact against what came before. */
  method CheckEntry(artifacts: seq<Artifact>, i: nat, names: set<bytes>, previous: seq<bytes>) returns (ok: bool)
    requires i < |artifacts| && Scanned(artifacts, i) && names == Paths(artifacts[..i])
    requires previous == if i == 0 then [] else [artifacts[i - 1].path]
    ensures ok <==> Scanned(artifacts, i + 1)
  {
    var a := artifacts[i];
    if !SafePath(a.path)
       || (previous != [] && !Precedes(previous[0], a.path))
       || a.filename != ArtifactName(i)
       || !LowerHex(a.sha256, 64)
       || a.size > FILE_LIMIT {
      return false;
    }
    assert [] !in names by {
      forall k | 0 <= k < i ensures artifacts[..i][k].path != [] {
        assert GoodEntry(artifacts[k], k);
      }
    }
    var conflict := HasAncestor(names, a.path);
    AncestorAmong(artifacts, i, names);
    return !conflict;
  }

  lemma AncestorAmong(artifacts: seq<Artifact>, i: nat, names: set<bytes>)
    requires i < |artifacts| && names == Paths(artifacts[..i])
    ensures (exists q :: q in names && IsAncestor(q, artifacts[i].path))
       <==> (exists k :: 0 <= k < i && IsAncestor(artifacts[k].path, artifacts[i].path))
  {
    if k :| 0 <= k < i && IsAncestor(artifacts[k].path, artifacts[i].path) {
      assert artifacts[..i][k].path in names;
    }
  }

  lemma TotalStep(artifacts: seq<Artifact>, i: nat)
    requires i < |artifacts| && Scanned(artifacts, i + 1)
    ensures TotalSize(artifacts[..i + 1]) == TotalSize(artifacts[..i]) + artifacts[i].size
    ensures artifacts[i].size <= FILE_LIMIT
  {
    assert artifacts[..i + 1][..i] == artifacts[..i];
    assert GoodEntry(artifacts[i], i);
  }

  /** What the scan holds after `i` artifacts. */
  ghost predicate ScanState(artifacts: seq<Artifact>, i: nat, names: set<bytes>, previous: seq<bytes>, total: nat) {
    && Scanned(artifacts, i)
    && names == Paths(artifacts[..i])
    && previous == (if i == 0 then [] else [artifacts[i - 1].path])
    && total == TotalSize(artifacts[..i]) <= i * FILE_LIMIT
  }

  lemma ScanStep(artifacts: seq<Artifact>, i: nat, names: set<bytes>, previous: seq<bytes>, total: nat)
    requires i < |artifacts| <= MAX_ARTIFACTS && ScanState(artifacts, i, names, previous, total) && Scanned(artifacts, i + 1)
    ensures ScanState(artifacts, i + 1, names + {artifacts[i].path}, [artifacts[i].path], total + artifacts[i].size)
    ensures total + artifacts[i].size < U64
  {
    PathsStep(artifacts, i);
    TotalStep(artifacts, i);
    TotalFits(i, total, artifacts[i].size);
  }

  lemma TotalFits(i: nat, total: nat, size: nat)
    requires i < MAX_ARTIFACTS && total <= i * FILE_LIMIT && size <= FILE_LIMIT
    ensures total + size <= (i + 1) * FILE_LIMIT && total + size < U64
  {
  }

  method ScanOne(artifacts: seq<Artifact>, i: nat, names: set<bytes>, previous: seq<bytes>, total: nat)
    returns (ok: bool, nextNames: set<bytes>, next: seq<bytes>, nextTotal: nat)
    requires i < |artifacts| <= MAX_ARTIFACTS && ScanState(artifacts, i, names, previous, total)
    ensures ok ==> ScanState(artifacts, i + 1, nextNames, next, nextTotal)
    ensures !ok ==> !Scanned(artifacts, |artifacts|)
  {
    nextNames, next, nextTotal := names, previous, total;
    ok := CheckEntry(artifacts, i, names, previous);
    if !ok {
      NotScanned(artifacts, i + 1);
      return;
    }
    ScanStep(artifacts, i, names, previous, total);
    assert total + artifacts[i].size < U64;
    nextNames, next, nextTotal := names + {artifacts[i].path}, [artifacts[i].path], total + artifacts[i].size;
  }

  lemma ScanEnds(artifacts: seq<Artifact>, names: set<bytes>, previous: seq<bytes>, total: nat)
    requires ScanState(artifacts, |artifacts|, names, previous, total)
    ensures Scanned(artifacts, |artifacts|) && names == Paths(artifacts) && total == TotalSize(artifacts)
  {
    assert artifacts[..|artifacts|] == artifacts;
  }

  /** One pass over the inventory; the 64-bit running total never overflows. */
  method Scan(artifacts: seq<Artifact>) returns (ok: bool, names: set<bytes>, total: nat)
    requires |artifacts| <= MAX_ARTIFACTS
    ensures ok <==> Scanned(artifacts, |artifacts|)
    ensures ok ==> names == Paths(artifacts) && total == TotalSize(artifacts)
  {
    names, total, ok := {}, 0, true;
    var previous: seq<bytes> := [];
    for i := 0 to |artifacts|
      invariant ok && ScanState(artifacts, i, names, previous, total)
    {
      ok, names, previous, total := ScanOne(artifacts, i, names, previous, total);
      if !ok {
        return;
      }
    }
    ScanEnds(artifacts, names, previous, total);
  }

  /** The parser accepts exactly the good manifests. */
  method ParseInventory(artifacts: seq<Artifact>, entrypoints: seq<bytes>) returns (accepted: bool)
    ensures accepted <==> GoodManifest(artifacts, entrypoints)
  {
    if artifacts == [] || |artifacts| > MAX_ARTIFACTS {
      return false;
    }
    var ok, names, total := Scan(artifacts);
    ScannedIsGood(artifacts);
    if !ok || total > TOTAL_LIMIT {
      return false;
    }
    accepted := true;
    for e := 0 to |entrypoints|
      invariant accepted && forall k :: 0 <= k < e ==> entrypoints[k] in names
    {
      if entrypoints[e] !in names {
        return false;
      }
    }
  }

  lemma PathsStep(artifacts: seq<Artifact>, i: nat)
    requires i < |artifacts|
    ensures Paths(artifacts[..i + 1]) == Paths(artifacts[..i]) + {artifacts[i].path}
  {
    forall p | p in Paths(artifacts[..i]) + {artifacts[i].path} ensures p in Paths(artifacts[..i + 1]) {
      if p == artifacts[i].path {
        assert artifacts[..i + 1][i].path == p;
      } else {
        var k :| 0 <= k < i && artifacts[..i][k].path == p;
        assert artifacts[..i + 1][k].path == p;
      }
    }
  }

  lemma NotScanned(artifacts: seq<Artifact>, i: nat)
    requires i <= |artifacts| && !Scanned(artifacts, i)
    ensures !Scanned(artifacts, |artifacts|)
  {
  }

  /**
   The scan compares neighbours and looks for earlier ancestors only; still no two paths it lets
   through are equal, and none lies inside another, whatever names stand between them.
   */
  lemma ScannedPathsNeverConflict(artifacts: seq<Artifact>, i: nat, j: nat)
    requires Scanned(artifacts, |artifacts|) && i < |artifacts| && j < |artifacts| && i != j
    ensures artifacts[i].path != artifacts[j].path
    ensures !IsAncestor(artifacts[i].path, artifacts[j].path)
  {
    ScannedIsGood(artifacts);
    PrecedesIrreflexive(artifacts[i].path);
  }
}
