/**
 Attention of a whole batch over the paged cache, in the rectangular layout or member by member.
 Keys and values come from pages, queries are padded to a common length, and the padding is
 removed again; the layout does not show in the result.
 */
module AttentionPaged {
  import opened Options
  import opened Tensors
  import opened AttentionOps
  import opened AttentionMask
  import opened Attention
  import opened AttentionSplit
  import opened AttentionLayout

  // ------------------------------------------------------------------ gather

  /** Blocks hold the positions of a member from its first key on. */
  predicate Paged(len: Lengths, cache: Tensor4, tables: seq<seq<nat>>) {
    && cache.b > 0 && cache.c > 0 && cache.d > 0 && |tables| == |len.keys|
    && forall m :: 0 <= m < |tables| ==> CoversKeys(len.keys[m], cache.b, tables[m])
  }

  predicate CoversKeys(keys: nat, blockSize: nat, table: seq<nat>) {
    forall t :: 0 <= t < keys ==> Row(t, blockSize) < |table|
  }

  /** Key or value `t` of a member, in its page. */
  function PageAt(cache: Tensor4, table: seq<nat>, t: nat, h: nat, d: nat): real
    requires Row(t, cache.b) < |table|
  {
    At4(cache, table[Row(t, cache.b)], Column(t, cache.b), h, d)
  }

  /** What the gather kernel writes at a flat position. */
  function GatherCell(len: Lengths, cache: Tensor4, tables: seq<seq<nat>>, offset: nat, keys: nat, index: nat): real
    requires Paged(len, cache, tables)
  {
    var width := cache.c * cache.d;
    var token := Row(index, width);
    var member, column := offset + Row(token, keys), Column(token, keys);
    if member >= |len.keys| || len.keys[member] > keys || column >= keys then 0.0
    else if column < keys - len.keys[member] then 0.0
    else
      var logical := column - (keys - len.keys[member]);
      assert CoversKeys(len.keys[member], cache.b, tables[member]);
      var slot := Flat(tables[member][Row(logical, cache.b)], Column(logical, cache.b), cache.b);
      Get(cache.data, Flat(slot, Column(index, width), width))
  }

  function Gather(len: Lengths, cache: Tensor4, tables: seq<seq<nat>>, offset: nat, batch: nat, keys: nat): Tensor4
    requires Paged(len, cache, tables)
  {
    Tensor4(batch, keys, cache.c, cache.d, seq(batch * keys * (cache.c * cache.d),
      (index: nat) => GatherCell(len, cache, tables, offset, keys, index)))
  }

  lemma FlatPair(n: nat, h: nat, d: nat, heads: nat, dim: nat)
    ensures Flat(Flat(n, h, heads), d, dim) == Flat(n, Flat(h, d, dim), heads * dim)
  {
    assert (n * heads + h) * dim == n * (heads * dim) + h * dim;
  }

  /** Columns in front of the member's keys are zero; the others come from its pages. */
  lemma GatherAt(len: Lengths, cache: Tensor4, tables: seq<seq<nat>>, offset: nat, batch: nat, keys: nat,
                 b: nat, column: nat, h: nat, d: nat)
    requires Paged(len, cache, tables) && b < batch && column < keys && h < cache.c && d < cache.d
    requires offset + b < |len.keys| && len.keys[offset + b] <= keys && keys - len.keys[offset + b] <= column
    ensures var t := column - (keys - len.keys[offset + b]);
      && Row(t, cache.b) < |tables[offset + b]|
      && At4(Gather(len, cache, tables, offset, batch, keys), b, column, h, d) == PageAt(cache, tables[offset + b], t, h, d)
  {
    var m, t, width := offset + b, column - (keys - len.keys[offset + b]), cache.c * cache.d;
    assert CoversKeys(len.keys[m], cache.b, tables[m]);
    var token, rest := Flat(b, column, keys), Flat(h, d, cache.d);
    FlatPair(token, h, d, cache.c, cache.d);
    FlatBound(h, d, cache.c, cache.d);
    FlatBound(b, column, batch, keys);
    FlatBound(token, rest, batch * keys, width);
    FlatDecode(token, rest, width);
    FlatDecode(b, column, keys);
    FlatPair(Flat(tables[m][Row(t, cache.b)], Column(t, cache.b), cache.b), h, d, cache.c, cache.d);
  }

  /** One member without padding. */
  function GatherMember(len: Lengths, cache: Tensor4, tables: seq<seq<nat>>, member: nat): Tensor3
    requires Paged(len, cache, tables) && member < |len.keys|
  {
    Tensor3(len.keys[member], cache.c, cache.d, Gather(len, cache, tables, member, 1, len.keys[member]).data)
  }

  /** The gathered rectangle holds every member behind its padding. */
  lemma GatherPads(len: Lengths, cache: Tensor4, tables: seq<seq<nat>>, batch: nat, keys: nat, m: nat)
    requires Paged(len, cache, tables) && m < batch <= |len.keys| && len.keys[m] <= keys
    ensures Padded(Gather(len, cache, tables, 0, batch, keys), m, keys - len.keys[m], GatherMember(len, cache, tables, m))
  {
    var whole, part, pad := Gather(len, cache, tables, 0, batch, keys), GatherMember(len, cache, tables, m), keys - len.keys[m];
    assert Unsqueeze(part) == Gather(len, cache, tables, m, 1, len.keys[m]);
    forall i, h, d | 0 <= i < part.a && 0 <= h < part.b && 0 <= d < part.c ensures SameElement(whole, m, pad, part, i, h, d) {
      GatherAt(len, cache, tables, 0, batch, keys, m, pad + i, h, d);
      GatherAt(len, cache, tables, m, 1, len.keys[m], 0, i, h, d);
    }
  }

  // ----------------------------------------------------------------- queries

  /** Rows of the first dimension. */
  function Rows(t: Tensor3, start: nat, count: nat): (r: Tensor3)
    ensures Full3(r) && r.a == count && r.b == t.b && r.c == t.c
  {
    Build3(count, t.b, t.c, (i: nat, j: nat, k: nat) => At3(t, start + i, j, k))
  }

  /** First query row of a member in the packed tensor. */
  function Start(lengths: seq<nat>, m: nat): nat
    requires m <= |lengths|
  {
    if m == 0 then 0 else Start(lengths, m - 1) + lengths[m - 1]
  }

  function PaddedQueries(lengths: seq<nat>, q: Tensor3, rows: nat): (p: Tensor4)
    ensures p.a == |lengths| && p.b == rows && p.c == q.b && p.d == q.c
  {
    Build4(|lengths|, rows, q.b, q.c, (m: nat, i: nat, h: nat, d: nat) =>
      if m < |lengths| && lengths[m] <= rows && rows - lengths[m] <= i then At3(q, Start(lengths, m) + (i - (rows - lengths[m])), h, d)
      else 0.0)
  }

  lemma QueriesPad(lengths: seq<nat>, q: Tensor3, rows: nat, m: nat)
    requires m < |lengths| && lengths[m] <= rows
    ensures Padded(PaddedQueries(lengths, q, rows), m, rows - lengths[m], Rows(q, Start(lengths, m), lengths[m]))
  {
    var p, part, pad := PaddedQueries(lengths, q, rows), Rows(q, Start(lengths, m), lengths[m]), rows - lengths[m];
    forall i, h, d | 0 <= i < part.a && 0 <= h < part.b && 0 <= d < part.c ensures SameElement(p, m, pad, part, i, h, d) {
      AtBuild4(|lengths|, rows, q.b, q.c, (m: nat, i: nat, h: nat, d: nat) =>
        if m < |lengths| && lengths[m] <= rows && rows - lengths[m] <= i then At3(q, Start(lengths, m) + (i - (rows - lengths[m])), h, d)
        else 0.0, m, pad + i, h, d);
      AtBuild3(lengths[m], q.b, q.c, (i: nat, j: nat, k: nat) => At3(q, Start(lengths, m) + i, j, k), i, h, d);
      UnsqueezeAt(part, i, h, d);
    }
  }

  /** Concatenation along the first dimension. */
  function CatRows(x: Tensor3, y: Tensor3): Tensor3 {
    Tensor3(x.a + y.a, x.b, x.c, x.data + y.data)
  }

  predicate Joinable(x: Tensor3, y: Tensor3) { Full3(x) && Full3(y) && x.b == y.b && x.c == y.c }

  lemma CatRowsFull(x: Tensor3, y: Tensor3)
    requires Joinable(x, y)
    ensures Full3(CatRows(x, y))
  {
    assert (x.a + y.a) * x.b * x.c == x.a * x.b * x.c + y.a * x.b * x.c;
  }

  lemma RowOffset(a: nat, i: nat, j: nat, k: nat, b: nat, c: nat)
    ensures Flat(Flat(a + i, j, b), k, c) == a * b * c + Flat(Flat(i, j, b), k, c)
  {
    assert ((a + i) * b + j) * c == a * b * c + (i * b + j) * c;
  }

  lemma CatRowsAt(x: Tensor3, y: Tensor3, i: nat, j: nat, k: nat)
    requires Joinable(x, y) && i < x.a + y.a && j < x.b && k < x.c
    ensures At3(CatRows(x, y), i, j, k) == if i < x.a then At3(x, i, j, k) else At3(y, i - x.a, j, k)
  {
    if i < x.a {
      FlatBound(i, j, x.a, x.b);
      FlatBound(Flat(i, j, x.b), k, x.a * x.b, x.c);
    } else {
      RowOffset(x.a, i - x.a, j, k, x.b, x.c);
    }
  }

  /** Zero rows in front. */
  function PadRows(t: Tensor3, front: nat): (r: Tensor3)
    ensures Full3(r) && r.a == front + t.a && r.b == t.b && r.c == t.c
  {
    Build3(front + t.a, t.b, t.c, (i: nat, j: nat, k: nat) => if i < front then 0.0 else At3(t, i - front, j, k))
  }

  /** Row `i` of the first `n` members, padded to `rows` rows each. */
  ghost predicate PaddedSoFar(lengths: seq<nat>, q: Tensor3, rows: nat, n: nat, p: Tensor3) {
    && n <= |lengths| && Full3(p) && p.a == n * rows && p.b == q.b && p.c == q.c
    && forall m, i, h, d {:trigger PaddedCell(lengths, q, rows, m, i, h, d, p)} ::
         0 <= m < n && 0 <= i < rows && 0 <= h < q.b && 0 <= d < q.c ==> PaddedCell(lengths, q, rows, m, i, h, d, p)
  }

  ghost predicate PaddedCell(lengths: seq<nat>, q: Tensor3, rows: nat, m: nat, i: nat, h: nat, d: nat, p: Tensor3) {
    At3(p, Flat(m, i, rows), h, d) == At4(PaddedQueries(lengths, q, rows), m, i, h, d)
  }

  lemma PaddedMember(lengths: seq<nat>, q: Tensor3, rows: nat, m: nat, i: nat, h: nat, d: nat)
    requires m < |lengths| && lengths[m] <= rows && i < rows && h < q.b && d < q.c
    ensures At3(PadRows(Rows(q, Start(lengths, m), lengths[m]), rows - lengths[m]), i, h, d)
         == At4(PaddedQueries(lengths, q, rows), m, i, h, d)
  {
    var part, pad := Rows(q, Start(lengths, m), lengths[m]), rows - lengths[m];
    AtBuild3(pad + part.a, part.b, part.c, (i: nat, j: nat, k: nat) => if i < pad then 0.0 else At3(part, i - pad, j, k), i, h, d);
    AtBuild4(|lengths|, rows, q.b, q.c, (m: nat, i: nat, h: nat, d: nat) =>
      if m < |lengths| && lengths[m] <= rows && rows - lengths[m] <= i then At3(q, Start(lengths, m) + (i - (rows - lengths[m])), h, d)
      else 0.0, m, i, h, d);
    if pad <= i {
      AtBuild3(lengths[m], q.b, q.c, (i: nat, j: nat, k: nat) => At3(q, Start(lengths, m) + i, j, k), i - pad, h, d);
    }
  }

  lemma PadNext(lengths: seq<nat>, q: Tensor3, rows: nat, n: nat, p: Tensor3)
    requires n < |lengths| && lengths[n] <= rows && PaddedSoFar(lengths, q, rows, n, p)
    ensures PaddedSoFar(lengths, q, rows, n + 1, CatRows(p, PadRows(Rows(q, Start(lengths, n), lengths[n]), rows - lengths[n])))
  {
    var part := PadRows(Rows(q, Start(lengths, n), lengths[n]), rows - lengths[n]);
    var r := CatRows(p, part);
    CatRowsFull(p, part);
    assert (n + 1) * rows == n * rows + rows;
    forall m, i, h, d | 0 <= m < n + 1 && 0 <= i < rows && 0 <= h < q.b && 0 <= d < q.c
      ensures PaddedCell(lengths, q, rows, m, i, h, d, r)
    {
      FlatBound(m, i, n + 1, rows);
      CatRowsAt(p, part, Flat(m, i, rows), h, d);
      if m < n {
        FlatBound(m, i, n, rows);
        assert PaddedCell(lengths, q, rows, m, i, h, d, p);
      } else {
        PaddedMember(lengths, q, rows, n, i, h, d);
      }
    }
  }

  /** Pads the queries of every member to a common length, member after member. */
  method PadQueries(lengths: seq<nat>, q: Tensor3, rows: nat) returns (p: Tensor3)
    requires forall m :: 0 <= m < |lengths| ==> lengths[m] <= rows
    ensures PaddedSoFar(lengths, q, rows, |lengths|, p)
  {
    p := Tensor3(0, q.b, q.c, []);
    var start := 0;
    for m := 0 to |lengths|
      invariant start == Start(lengths, m) && PaddedSoFar(lengths, q, rows, m, p)
    {
      PadNext(lengths, q, rows, m, p);
      p := CatRows(p, PadRows(Rows(q, start, lengths[m]), rows - lengths[m]));
      start := start + lengths[m];
    }
  }

  /** Reshaped to a rectangle, the padded rows hold each member behind its padding. */
  lemma RectanglePads(lengths: seq<nat>, q: Tensor3, rows: nat, p: Tensor3, m: nat)
    requires PaddedSoFar(lengths, q, rows, |lengths|, p) && m < |lengths| && lengths[m] <= rows
    ensures Padded(Tensor4(|lengths|, rows, q.b, q.c, p.data), m, rows - lengths[m], Rows(q, Start(lengths, m), lengths[m]))
  {
    var whole, part, pad := Tensor4(|lengths|, rows, q.b, q.c, p.data), Rows(q, Start(lengths, m), lengths[m]), rows - lengths[m];
    QueriesPad(lengths, q, rows, m);
    forall i, h, d | 0 <= i < part.a && 0 <= h < part.b && 0 <= d < part.c ensures SameElement(whole, m, pad, part, i, h, d) {
      assert SameElement(PaddedQueries(lengths, q, rows), m, pad, part, i, h, d);
      assert PaddedCell(lengths, q, rows, m, pad + i, h, d, p);
    }
  }

  // ------------------------------------------------------------- real rows

  function MemberRows(m: nat, count: nat, rows: nat): (r: seq<nat>)
    requires count <= rows
    ensures |r| == count
  {
    var pad: nat := rows - count;
    seq<nat>(count, (i: nat) => Flat(m, pad + i, rows))
  }

  /** The rows of the rectangle that are real queries, in packed order. */
  function RealRows(lengths: seq<nat>, rows: nat, n: nat): (r: seq<nat>)
    requires n <= |lengths| && forall m :: 0 <= m < |lengths| ==> lengths[m] <= rows
    ensures |r| == Start(lengths, n)
  {
    if n == 0 then []
    else RealRows(lengths, rows, n - 1) + MemberRows(n - 1, lengths[n - 1], rows)
  }

  lemma {:induction false} StartGrows(lengths: seq<nat>, m: nat, n: nat)
    requires m <= n <= |lengths|
    ensures Start(lengths, m) <= Start(lengths, n)
  {
    if m < n {
      StartGrows(lengths, m, n - 1);
    }
  }

  lemma {:induction false} RealRowAt(lengths: seq<nat>, rows: nat, n: nat, m: nat, i: nat)
    requires n <= |lengths| && (forall m :: 0 <= m < |lengths| ==> lengths[m] <= rows) && m < n && i < lengths[m]
    ensures Start(lengths, m) + i < Start(lengths, n)
    ensures RealRows(lengths, rows, n)[Start(lengths, m) + i] == Flat(m, rows - lengths[m] + i, rows)
  {
    if m < n - 1 {
      RealRowAt(lengths, rows, n - 1, m, i);
    }
  }

  /** Row selection along the first dimension. */
  function Select(t: Tensor3, indices: seq<nat>): (r: Tensor3)
    ensures Full3(r) && r.a == |indices| && r.b == t.b && r.c == t.c
  {
    Build3(|indices|, t.b, t.c, (n: nat, j: nat, k: nat) => if n < |indices| then At3(t, indices[n], j, k) else 0.0)
  }

  lemma SelectAt(t: Tensor3, indices: seq<nat>, n: nat, j: nat, k: nat)
    requires n < |indices| && j < t.b && k < t.c
    ensures At3(Select(t, indices), n, j, k) == At3(t, indices[n], j, k)
  {
    AtBuild3(|indices|, t.b, t.c, (n: nat, j: nat, k: nat) => if n < |indices| then At3(t, indices[n], j, k) else 0.0, n, j, k);
  }

  // ---------------------------------------------------------------- batches

  /** Caches and tables of a batch, and its packed queries. */
  datatype Batch = Batch(q: Tensor3, keys: Tensor4, values: Tensor4, tables: seq<seq<nat>>)

  /** What the geometry and metadata checks guarantee; every member has a query. */
  predicate Prepared(s: Setup, x: Batch) {
    && ValidLengths(s.len) && |s.len.queries| > 0 && (forall m :: 0 <= m < |s.len.queries| ==> s.len.queries[m] > 0)
    && Paged(s.len, x.keys, x.tables) && Paged(s.len, x.values, x.tables)
    && x.q.b > 0 && x.q.b % x.keys.c == 0 && x.q.c == x.keys.d
    && x.values.b == x.keys.b && x.values.c == x.keys.c && x.values.d == x.keys.d
  }

  ghost function MemberQueries(s: Setup, x: Batch, m: nat): Tensor3
    requires m < |s.len.queries|
  {
    Rows(x.q, Start(s.len.queries, m), s.len.queries[m])
  }

  lemma MembersMatch(s: Setup, x: Batch, m: nat)
    requires Prepared(s, x) && m < |s.len.queries|
    ensures var qm, km, vm := MemberQueries(s, x, m), GatherMember(s.len, x.keys, x.tables, m), GatherMember(s.len, x.values, x.tables, m);
      && MemberGeometry(qm, km, vm) && qm.b / km.b > 0 && Fits(s.len, m, qm.a, km.a) && MemberSupported(s, qm, km, m)
  {
    Grouped(x.q.b, x.keys.c);
  }

  /** Attention of one member over its own pages. */
  ghost function MemberAttention(s: Setup, x: Batch, m: nat): (nat, nat, nat, nat) -> real
    requires Prepared(s, x) && m < |s.len.queries|
  {
    MembersMatch(s, x, m);
    MemberReference(s, MemberQueries(s, x, m), GatherMember(s.len, x.keys, x.tables, m), GatherMember(s.len, x.values, x.tables, m), m)
  }

  ghost predicate OutputAt(s: Setup, x: Batch, r: Tensor3, m: nat, i: nat, h: nat, d: nat)
    requires Prepared(s, x) && m < |s.len.queries|
  {
    At3(r, Start(s.len.queries, m) + i, h, d) == MemberAttention(s, x, m)(0, i, h, d)
  }

  /** The rows of the first `n` members, in packed order. */
  ghost predicate HoldsMembers(s: Setup, x: Batch, n: nat, r: Tensor3)
    requires Prepared(s, x)
  {
    && n <= |s.len.queries| && Full3(r) && r.a == Start(s.len.queries, n) && r.b == x.q.b && r.c == x.q.c
    && forall m, i, h, d {:trigger OutputAt(s, x, r, m, i, h, d)} ::
         0 <= m < n && 0 <= i < s.len.queries[m] && 0 <= h < x.q.b && 0 <= d < x.q.c ==> OutputAt(s, x, r, m, i, h, d)
  }

  /** The output of the whole batch. */
  ghost predicate IsBatchOutput(s: Setup, x: Batch, r: Tensor3)
    requires Prepared(s, x)
  {
    HoldsMembers(s, x, |s.len.queries|, r)
  }

  lemma {:induction false} FindMember(lengths: seq<nat>, n: nat, row: nat) returns (m: nat, i: nat)
    requires n <= |lengths| && row < Start(lengths, n)
    ensures m < n && i < lengths[m] && row == Start(lengths, m) + i
  {
    if row < Start(lengths, n - 1) {
      m, i := FindMember(lengths, n - 1, row);
    } else {
      m, i := n - 1, row - Start(lengths, n - 1);
    }
  }

  /** The output of a batch is one tensor. */
  lemma BatchOutputUnique(s: Setup, x: Batch, r: Tensor3, t: Tensor3)
    requires Prepared(s, x) && IsBatchOutput(s, x, r) && IsBatchOutput(s, x, t)
    ensures r == t
  {
    forall n, h, d | 0 <= n < r.a && 0 <= h < r.b && 0 <= d < r.c ensures At3(r, n, h, d) == At3(t, n, h, d) {
      var m, i := FindMember(s.len.queries, |s.len.queries|, n);
      assert OutputAt(s, x, r, m, i, h, d) && OutputAt(s, x, t, m, i, h, d);
    }
    SameElements3(r, t);
  }

  lemma AppendMember(s: Setup, x: Batch, n: nat, r: Tensor3, out: Tensor3)
    requires Prepared(s, x) && n < |s.len.queries| && HoldsMembers(s, x, n, r)
    requires IsOutput(1, s.len.queries[n], x.q.b, x.q.c, MemberAttention(s, x, n), out)
    ensures HoldsMembers(s, x, n + 1, CatRows(r, out))
  {
    var lengths := s.len.queries;
    var next := CatRows(r, out);
    CatRowsFull(r, out);
    forall m, i, h, d | 0 <= m < n + 1 && 0 <= i < lengths[m] && 0 <= h < x.q.b && 0 <= d < x.q.c
      ensures OutputAt(s, x, next, m, i, h, d)
    {
      var row := Start(lengths, m) + i;
      if m < n {
        StartGrows(lengths, m + 1, n);
        CatRowsAt(r, out, row, h, d);
        assert OutputAt(s, x, r, m, i, h, d);
      } else {
        CatRowsAt(r, out, row, h, d);
        assert Flat(0, i, lengths[n]) == i;
        assert At3(out, Flat(0, i, lengths[n]), h, d) == MemberAttention(s, x, n)(0, i, h, d);
      }
    }
  }

  /** Member by member, each with its own tile size and head splitting. */
  method PackedAttention(s: Setup, x: Batch, chunks: seq<nat>, splits: seq<bool>) returns (r: Option<Tensor3>)
    requires Prepared(s, x) && |chunks| == |splits| == |s.len.queries| && forall m :: 0 <= m < |chunks| ==> chunks[m] > 0
    ensures r.Some? && IsBatchOutput(s, x, r.value)
  {
    var out := Tensor3(0, x.q.b, x.q.c, []);
    var start := 0;
    for m := 0 to |s.len.queries|
      invariant start == Start(s.len.queries, m) && HoldsMembers(s, x, m, out)
    {
      var count := s.len.queries[m];
      MembersMatch(s, x, m);
      var part := PackedMember(s, Rows(x.q, start, count), GatherMember(s.len, x.keys, x.tables, m),
                               GatherMember(s.len, x.values, x.tables, m), m, chunks[m], splits[m]);
      AppendMember(s, x, m, out, part.value);
      out := CatRows(out, part.value);
      start := start + count;
    }
    return Some(out);
  }

  /** The common lengths of the rectangle cover every member. */
  predicate CommonLengths(len: Lengths, rows: nat, keys: nat) {
    0 < rows <= keys && forall m :: 0 <= m < |len.queries| ==> Fits(len, m, rows, keys)
  }

  /** Queries, keys and values of the rectangle. */
  ghost predicate IsRectangle(s: Setup, x: Batch, rows: nat, keys: nat, p: Tensor3, q: Tensor4, k: Tensor4, v: Tensor4)
    requires Prepared(s, x)
  {
    var batch := |s.len.queries|;
    && PaddedSoFar(s.len.queries, x.q, rows, batch, p) && q == Tensor4(batch, rows, x.q.b, x.q.c, p.data)
    && k == Gather(s.len, x.keys, x.tables, 0, batch, keys) && v == Gather(s.len, x.values, x.tables, 0, batch, keys)
  }

  lemma RectangleGeometry(s: Setup, x: Batch, rows: nat, keys: nat, p: Tensor3, q: Tensor4, k: Tensor4, v: Tensor4)
    requires Prepared(s, x) && IsRectangle(s, x, rows, keys, p, q, k, v)
    ensures Geometry(q, k, v) && q.c / k.c > 0
  {
    Grouped(x.q.b, x.keys.c);
  }

  lemma RectangleAt(s: Setup, x: Batch, rows: nat, keys: nat, p: Tensor3, q: Tensor4, k: Tensor4, v: Tensor4,
                    m: nat, i: nat, h: nat, d: nat)
    requires Prepared(s, x) && IsRectangle(s, x, rows, keys, p, q, k, v) && Geometry(q, k, v) && q.c / k.c > 0 && rows <= keys
    requires m < |s.len.queries| && Fits(s.len, m, rows, keys) && i < s.len.queries[m] && h < x.q.b && d < x.q.c
    ensures Reference(s, q, k, v, 0)(m, rows - s.len.queries[m] + i, h, d) == MemberAttention(s, x, m)(0, i, h, d)
  {
    var qm, km, vm := RectangleParts(s, x, rows, keys, p, q, k, v, m);
    MemberInRectangle(s, q, k, v, m, rows - s.len.queries[m], keys - s.len.keys[m], qm, km, vm, i, h, d);
  }

  /** Each part of the rectangle holds the member's own rows behind padding. */
  lemma RectangleParts(s: Setup, x: Batch, rows: nat, keys: nat, p: Tensor3, q: Tensor4, k: Tensor4, v: Tensor4, m: nat)
    returns (qm: Tensor3, km: Tensor3, vm: Tensor3)
    requires Prepared(s, x) && IsRectangle(s, x, rows, keys, p, q, k, v) && m < |s.len.queries| && Fits(s.len, m, rows, keys)
    ensures Padded(q, m, rows - s.len.queries[m], qm) && Padded(k, m, keys - s.len.keys[m], km)
    ensures Padded(v, m, keys - s.len.keys[m], vm) && Packed(s.len, m, qm, km) && Fits(s.len, m, qm.a, km.a)
    ensures MemberGeometry(qm, km, vm) && qm.b / km.b > 0 && qm.a <= km.a && qm.b == x.q.b && qm.c == x.q.c
    ensures MemberAttention(s, x, m) == MemberReference(s, qm, km, vm, m)
    ensures qm.a == s.len.queries[m]
  {
    qm, km, vm := MemberQueries(s, x, m), GatherMember(s.len, x.keys, x.tables, m), GatherMember(s.len, x.values, x.tables, m);
    MembersMatch(s, x, m);
    RectanglePads(s.len.queries, x.q, rows, p, m);
    GatherPads(s.len, x.keys, x.tables, q.a, keys, m);
    GatherPads(s.len, x.values, x.tables, q.a, keys, m);
  }

  /** A name for the equation, so that it can be passed on without unfolding either side. */
  ghost predicate SameAttention(s: Setup, q: Tensor4, k: Tensor4, v: Tensor4, offset: nat, b: nat, i: nat,
                                x: Tensor4, y: Tensor4, z: Tensor4, other: nat, c: nat, j: nat, h: nat, d: nat) {
    && Geometry(q, k, v) && q.c / k.c > 0 && Fits(s.len, offset + b, q.b, k.b)
    && Geometry(x, y, z) && x.c / y.c > 0 && Fits(s.len, other + c, x.b, y.b)
    && Attended(s, q, k, v, offset, b, i, h, d) == Attended(s, x, y, z, other, c, j, h, d)
  }

  lemma ReferencesAgree(s: Setup, q: Tensor4, k: Tensor4, v: Tensor4, offset: nat, b: nat, i: nat,
                        x: Tensor4, y: Tensor4, z: Tensor4, other: nat, c: nat, j: nat, h: nat, d: nat)
    requires SameAttention(s, q, k, v, offset, b, i, x, y, z, other, c, j, h, d)
    ensures Reference(s, q, k, v, offset)(b, i, h, d) == Reference(s, x, y, z, other)(c, j, h, d)
  {
  }

  lemma MemberSame(s: Setup, q: Tensor4, k: Tensor4, v: Tensor4, m: nat, qPad: nat, kPad: nat,
                   qm: Tensor3, km: Tensor3, vm: Tensor3, i: nat, h: nat, d: nat)
    requires Geometry(q, k, v) && q.c / k.c > 0 && q.b <= k.b && MemberGeometry(qm, km, vm) && qm.b / km.b > 0
    requires Padded(q, m, qPad, qm) && Padded(k, m, kPad, km) && Padded(v, m, kPad, vm)
    requires Packed(s.len, m, qm, km) && qm.a <= km.a && i < qm.a && h < qm.b && d < qm.c
    requires Fits(s.len, m, q.b, k.b) && Fits(s.len, m, qm.a, km.a)
    ensures SameAttention(s, q, k, v, 0, m, qPad + i, Unsqueeze(qm), Unsqueeze(km), Unsqueeze(vm), m, 0, i, h, d)
  {
    LayoutsAgree(s, q, k, v, 0, m, qPad, kPad, qm, km, vm, i, h, d);
  }

  lemma MemberInRectangle(s: Setup, q: Tensor4, k: Tensor4, v: Tensor4, m: nat, qPad: nat, kPad: nat,
                          qm: Tensor3, km: Tensor3, vm: Tensor3, i: nat, h: nat, d: nat)
    requires Geometry(q, k, v) && q.c / k.c > 0 && q.b <= k.b && MemberGeometry(qm, km, vm) && qm.b / km.b > 0
    requires Padded(q, m, qPad, qm) && Padded(k, m, kPad, km) && Padded(v, m, kPad, vm)
    requires Packed(s.len, m, qm, km) && qm.a <= km.a && i < qm.a && h < qm.b && d < qm.c
    requires Fits(s.len, m, q.b, k.b) && Fits(s.len, m, qm.a, km.a)
    ensures Reference(s, q, k, v, 0)(m, qPad + i, h, d) == MemberReference(s, qm, km, vm, m)(0, i, h, d)
  {
    MemberSame(s, q, k, v, m, qPad, kPad, qm, km, vm, i, h, d);
    ReferencesAgree(s, q, k, v, 0, m, qPad + i, Unsqueeze(qm), Unsqueeze(km), Unsqueeze(vm), m, 0, i, h, d);
  }

  /** All members at once: queries padded, caches gathered into a rectangle, real rows picked out. */
  method RectangularAttention(s: Setup, x: Batch, rows: nat, keys: nat) returns (r: Option<Tensor3>)
    requires Prepared(s, x) && CommonLengths(s.len, rows, keys)
    ensures r.Some? && IsBatchOutput(s, x, r.value)
  {
    var lengths := s.len.queries;
    forall m | 0 <= m < |lengths| ensures lengths[m] <= rows {
      assert Fits(s.len, m, rows, keys);
    }
    var p := PadQueries(lengths, x.q, rows);
    var q := Tensor4(|lengths|, rows, x.q.b, x.q.c, p.data);
    var k, v := Gather(s.len, x.keys, x.tables, 0, q.a, keys), Gather(s.len, x.values, x.tables, 0, q.a, keys);
    RectangleGeometry(s, x, rows, keys, p, q, k, v);
    var out := Dense(s, q, k, v, 0, rows);
    SelectedRows(s, x, rows, keys, p, q, k, v, out.value);
    return Some(Select(out.value, RealRows(lengths, rows, |lengths|)));
  }

  lemma SelectedRows(s: Setup, x: Batch, rows: nat, keys: nat, p: Tensor3, q: Tensor4, k: Tensor4, v: Tensor4, out: Tensor3)
    requires Prepared(s, x) && IsRectangle(s, x, rows, keys, p, q, k, v) && Geometry(q, k, v) && q.c / k.c > 0
    requires CommonLengths(s.len, rows, keys) && forall m :: 0 <= m < |s.len.queries| ==> s.len.queries[m] <= rows
    requires IsOutput(q.a, q.b, q.c, q.d, Reference(s, q, k, v, 0), out)
    ensures IsBatchOutput(s, x, Select(out, RealRows(s.len.queries, rows, |s.len.queries|)))
  {
    var lengths := s.len.queries;
    var r := Select(out, RealRows(lengths, rows, |lengths|));
    forall m, i, h, d | 0 <= m < |lengths| && 0 <= i < lengths[m] && 0 <= h < x.q.b && 0 <= d < x.q.c
      ensures OutputAt(s, x, r, m, i, h, d)
    {
      assert Fits(s.len, m, rows, keys);
      SelectedOutput(s, x, rows, keys, p, q, k, v, out, m, i, h, d);
    }
  }

  lemma SelectedOutput(s: Setup, x: Batch, rows: nat, keys: nat, p: Tensor3, q: Tensor4, k: Tensor4, v: Tensor4, out: Tensor3,
                       m: nat, i: nat, h: nat, d: nat)
    requires Prepared(s, x) && IsRectangle(s, x, rows, keys, p, q, k, v) && Geometry(q, k, v) && q.c / k.c > 0 && rows <= keys
    requires forall m :: 0 <= m < |s.len.queries| ==> s.len.queries[m] <= rows
    requires IsOutput(q.a, q.b, q.c, q.d, Reference(s, q, k, v, 0), out)
    requires m < |s.len.queries| && Fits(s.len, m, rows, keys) && i < s.len.queries[m] && h < x.q.b && d < x.q.c
    ensures OutputAt(s, x, Select(out, RealRows(s.len.queries, rows, |s.len.queries|)), m, i, h, d)
  {
    RectangleAt(s, x, rows, keys, p, q, k, v, m, i, h, d);
    SelectedRowAt(s.len.queries, rows, q.a, q.c, q.d, Reference(s, q, k, v, 0), out, m, i, h, d);
  }

  lemma SelectedRowAt(lengths: seq<nat>, rows: nat, batch: nat, heads: nat, dim: nat, target: (nat, nat, nat, nat) -> real,
                      out: Tensor3, m: nat, i: nat, h: nat, d: nat)
    requires batch == |lengths| && (forall m :: 0 <= m < |lengths| ==> lengths[m] <= rows)
    requires IsOutput(batch, rows, heads, dim, target, out)
    requires m < |lengths| && i < lengths[m] && h < heads && d < dim
    ensures At3(Select(out, RealRows(lengths, rows, |lengths|)), Start(lengths, m) + i, h, d)
         == target(m, rows - lengths[m] + i, h, d)
  {
    RealRowAt(lengths, rows, |lengths|, m, i);
    SelectAt(out, RealRows(lengths, rows, |lengths|), Start(lengths, m) + i, h, d);
    assert At3(out, Flat(m, rows - lengths[m] + i, rows), h, d) == target(m, rows - lengths[m] + i, h, d);
  }

  /** The layout, the tile sizes and head splitting never show: the output is the same tensor. */
  method PagedAttention(s: Setup, x: Batch, rectangular: bool, rows: nat, keys: nat, chunks: seq<nat>, splits: seq<bool>)
    returns (r: Option<Tensor3>)
    requires Prepared(s, x) && CommonLengths(s.len, rows, keys)
    requires |chunks| == |splits| == |s.len.queries| && forall m :: 0 <= m < |chunks| ==> chunks[m] > 0
    ensures r.Some? && IsBatchOutput(s, x, r.value)
  {
    if rectangular {
      r := RectangularAttention(s, x, rows, keys);
    } else {
      r := PackedAttention(s, x, chunks, splits);
    }
  }
}
