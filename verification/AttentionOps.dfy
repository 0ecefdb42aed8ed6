/**
 The tensor expressions of math attention: head expansion, tiling, zero-row padding
 and assembly, each with the elements of its result.
 */
module AttentionOps {
  import opened RealOrder
  import opened Tensors

  // ------------------------------------------------------------ operations

  function Transpose3(t: Tensor3): Tensor3 {
    Build3(t.a, t.c, t.b, (i: nat, j: nat, k: nat) => At3(t, i, k, j))
  }

  function Transpose4(t: Tensor4): Tensor4 {
    Build4(t.a, t.c, t.b, t.d, (i: nat, j: nat, k: nat, l: nat) => At4(t, i, k, j, l))
  }

  function Scale(t: Tensor3, s: real): Tensor3 {
    Build3(t.a, t.b, t.c, (i: nat, j: nat, k: nat) => Product(At3(t, i, j, k), s))
  }

  /** Rows `start .. start + count` of the middle dimension. */
  function Narrow(t: Tensor3, start: nat, count: nat): Tensor3 {
    Build3(t.a, count, t.c, (i: nat, j: nat, k: nat) => At3(t, i, start + j, k))
  }

  /** Concatenation along the middle dimension. */
  function Concat(x: Tensor3, y: Tensor3): Tensor3 {
    Build3(x.a, x.b + y.b, x.c, (i: nat, j: nat, k: nat) => if j < x.b then At3(x, i, j, k) else At3(y, i, j - x.b, k))
  }

  function ConcatAll(parts: seq<Tensor3>): Tensor3
    requires parts != []
  {
    if |parts| == 1 then parts[0]
    else Concat(ConcatAll(parts[..|parts| - 1]), parts[|parts| - 1])
  }

  function Zeros(a: nat, b: nat, c: nat): Tensor3 {
    Build3(a, b, c, (i: nat, j: nat, k: nat) => 0.0)
  }

  function Dot(x: Tensor3, y: Tensor3, i: nat, j: nat, k: nat): real {
    Sum((n: nat) => Product(At3(x, i, j, n), At3(y, i, n, k)), x.c)
  }

  function MatMul(x: Tensor3, y: Tensor3): Tensor3 {
    Build3(x.a, x.b, y.c, (i: nat, j: nat, k: nat) => Dot(x, y, i, j, k))
  }

  /** Every key/value head is repeated for the query heads of its group, then heads move next to the batch. */
  function Expand(t: Tensor4, heads: nat): Tensor3
    requires t.c > 0
  {
    var repeated := Build5(t.a, t.b, t.c, heads / t.c, t.d, (b: nat, n: nat, c: nat, g: nat, d: nat) => At4(t, b, n, c, d));
    var byHead := Transpose4(Tensor4(t.a, t.b, heads, t.d, repeated.data));
    Tensor3(t.a * heads, t.b, t.d, byHead.data)
  }

  function FlattenHeads(t: Tensor4): Tensor3 {
    Tensor3(t.a * t.c, t.b, t.d, Transpose4(t).data)
  }

  /** The inverse arrangement: heads back behind the queries, batch and queries merged. */
  function Assemble(t: Tensor3, batch: nat, heads: nat): Tensor3 {
    var byQuery := Transpose4(Tensor4(batch, heads, t.b, t.c, t.data));
    Tensor3(batch * t.b, heads, t.c, byQuery.data)
  }

  function ScoreRows(queries: nat, keys: nat, count: nat): nat {
    if count < 32 && keys > count && (count > 1 || queries > 1) then 32 else count
  }

  /** Scores of one tile of queries, computed on padded rows that are cropped again. */
  function TileScores(input: Tensor3, key: Tensor3, queries: nat, keys: nat): Tensor3 {
    var rows := ScoreRows(queries, keys, input.b);
    if rows > input.b then
      Narrow(MatMul(Concat(input, Zeros(input.a, rows - input.b, input.c)), key), 0, input.b)
    else MatMul(input, key)
  }

  // -------------------------------------------------------------- elements

  /** The key/value head a query head reads. */
  function KvHead(h: nat, heads: nat, kvHeads: nat): nat
    requires kvHeads > 0 && heads / kvHeads > 0
  {
    h / (heads / kvHeads)
  }

  lemma Grouped(heads: nat, kvHeads: nat)
    requires kvHeads > 0 && heads > 0 && heads % kvHeads == 0
    ensures heads / kvHeads > 0 && heads == kvHeads * (heads / kvHeads)
  {
    assert heads == (heads / kvHeads) * kvHeads;
  }

  lemma KvHeadBound(h: nat, heads: nat, kvHeads: nat)
    requires kvHeads > 0 && heads > 0 && heads % kvHeads == 0 && h < heads
    ensures heads / kvHeads > 0 && KvHead(h, heads, kvHeads) < kvHeads
  {
    Grouped(heads, kvHeads);
    FlatEncode(h, kvHeads, heads / kvHeads);
  }

  /** Splitting the head index regroups the row-major position. */
  lemma Regroup(n: nat, h: nat, kvHeads: nat, group: nat)
    requires group > 0
    ensures Flat(Flat(n, h / group, kvHeads), h % group, group) == Flat(n, h, kvHeads * group)
  {
    assert h == (h / group) * group + h % group;
    assert (n * kvHeads + h / group) * group == n * kvHeads * group + (h / group) * group;
    assert n * kvHeads * group == n * (kvHeads * group);
  }

  /** Query head `h` reads key/value head `h / (heads / kvHeads)`. */
  lemma ExpandAt(t: Tensor4, heads: nat, b: nat, h: nat, n: nat, d: nat)
    requires t.c > 0 && heads % t.c == 0 && b < t.a && h < heads && n < t.b && d < t.d
    ensures heads / t.c > 0
    ensures At3(Expand(t, heads), Flat(b, h, heads), n, d) == At4(t, b, n, KvHead(h, heads, t.c), d)
  {
    Grouped(heads, t.c);
    var group := heads / t.c;
    var f := (b: nat, n: nat, c: nat, g: nat, d: nat) => At4(t, b, n, c, d);
    var repeated := Build5(t.a, t.b, t.c, group, t.d, f);
    var merged := Tensor4(t.a, t.b, heads, t.d, repeated.data);
    KvHeadBound(h, heads, t.c);
    AtBuild5(t.a, t.b, t.c, group, t.d, f, b, n, h / group, h % group, d);
    Regroup(Flat(b, n, t.b), h, t.c, group);
    assert At4(merged, b, n, h, d) == At5(repeated, b, n, h / group, h % group, d);
    AtBuild4(t.a, heads, t.b, t.d, (i: nat, j: nat, k: nat, l: nat) => At4(merged, i, k, j, l), b, h, n, d);
  }

  lemma FlattenHeadsAt(t: Tensor4, b: nat, h: nat, n: nat, d: nat)
    requires b < t.a && h < t.c && n < t.b && d < t.d
    ensures At3(FlattenHeads(t), Flat(b, h, t.c), n, d) == At4(t, b, n, h, d)
  {
    AtBuild4(t.a, t.c, t.b, t.d, (i: nat, j: nat, k: nat, l: nat) => At4(t, i, k, j, l), b, h, n, d);
  }

  lemma AssembleAt(t: Tensor3, batch: nat, heads: nat, b: nat, h: nat, i: nat, d: nat)
    requires b < batch && h < heads && i < t.b && d < t.c
    ensures At3(Assemble(t, batch, heads), Flat(b, i, t.b), h, d) == At3(t, Flat(b, h, heads), i, d)
  {
    var split := Tensor4(batch, heads, t.b, t.c, t.data);
    AtBuild4(batch, t.b, heads, t.c, (i: nat, j: nat, k: nat, l: nat) => At4(split, i, k, j, l), b, i, h, d);
  }

  lemma AssembleFull(t: Tensor3, batch: nat, heads: nat)
    ensures Full3(Assemble(t, batch, heads))
  {
  }

  lemma NarrowAt(t: Tensor3, start: nat, count: nat, i: nat, j: nat, k: nat)
    requires i < t.a && j < count && k < t.c
    ensures At3(Narrow(t, start, count), i, j, k) == At3(t, i, start + j, k)
  {
    AtBuild3(t.a, count, t.c, (i: nat, j: nat, k: nat) => At3(t, i, start + j, k), i, j, k);
  }

  lemma ConcatAt(x: Tensor3, y: Tensor3, i: nat, j: nat, k: nat)
    requires i < x.a && j < x.b + y.b && k < x.c
    ensures At3(Concat(x, y), i, j, k) == if j < x.b then At3(x, i, j, k) else At3(y, i, j - x.b, k)
  {
    AtBuild3(x.a, x.b + y.b, x.c,
             (i: nat, j: nat, k: nat) => if j < x.b then At3(x, i, j, k) else At3(y, i, j - x.b, k), i, j, k);
  }

  lemma MatMulAt(x: Tensor3, y: Tensor3, i: nat, j: nat, k: nat)
    requires i < x.a && j < x.b && k < y.c
    ensures At3(MatMul(x, y), i, j, k) == Dot(x, y, i, j, k)
  {
    AtBuild3(x.a, x.b, y.c, (i: nat, j: nat, k: nat) => Dot(x, y, i, j, k), i, j, k);
  }

  /** The padding rows do not reach the cropped scores. */
  lemma TileScoresAt(input: Tensor3, key: Tensor3, queries: nat, keys: nat, i: nat, j: nat, t: nat)
    requires i < input.a && j < input.b && t < key.c
    ensures var s := TileScores(input, key, queries, keys); s.a == input.a && s.b == input.b && s.c == key.c
    ensures At3(TileScores(input, key, queries, keys), i, j, t) == Dot(input, key, i, j, t)
  {
    var rows := ScoreRows(queries, keys, input.b);
    if rows > input.b {
      var padded := Concat(input, Zeros(input.a, rows - input.b, input.c));
      NarrowAt(MatMul(padded, key), 0, input.b, i, j, t);
      MatMulAt(padded, key, i, j, t);
      forall n | 0 <= n < input.c ensures At3(padded, i, j, n) == At3(input, i, j, n) {
        ConcatAt(input, Zeros(input.a, rows - input.b, input.c), i, j, n);
      }
      SumSame((n: nat) => Product(At3(padded, i, j, n), At3(key, i, n, t)),
              (n: nat) => Product(At3(input, i, j, n), At3(key, i, n, t)), input.c);
    } else {
      MatMulAt(input, key, i, j, t);
    }
  }
}
