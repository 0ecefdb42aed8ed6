/**
 Math attention: tiled over queries or split by heads, it computes one untiled definition.
 */
module Attention {
  import opened RealOrder
  import opened Options
  import opened Tensors
  import opened Logits
  import opened AttentionOps
  import opened AttentionMask

  /** The exponential, the logical lengths, and the square root of the score scale. */
  datatype Setup = Setup(exp: Exponential, len: Lengths, rootScale: real)

  /** The scale of the scores; each operand carries its square root. */
  function ScoreScale(s: Setup): real { Product(s.rootScale, s.rootScale) }

  // ------------------------------------------------------------- reference

  /** What the projection check guarantees. */
  predicate Geometry(q: Tensor4, k: Tensor4, v: Tensor4) {
    && q.c > 0 && k.c > 0 && q.c % k.c == 0 && q.d > 0
    && k.a == v.a == q.a && k.b == v.b && k.c == v.c && k.d == v.d == q.d
  }

  /** The cases in which the mask check accepts every tile. */
  predicate Supported(len: Lengths, q: Tensor4, k: Tensor4, offset: nat) {
    && q.a > 0 && 0 < q.b <= k.b
    && offset + q.a <= |len.queries|
    && forall m :: offset <= m < offset + q.a ==> Fits(len, m, q.b, k.b)
  }

  function Products(q: Tensor4, k: Tensor4, b: nat, i: nat, h: nat, c: nat, t: nat): nat -> real {
    (d: nat) => Product(At4(q, b, i, h, d), At4(k, b, t, c, d))
  }

  /** Scaled inner product of query `i` of head `h` with key `t` of key/value head `c`. */
  function Score(q: Tensor4, k: Tensor4, scale: real, b: nat, i: nat, h: nat, c: nat, t: nat): real {
    scale * Sum(Products(q, k, b, i, h, c, t), q.d)
  }

  function Scores(q: Tensor4, k: Tensor4, scale: real, b: nat, i: nat, h: nat, c: nat): nat -> real {
    (t: nat) => Score(q, k, scale, b, i, h, c, t)
  }

  function QueryRow(s: Setup, q: Tensor4, k: Tensor4, offset: nat, b: nat, i: nat, h: nat, c: nat): seq<Logit>
    requires Fits(s.len, offset + b, q.b, k.b)
  {
    MaskedRow(s.len, offset + b, i, q.b, k.b, Scores(q, k, ScoreScale(s), b, i, h, c))
  }

  /** The values of one key/value head, weighted by the shares of a row. */
  function Weighted(exp: Exponential, row: seq<Logit>, v: Tensor4, b: nat, c: nat, d: nat): nat -> real {
    (t: nat) => Product(RowShare(exp, row, t), At4(v, b, t, c, d))
  }

  /** One output element: masked softmax of the scores of its own query, applied to the values. */
  function Attended(s: Setup, q: Tensor4, k: Tensor4, v: Tensor4, offset: nat, b: nat, i: nat, h: nat, d: nat): real
    requires Geometry(q, k, v) && Fits(s.len, offset + b, q.b, k.b) && q.c / k.c > 0
  {
    var c := KvHead(h, q.c, k.c);
    Sum(Weighted(s.exp, QueryRow(s, q, k, offset, b, i, h, c), v, b, c, d), k.b)
  }

  /** All output elements, by batch member, query, head and column. */
  function Reference(s: Setup, q: Tensor4, k: Tensor4, v: Tensor4, offset: nat): (nat, nat, nat, nat) -> real
    requires Geometry(q, k, v) && q.c / k.c > 0
  {
    (b: nat, i: nat, h: nat, d: nat) =>
      if Fits(s.len, offset + b, q.b, k.b) then Attended(s, q, k, v, offset, b, i, h, d) else 0.0
  }

  // ------------------------------------------------------------------ tiles

  function Query(s: Setup, q: Tensor4): Tensor3 { Scale(FlattenHeads(q), s.rootScale) }

  function Key(s: Setup, k: Tensor4, heads: nat): Tensor3
    requires k.c > 0
  {
    Transpose3(Scale(Expand(k, heads), s.rootScale))
  }

  lemma ScaleAt(t: Tensor3, s: real, i: nat, j: nat, k: nat)
    requires i < t.a && j < t.b && k < t.c
    ensures At3(Scale(t, s), i, j, k) == Product(At3(t, i, j, k), s)
  {
    AtBuild3(t.a, t.b, t.c, (i: nat, j: nat, k: nat) => Product(At3(t, i, j, k), s), i, j, k);
  }

  lemma TransposeAt(t: Tensor3, i: nat, j: nat, k: nat)
    requires i < t.a && j < t.c && k < t.b
    ensures At3(Transpose3(t), i, j, k) == At3(t, i, k, j)
  {
    AtBuild3(t.a, t.c, t.b, (i: nat, j: nat, k: nat) => At3(t, i, k, j), i, j, k);
  }

  lemma QueryAt(s: Setup, q: Tensor4, b: nat, h: nat, i: nat, d: nat)
    requires b < q.a && h < q.c && i < q.b && d < q.d
    ensures At3(Query(s, q), Flat(b, h, q.c), i, d) == Product(At4(q, b, i, h, d), s.rootScale)
  {
    FlatBound(b, h, q.a, q.c);
    FlattenHeadsAt(q, b, h, i, d);
    ScaleAt(FlattenHeads(q), s.rootScale, Flat(b, h, q.c), i, d);
  }

  lemma KeyAt(s: Setup, k: Tensor4, heads: nat, b: nat, h: nat, t: nat, d: nat)
    requires k.c > 0 && heads % k.c == 0 && b < k.a && h < heads && t < k.b && d < k.d
    ensures heads / k.c > 0
    ensures At3(Key(s, k, heads), Flat(b, h, heads), d, t) == Product(At4(k, b, t, KvHead(h, heads, k.c), d), s.rootScale)
  {
    FlatBound(b, h, k.a, heads);
    ExpandAt(k, heads, b, h, t, d);
    ScaleAt(Expand(k, heads), s.rootScale, Flat(b, h, heads), t, d);
    TransposeAt(Scale(Expand(k, heads), s.rootScale), Flat(b, h, heads), d, t);
  }

  /** Elements of the query operand: heads next to the batch, scaled. */
  ghost predicate IsQuery(s: Setup, q: Tensor4, query: Tensor3) {
    && query.a == q.a * q.c && query.b == q.b && query.c == q.d
    && forall b, h, i, d {:trigger At3(query, Flat(b, h, q.c), i, d)} ::
         0 <= b < q.a && 0 <= h < q.c && 0 <= i < q.b && 0 <= d < q.d ==>
         At3(query, Flat(b, h, q.c), i, d) == Product(At4(q, b, i, h, d), s.rootScale)
  }

  ghost predicate IsKey(s: Setup, k: Tensor4, heads: nat, key: Tensor3)
    requires k.c > 0 && heads / k.c > 0
  {
    && key.a == k.a * heads && key.b == k.d && key.c == k.b
    && forall b, h, t, d {:trigger At3(key, Flat(b, h, heads), d, t)} ::
         0 <= b < k.a && 0 <= h < heads && 0 <= t < k.b && 0 <= d < k.d ==>
         At3(key, Flat(b, h, heads), d, t) == Product(At4(k, b, t, KvHead(h, heads, k.c), d), s.rootScale)
  }

  ghost predicate IsValue(v: Tensor4, heads: nat, value: Tensor3)
    requires v.c > 0 && heads / v.c > 0
  {
    && value.a == v.a * heads && value.b == v.b && value.c == v.d
    && forall b, h, t, d {:trigger At3(value, Flat(b, h, heads), t, d)} ::
         0 <= b < v.a && 0 <= h < heads && 0 <= t < v.b && 0 <= d < v.d ==>
         At3(value, Flat(b, h, heads), t, d) == At4(v, b, t, KvHead(h, heads, v.c), d)
  }

  lemma Operands(s: Setup, q: Tensor4, k: Tensor4, v: Tensor4)
    requires Geometry(q, k, v)
    ensures q.c / k.c > 0
    ensures IsQuery(s, q, Query(s, q)) && IsKey(s, k, q.c, Key(s, k, q.c)) && IsValue(v, q.c, Expand(v, q.c))
  {
    Grouped(q.c, k.c);
    forall b, h, i, d | 0 <= b < q.a && 0 <= h < q.c && 0 <= i < q.b && 0 <= d < q.d
      ensures At3(Query(s, q), Flat(b, h, q.c), i, d) == Product(At4(q, b, i, h, d), s.rootScale)
    {
      QueryAt(s, q, b, h, i, d);
    }
    forall b, h, t, d | 0 <= b < k.a && 0 <= h < q.c && 0 <= t < k.b && 0 <= d < k.d
      ensures At3(Key(s, k, q.c), Flat(b, h, q.c), d, t) == Product(At4(k, b, t, KvHead(h, q.c, k.c), d), s.rootScale)
      ensures At3(Expand(v, q.c), Flat(b, h, q.c), t, d) == At4(v, b, t, KvHead(h, q.c, v.c), d)
    {
      KeyAt(s, k, q.c, b, h, t, d);
      ExpandAt(v, q.c, b, h, t, d);
    }
  }

  function ScaledProduct(q: Tensor4, k: Tensor4, scale: real, b: nat, i: nat, h: nat, c: nat, t: nat, d: nat): real {
    Product(scale, Product(At4(q, b, i, h, d), At4(k, b, t, c, d)))
  }

  lemma ScoreAsSum(q: Tensor4, k: Tensor4, scale: real, b: nat, i: nat, h: nat, c: nat, t: nat)
    ensures Sum((d: nat) => ScaledProduct(q, k, scale, b, i, h, c, t, d), q.d) == Score(q, k, scale, b, i, h, c, t)
  {
    SumScaled(Products(q, k, b, i, h, c, t), (d: nat) => ScaledProduct(q, k, scale, b, i, h, c, t, d), scale, q.d);
  }

  lemma Reorder(x: real, y: real, r: real)
    ensures Product(Product(x, r), Product(y, r)) == Product(Product(r, r), Product(x, y))
  {
  }

  lemma TermAt(s: Setup, q: Tensor4, k: Tensor4, query: Tensor3, key: Tensor3,
               b: nat, h: nat, i: nat, t: nat, c: nat, d: nat)
    requires k.c > 0 && q.c / k.c > 0 && q.d == k.d && q.a == k.a
    requires IsQuery(s, q, query) && IsKey(s, k, q.c, key)
    requires b < q.a && h < q.c && i < q.b && t < k.b && c == KvHead(h, q.c, k.c) && d < q.d
    ensures Product(At3(query, Flat(b, h, q.c), i, d), At3(key, Flat(b, h, q.c), d, t))
         == ScaledProduct(q, k, ScoreScale(s), b, i, h, c, t, d)
  {
    Reorder(At4(q, b, i, h, d), At4(k, b, t, c, d), s.rootScale);
  }

  /** The product of scaled queries and keys is the scaled inner product. */
  lemma DotIsScore(s: Setup, q: Tensor4, k: Tensor4, query: Tensor3, key: Tensor3, b: nat, h: nat, i: nat, t: nat, c: nat)
    requires k.c > 0 && q.c / k.c > 0 && q.d == k.d && q.a == k.a
    requires IsQuery(s, q, query) && IsKey(s, k, q.c, key)
    requires b < q.a && h < q.c && i < q.b && t < k.b && c == KvHead(h, q.c, k.c)
    ensures Dot(query, key, Flat(b, h, q.c), i, t) == Score(q, k, ScoreScale(s), b, i, h, c, t)
  {
    var n, scale := Flat(b, h, q.c), ScoreScale(s);
    var f := (d: nat) => Product(At3(query, n, i, d), At3(key, n, d, t));
    var g := (d: nat) => ScaledProduct(q, k, scale, b, i, h, c, t, d);
    forall d | 0 <= d < q.d ensures f(d) == g(d) {
      TermAt(s, q, k, query, key, b, h, i, t, c, d);
    }
    SumSame(f, g, q.d);
    ScoreAsSum(q, k, scale, b, i, h, c, t);
  }

  /** The inner products of a tile are those of the whole query operand. */
  lemma NarrowDot(query: Tensor3, key: Tensor3, start: nat, count: nat, n: nat, j: nat, t: nat)
    requires n < query.a && j < count
    ensures Dot(Narrow(query, start, count), key, n, j, t) == Dot(query, key, n, start + j, t)
  {
    var input := Narrow(query, start, count);
    var f := (d: nat) => Product(At3(input, n, j, d), At3(key, n, d, t));
    var g := (d: nat) => Product(At3(query, n, start + j, d), At3(key, n, d, t));
    forall d | 0 <= d < query.c ensures f(d) == g(d) {
      NarrowAt(query, start, count, n, j, d);
    }
    SumSame(f, g, query.c);
  }

  lemma TileScoreAt(s: Setup, q: Tensor4, k: Tensor4, query: Tensor3, key: Tensor3, start: nat, count: nat,
                    b: nat, h: nat, j: nat, t: nat, c: nat)
    requires k.c > 0 && q.c / k.c > 0 && q.d == k.d && q.a == k.a
    requires IsQuery(s, q, query) && IsKey(s, k, q.c, key) && start + count <= q.b
    requires b < q.a && h < q.c && j < count && t < k.b && c == KvHead(h, q.c, k.c)
    ensures At3(TileScores(Narrow(query, start, count), key, q.b, k.b), Flat(b, h, q.c), j, t)
         == Scores(q, k, ScoreScale(s), b, start + j, h, c)(t)
  {
    var n := Flat(b, h, q.c);
    assert n < query.a by { FlatBound(b, h, q.a, q.c); }
    TileScoresAt(Narrow(query, start, count), key, q.b, k.b, n, j, t);
    NarrowDot(query, key, start, count, n, j, t);
    DotIsScore(s, q, k, query, key, b, h, start + j, t, c);
  }

  /** The mask check accepts a tile exactly when the call is supported. */
  lemma ExtentsExact(len: Lengths, q: Tensor4, k: Tensor4, offset: nat, start: nat, count: nat, scores: Tensor3)
    requires q.c > 0 && 0 < count && start + count <= q.b
    requires scores.a == q.a * q.c && scores.b == count && scores.c == k.b
    ensures Extents(len, scores, Mask(q.b, k.b, q.c, start, count, offset)) <==> Supported(len, q, k, offset)
  {
    FlatDecode(q.a, 0, q.c);
    assert scores.a / q.c == q.a && scores.a % q.c == 0;
    assert scores.a > 0 <==> q.a > 0;
  }

  /** Elements of the scores of the tile starting at `start`. */
  ghost predicate IsScores(s: Setup, q: Tensor4, k: Tensor4, start: nat, count: nat, scores: Tensor3)
    requires k.c > 0 && q.c / k.c > 0
  {
    && scores.a == q.a * q.c && scores.b == count && scores.c == k.b
    && forall b, h, j, t {:trigger At3(scores, Flat(b, h, q.c), j, t)} ::
         0 <= b < q.a && 0 <= h < q.c && 0 <= j < count && 0 <= t < k.b ==>
         At3(scores, Flat(b, h, q.c), j, t)
         == Scores(q, k, ScoreScale(s), b, start + j, h, KvHead(h, q.c, k.c))(t)
  }

  ghost predicate IsShares(s: Setup, q: Tensor4, k: Tensor4, offset: nat, start: nat, count: nat, shares: Tensor3)
    requires k.c > 0 && q.c / k.c > 0 && Supported(s.len, q, k, offset)
  {
    && shares.a == q.a * q.c && shares.b == count && shares.c == k.b
    && forall b, h, j, t {:trigger At3(shares, Flat(b, h, q.c), j, t)} ::
         0 <= b < q.a && 0 <= h < q.c && 0 <= j < count && 0 <= t < k.b ==>
         At3(shares, Flat(b, h, q.c), j, t)
         == RowShare(s.exp, QueryRow(s, q, k, offset, b, start + j, h, KvHead(h, q.c, k.c)), t)
  }

  lemma TileScoresAre(s: Setup, q: Tensor4, k: Tensor4, query: Tensor3, key: Tensor3, start: nat, count: nat)
    requires k.c > 0 && q.c / k.c > 0 && q.d == k.d && q.a == k.a
    requires IsQuery(s, q, query) && IsKey(s, k, q.c, key) && start + count <= q.b
    ensures IsScores(s, q, k, start, count, TileScores(Narrow(query, start, count), key, q.b, k.b))
  {
    forall b, h, j, t | 0 <= b < q.a && 0 <= h < q.c && 0 <= j < count && 0 <= t < k.b
      ensures At3(TileScores(Narrow(query, start, count), key, q.b, k.b), Flat(b, h, q.c), j, t)
           == Scores(q, k, ScoreScale(s), b, start + j, h, KvHead(h, q.c, k.c))(t)
    {
      TileScoreAt(s, q, k, query, key, start, count, b, h, j, t, KvHead(h, q.c, k.c));
    }
  }

  /** The masked row of a query does not depend on the tile it was computed in. */
  lemma TileRow(s: Setup, q: Tensor4, k: Tensor4, offset: nat, start: nat, count: nat, scores: Tensor3,
                b: nat, h: nat, j: nat)
    requires k.c > 0 && q.c / k.c > 0 && Supported(s.len, q, k, offset)
    requires IsScores(s, q, k, start, count, scores) && b < q.a && h < q.c && j < count
    ensures MaskedRow(s.len, offset + b, start + j, q.b, k.b, RowScores(scores, Flat(b, h, q.c), j))
         == QueryRow(s, q, k, offset, b, start + j, h, KvHead(h, q.c, k.c))
  {
    MaskedRowSame(s.len, offset + b, start + j, q.b, k.b, RowScores(scores, Flat(b, h, q.c), j),
                  Scores(q, k, ScoreScale(s), b, start + j, h, KvHead(h, q.c, k.c)));
  }

  lemma TileSharesAre(s: Setup, q: Tensor4, k: Tensor4, offset: nat, start: nat, count: nat, scores: Tensor3)
    requires k.c > 0 && q.c / k.c > 0 && ValidLengths(s.len) && Supported(s.len, q, k, offset)
    requires 0 < count && start + count <= q.b && IsScores(s, q, k, start, count, scores)
    requires Extents(s.len, scores, Mask(q.b, k.b, q.c, start, count, offset))
    ensures IsShares(s, q, k, offset, start, count,
                     Softmax(s.exp, s.len, scores, Mask(q.b, k.b, q.c, start, count, offset)).value)
  {
    var mask := Mask(q.b, k.b, q.c, start, count, offset);
    assert scores.a / q.c == q.a by { FlatDecode(q.a, 0, q.c); }
    forall b, h, j, t | 0 <= b < q.a && 0 <= h < q.c && 0 <= j < count && 0 <= t < k.b
      ensures At3(Softmax(s.exp, s.len, scores, mask).value, Flat(b, h, q.c), j, t)
           == RowShare(s.exp, QueryRow(s, q, k, offset, b, start + j, h, KvHead(h, q.c, k.c)), t)
    {
      TileShareAt(s, q, k, offset, start, count, scores, b, h, j, t);
    }
  }

  lemma TileShareAt(s: Setup, q: Tensor4, k: Tensor4, offset: nat, start: nat, count: nat, scores: Tensor3,
                    b: nat, h: nat, j: nat, t: nat)
    requires k.c > 0 && q.c / k.c > 0 && ValidLengths(s.len) && Supported(s.len, q, k, offset)
    requires 0 < count && start + count <= q.b && IsScores(s, q, k, start, count, scores) && scores.a / q.c == q.a
    requires Extents(s.len, scores, Mask(q.b, k.b, q.c, start, count, offset))
    requires b < q.a && h < q.c && j < count && t < k.b
    ensures At3(Softmax(s.exp, s.len, scores, Mask(q.b, k.b, q.c, start, count, offset)).value, Flat(b, h, q.c), j, t)
         == RowShare(s.exp, QueryRow(s, q, k, offset, b, start + j, h, KvHead(h, q.c, k.c)), t)
  {
    SoftmaxAt(s.exp, s.len, scores, Mask(q.b, k.b, q.c, start, count, offset), b, h, j, t);
    TileRow(s, q, k, offset, start, count, scores, b, h, j);
  }

  // ---------------------------------------------------------------- outputs

  /** `out` holds queries `start .. start + count` of `target`, heads next to the batch. */
  ghost predicate Holds(batch: nat, heads: nat, dim: nat, target: (nat, nat, nat, nat) -> real,
                        start: nat, count: nat, out: Tensor3) {
    && out.a == batch * heads && out.b == count && out.c == dim
    && forall b, h, j, d {:trigger At3(out, Flat(b, h, heads), j, d)} ::
         0 <= b < batch && 0 <= h < heads && 0 <= j < count && 0 <= d < dim ==>
         At3(out, Flat(b, h, heads), j, d) == target(b, start + j, h, d)
  }

  lemma WeightedDot(exp: Exponential, row: seq<Logit>, shares: Tensor3, value: Tensor3, v: Tensor4,
                    n: nat, j: nat, b: nat, c: nat, d: nat)
    requires forall t :: 0 <= t < shares.c ==> At3(shares, n, j, t) == RowShare(exp, row, t)
    requires forall t :: 0 <= t < shares.c ==> At3(value, n, t, d) == At4(v, b, t, c, d)
    ensures Dot(shares, value, n, j, d) == Sum(Weighted(exp, row, v, b, c, d), shares.c)
  {
    var f := (t: nat) => Product(At3(shares, n, j, t), At3(value, n, t, d));
    SumSame(f, Weighted(exp, row, v, b, c, d), shares.c);
  }

  lemma TileOutputAt(s: Setup, q: Tensor4, k: Tensor4, v: Tensor4, offset: nat, start: nat, count: nat,
                     shares: Tensor3, value: Tensor3, b: nat, h: nat, j: nat, d: nat)
    requires Geometry(q, k, v) && q.c / k.c > 0 && Supported(s.len, q, k, offset)
    requires IsShares(s, q, k, offset, start, count, shares) && IsValue(v, q.c, value)
    requires b < q.a && h < q.c && j < count && d < q.d
    ensures Dot(shares, value, Flat(b, h, q.c), j, d) == Attended(s, q, k, v, offset, b, start + j, h, d)
  {
    var n, c := Flat(b, h, q.c), KvHead(h, q.c, k.c);
    WeightedDot(s.exp, QueryRow(s, q, k, offset, b, start + j, h, c), shares, value, v, n, j, b, c, d);
  }

  lemma TileOutput(s: Setup, q: Tensor4, k: Tensor4, v: Tensor4, offset: nat, start: nat, count: nat,
                   shares: Tensor3, value: Tensor3)
    requires Geometry(q, k, v) && q.c / k.c > 0 && Supported(s.len, q, k, offset)
    requires IsShares(s, q, k, offset, start, count, shares) && IsValue(v, q.c, value)
    ensures Holds(q.a, q.c, q.d, Reference(s, q, k, v, offset), start, count, MatMul(shares, value))
  {
    var target := Reference(s, q, k, v, offset);
    forall b, h, j, d | 0 <= b < q.a && 0 <= h < q.c && 0 <= j < count && 0 <= d < q.d
      ensures At3(MatMul(shares, value), Flat(b, h, q.c), j, d) == target(b, start + j, h, d)
    {
      assert Flat(b, h, q.c) < shares.a by { FlatBound(b, h, q.a, q.c); }
      MatMulAt(shares, value, Flat(b, h, q.c), j, d);
      TileReferenceAt(s, q, k, v, offset, start, count, shares, value, b, h, j, d);
    }
  }

  lemma TileReferenceAt(s: Setup, q: Tensor4, k: Tensor4, v: Tensor4, offset: nat, start: nat, count: nat,
                        shares: Tensor3, value: Tensor3, b: nat, h: nat, j: nat, d: nat)
    requires Geometry(q, k, v) && q.c / k.c > 0 && Supported(s.len, q, k, offset)
    requires IsShares(s, q, k, offset, start, count, shares) && IsValue(v, q.c, value)
    requires b < q.a && h < q.c && j < count && d < q.d
    ensures Dot(shares, value, Flat(b, h, q.c), j, d) == Reference(s, q, k, v, offset)(b, start + j, h, d)
  {
    assert Fits(s.len, offset + b, q.b, k.b);
    ReferenceIs(s, q, k, v, offset, b, start + j, h, d);
    TileOutputAt(s, q, k, v, offset, start, count, shares, value, b, h, j, d);
  }

  lemma ReferenceIs(s: Setup, q: Tensor4, k: Tensor4, v: Tensor4, offset: nat, b: nat, i: nat, h: nat, d: nat)
    requires Geometry(q, k, v) && q.c / k.c > 0 && Fits(s.len, offset + b, q.b, k.b)
    ensures Reference(s, q, k, v, offset)(b, i, h, d) == Attended(s, q, k, v, offset, b, i, h, d)
  {
  }

  /** Tiles that follow each other concatenate. */
  lemma AppendTile(batch: nat, heads: nat, dim: nat, target: (nat, nat, nat, nat) -> real, start: nat, count: nat,
                   x: Tensor3, y: Tensor3)
    requires Holds(batch, heads, dim, target, 0, start, x) && Holds(batch, heads, dim, target, start, count, y)
    ensures Holds(batch, heads, dim, target, 0, start + count, Concat(x, y))
  {
    forall b, h, j, d | 0 <= b < batch && 0 <= h < heads && 0 <= j < start + count && 0 <= d < dim
      ensures At3(Concat(x, y), Flat(b, h, heads), j, d) == target(b, j, h, d)
    {
      var n := Flat(b, h, heads);
      assert n < x.a by { FlatBound(b, h, batch, heads); }
      ConcatAt(x, y, n, j, d);
      if j >= start {
        assert At3(y, n, j - start, d) == target(b, start + (j - start), h, d);
      }
    }
  }

  /** One tile, from the narrowed queries to its output. */
  method Tile(s: Setup, q: Tensor4, k: Tensor4, v: Tensor4, query: Tensor3, key: Tensor3, value: Tensor3,
              offset: nat, start: nat, count: nat) returns (out: Option<Tensor3>)
    requires ValidLengths(s.len) && Geometry(q, k, v) && q.c / k.c > 0
    requires IsQuery(s, q, query) && IsKey(s, k, q.c, key) && IsValue(v, q.c, value)
    requires 0 < count && start + count <= q.b
    ensures out.Some? <==> Supported(s.len, q, k, offset)
    ensures out.Some? ==> Holds(q.a, q.c, q.d, Reference(s, q, k, v, offset), start, count, out.value)
  {
    var scores := TileScores(Narrow(query, start, count), key, q.b, k.b);
    TileScoresAre(s, q, k, query, key, start, count);
    var mask := Mask(q.b, k.b, q.c, start, count, offset);
    ExtentsExact(s.len, q, k, offset, start, count, scores);
    var shares := Softmax(s.exp, s.len, scores, mask);
    if shares.None? {
      return None;
    }
    TileSharesAre(s, q, k, offset, start, count, scores);
    TileOutput(s, q, k, v, offset, start, count, shares.value, value);
    return Some(MatMul(shares.value, value));
  }

  // ------------------------------------------------------------------ dense

  /** `r` holds all of `target`, batch and queries merged. */
  ghost predicate IsOutput(batch: nat, queries: nat, heads: nat, dim: nat, target: (nat, nat, nat, nat) -> real, r: Tensor3) {
    && Full3(r) && r.a == batch * queries && r.b == heads && r.c == dim
    && forall b, i, h, d {:trigger At3(r, Flat(b, i, queries), h, d)} ::
         0 <= b < batch && 0 <= i < queries && 0 <= h < heads && 0 <= d < dim ==>
         At3(r, Flat(b, i, queries), h, d) == target(b, i, h, d)
  }

  lemma AssembleOutput(batch: nat, queries: nat, heads: nat, dim: nat, target: (nat, nat, nat, nat) -> real, t: Tensor3)
    requires Holds(batch, heads, dim, target, 0, queries, t)
    ensures IsOutput(batch, queries, heads, dim, target, Assemble(t, batch, heads))
  {
    AssembleFull(t, batch, heads);
    forall b, i, h, d | 0 <= b < batch && 0 <= i < queries && 0 <= h < heads && 0 <= d < dim
      ensures At3(Assemble(t, batch, heads), Flat(b, i, queries), h, d) == target(b, i, h, d)
    {
      AssembleAt(t, batch, heads, b, h, i, d);
    }
  }

  /** An output is determined by what it holds. */
  lemma OutputUnique(batch: nat, queries: nat, heads: nat, dim: nat, target: (nat, nat, nat, nat) -> real,
                     x: Tensor3, y: Tensor3)
    requires IsOutput(batch, queries, heads, dim, target, x) && IsOutput(batch, queries, heads, dim, target, y)
    ensures x == y
  {
    forall n, h, d | 0 <= n < x.a && 0 <= h < x.b && 0 <= d < x.c ensures At3(x, n, h, d) == At3(y, n, h, d) {
      FlatEncode(n, batch, queries);
      var b, i := Tensors.Row(n, queries), Column(n, queries);
      assert At3(x, Flat(b, i, queries), h, d) == target(b, i, h, d) == At3(y, Flat(b, i, queries), h, d);
    }
    SameElements3(x, y);
  }

  lemma AppendPart(parts: seq<Tensor3>, out: Tensor3)
    ensures ConcatAll(parts + [out]) == if parts == [] then out else Concat(ConcatAll(parts), out)
  {
    assert (parts + [out])[..|parts|] == parts;
  }

  /**
   Attention over a rectangular batch in tiles of `chunk` queries.  It succeeds exactly when the
   call is supported, and the tile size does not show in the result.
   */
  method Dense(s: Setup, q: Tensor4, k: Tensor4, v: Tensor4, offset: nat, chunk: nat) returns (r: Option<Tensor3>)
    requires ValidLengths(s.len) && Geometry(q, k, v) && chunk > 0
    ensures q.c / k.c > 0
    ensures r.Some? <==> Supported(s.len, q, k, offset)
    ensures r.Some? ==> IsOutput(q.a, q.b, q.c, q.d, Reference(s, q, k, v, offset), r.value)
  {
    Grouped(q.c, k.c);
    Operands(s, q, k, v);
    var query, key, value := Query(s, q), Key(s, k, q.c), Expand(v, q.c);
    var parts: seq<Tensor3> := [];
    var start := 0;
    while start < q.b
      invariant 0 <= start <= q.b && (parts == [] <==> start == 0)
      invariant parts != [] ==> Supported(s.len, q, k, offset)
      invariant parts != [] ==> Holds(q.a, q.c, q.d, Reference(s, q, k, v, offset), 0, start, ConcatAll(parts))
      decreases q.b - start
    {
      var count := if q.b - start < chunk then q.b - start else chunk;
      var out := Tile(s, q, k, v, query, key, value, offset, start, count);
      if out.None? {
        return None;
      }
      AppendPart(parts, out.value);
      if parts != [] {
        AppendTile(q.a, q.c, q.d, Reference(s, q, k, v, offset), start, count, ConcatAll(parts), out.value);
      }
      parts := parts + [out.value];
      start := start + count;
    }
    if parts == [] {
      return None;
    }
    AssembleOutput(q.a, q.b, q.c, q.d, Reference(s, q, k, v, offset), ConcatAll(parts));
    return Some(Assemble(ConcatAll(parts), q.a, q.c));
  }
}
