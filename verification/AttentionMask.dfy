/**
 The causal mask and the row softmax.  The kernels address a row by its position in the
 flattened score tensor; what they compute depends only on the batch member, the absolute
 query and the row's own scores.
 */
module AttentionMask {
  import opened Options
  import opened Tensors
  import opened Logits

  /** Logical query and key lengths of the batch members; no member has more queries than keys. */
  datatype Lengths = Lengths(queries: seq<nat>, keys: seq<nat>)

  predicate ValidLengths(len: Lengths) {
    |len.queries| == |len.keys| && forall i :: 0 <= i < |len.queries| ==> len.queries[i] <= len.keys[i]
  }

  datatype Mask = Mask(queries: nat, keys: nat, heads: nat, queryStart: nat, chunkRows: nat, memberOffset: nat)

  /** The logical lengths of a member fit the rectangle; both are right-aligned in it. */
  predicate Fits(len: Lengths, member: nat, queries: nat, keys: nat) {
    member < |len.queries| == |len.keys| && len.queries[member] <= queries && len.keys[member] <= keys
  }

  // -------------------------------------------------------------- by query

  predicate RealQuery(len: Lengths, member: nat, query: nat, queries: nat, keys: nat)
    requires Fits(len, member, queries, keys)
  {
    queries - len.queries[member] <= query < queries
  }

  predicate Visible(len: Lengths, member: nat, query: nat, queries: nat, keys: nat, column: nat)
    requires Fits(len, member, queries, keys)
  {
    RealQuery(len, member, query, queries, keys)
    && keys - len.keys[member] <= column <= keys - queries + query
  }

  /** The scores of one query, hidden columns at minus infinity. */
  function MaskedRow(len: Lengths, member: nat, query: nat, queries: nat, keys: nat, score: nat -> real): (row: seq<Logit>)
    requires Fits(len, member, queries, keys)
    ensures |row| == keys
  {
    seq(keys, (t: nat) => if Visible(len, member, query, queries, keys, t) then Fin(score(t)) else NegInf)
  }

  function Exp(exp: Exponential, x: Logit, top: real): real {
    if x.Fin? then exp(x.value - top) else 0.0
  }

  function PartialTotal(exp: Exponential, row: seq<Logit>, top: real, n: nat): (r: real)
    requires n <= |row|
    ensures r >= 0.0
  {
    if n == 0 then 0.0 else PartialTotal(exp, row, top, n - 1) + Exp(exp, row[n - 1], top)
  }

  lemma {:induction false} TotalPositive(exp: Exponential, row: seq<Logit>, top: real, n: nat, k: nat)
    requires k < n <= |row| && row[k].Fin?
    ensures PartialTotal(exp, row, top, n) > 0.0
  {
    if k < n - 1 {
      TotalPositive(exp, row, top, n - 1, k);
    }
  }

  /** The sum over a row with a visible column, relative to its maximum. */
  function RowTotal(exp: Exponential, row: seq<Logit>): (r: real)
    requires row != [] && Maximum(row).Fin?
    ensures r > 0.0
  {
    var k :| 0 <= k < |row| && row[k] == Maximum(row);
    TotalPositive(exp, row, Maximum(row).value, |row|, k);
    PartialTotal(exp, row, Maximum(row).value, |row|)
  }

  function Ratio(x: real, y: real): real
    requires y != 0.0
  {
    x / y
  }

  lemma RatioFacts(a: real, b: real, y: real)
    requires y > 0.0
    ensures Ratio(a + b, y) == Ratio(a, y) + Ratio(b, y) && Ratio(y, y) == 1.0 && Ratio(0.0, y) == 0.0
  {
  }

  /** The share of one column; a row with nothing visible has no shares. */
  function Probability(exp: Exponential, row: seq<Logit>, t: nat): real
    requires t < |row|
  {
    if !Maximum(row).Fin? then 0.0
    else Ratio(Exp(exp, row[t], Maximum(row).value), RowTotal(exp, row))
  }

  function RowShare(exp: Exponential, row: seq<Logit>, t: nat): real {
    if t < |row| then Probability(exp, row, t) else 0.0
  }

  function ShareSum(exp: Exponential, row: seq<Logit>, n: nat): real
    requires n <= |row|
  {
    if n == 0 then 0.0 else ShareSum(exp, row, n - 1) + Probability(exp, row, n - 1)
  }

  lemma {:induction false} ShareSumIs(exp: Exponential, row: seq<Logit>, n: nat)
    requires n <= |row| && row != [] && Maximum(row).Fin?
    ensures ShareSum(exp, row, n) == Ratio(PartialTotal(exp, row, Maximum(row).value, n), RowTotal(exp, row))
  {
    var top, total := Maximum(row).value, RowTotal(exp, row);
    if n == 0 {
      RatioFacts(0.0, 0.0, total);
    } else {
      ShareSumIs(exp, row, n - 1);
      RatioFacts(PartialTotal(exp, row, top, n - 1), Exp(exp, row[n - 1], top), total);
      assert Probability(exp, row, n - 1) == Ratio(Exp(exp, row[n - 1], top), total);
    }
  }

  /** The shares of a row with a visible column sum to one. */
  lemma SharesSumToOne(exp: Exponential, row: seq<Logit>)
    requires row != [] && Maximum(row).Fin?
    ensures ShareSum(exp, row, |row|) == 1.0
  {
    ShareSumIs(exp, row, |row|);
    RatioFacts(0.0, 0.0, RowTotal(exp, row));
  }

  // ---------------------------------------------------------- two kernels

  /** A float that may be not-a-number. */
  datatype Cell = NaN | Num(value: real)

  /** The fused kernel writes zeros for a row without visible columns. */
  function FusedCell(exp: Exponential, row: seq<Logit>, t: nat): Cell
    requires t < |row|
  {
    Num(Probability(exp, row, t))
  }

  /** The separate softmax divides zero by zero there; a last pass zeroes rows of padding queries. */
  function UnfusedCell(exp: Exponential, row: seq<Logit>, real_: bool, t: nat): Cell
    requires t < |row|
  {
    if !real_ then Num(0.0)
    else if !Maximum(row).Fin? then NaN
    else Num(Probability(exp, row, t))
  }

  lemma HiddenRow(len: Lengths, member: nat, query: nat, queries: nat, keys: nat, score: nat -> real)
    requires Fits(len, member, queries, keys) && keys > 0 && query < queries <= keys
    ensures var row := MaskedRow(len, member, query, queries, keys, score);
      Maximum(row).Fin? <==> RealQuery(len, member, query, queries, keys) && queries - query <= len.keys[member]
  {
    var row := MaskedRow(len, member, query, queries, keys, score);
    var last := keys - queries + query;
    if Maximum(row).Fin? {
      var k :| 0 <= k < |row| && row[k] == Maximum(row);
      assert Visible(len, member, query, queries, keys, k);
    } else {
      assert !Less(Maximum(row), row[last]);
      assert !Visible(len, member, query, queries, keys, last);
    }
  }

  /** The two paths agree on a query exactly when it is padding or some key is visible to it. */
  lemma PathsAgreeExactly(exp: Exponential, len: Lengths, member: nat, query: nat, queries: nat, keys: nat,
                          score: nat -> real)
    requires Fits(len, member, queries, keys) && keys > 0 && query < queries <= keys
    ensures var row := MaskedRow(len, member, query, queries, keys, score);
      var real_ := RealQuery(len, member, query, queries, keys);
      (forall t :: 0 <= t < keys ==> UnfusedCell(exp, row, real_, t) == FusedCell(exp, row, t))
      <==> (!real_ || queries - query <= len.keys[member])
  {
    var row := MaskedRow(len, member, query, queries, keys, score);
    var real_ := RealQuery(len, member, query, queries, keys);
    HiddenRow(len, member, query, queries, keys, score);
    assert UnfusedCell(exp, row, real_, 0) == FusedCell(exp, row, 0) || !Maximum(row).Fin?;
  }

  /** With no more queries than keys in any member they always agree. */
  lemma PathsAgree(exp: Exponential, len: Lengths, member: nat, query: nat, queries: nat, keys: nat,
                   score: nat -> real, t: nat)
    requires ValidLengths(len) && Fits(len, member, queries, keys) && query < queries <= keys && t < keys
    ensures var row := MaskedRow(len, member, query, queries, keys, score);
      UnfusedCell(exp, row, RealQuery(len, member, query, queries, keys), t) == Num(RowShare(exp, row, t))
  {
    PathsAgreeExactly(exp, len, member, query, queries, keys, score);
  }

  // --------------------------------------------------------- over a tensor

  const FUSED_KEYS := 1024

  function KernelMember(mask: Mask, row: nat): nat { mask.memberOffset + Row(row, mask.heads * mask.chunkRows) }
  function KernelQuery(mask: Mask, row: nat): nat { mask.queryStart + Column(row, mask.chunkRows) }

  function KernelRow(len: Lengths, scores: Tensor3, mask: Mask, row: nat): (r: seq<Logit>)
    requires Fits(len, KernelMember(mask, row), mask.queries, mask.keys)
    ensures |r| == mask.keys
  {
    MaskedRow(len, KernelMember(mask, row), KernelQuery(mask, row), mask.queries, mask.keys,
              (t: nat) => Get(scores.data, Flat(row, t, mask.keys)))
  }

  function KernelCell(exp: Exponential, len: Lengths, scores: Tensor3, mask: Mask, row: nat, t: nat): Cell {
    if t >= mask.keys || !Fits(len, KernelMember(mask, row), mask.queries, mask.keys) then NaN
    else if mask.keys <= FUSED_KEYS then FusedCell(exp, KernelRow(len, scores, mask, row), t)
    else UnfusedCell(exp, KernelRow(len, scores, mask, row),
                     RealQuery(len, KernelMember(mask, row), KernelQuery(mask, row), mask.queries, mask.keys), t)
  }

  function Number(c: Cell): real { if c.Num? then c.value else 0.0 }

  predicate Extents(len: Lengths, scores: Tensor3, mask: Mask) {
    && mask.heads > 0 && scores.a % mask.heads == 0
    && scores.b == mask.chunkRows && scores.c == mask.keys >= mask.queries
    && mask.queryStart + scores.b <= mask.queries
    && mask.memberOffset + scores.a / mask.heads <= |len.queries|
    && (forall m :: mask.memberOffset <= m < mask.memberOffset + scores.a / mask.heads ==>
          Fits(len, m, mask.queries, mask.keys))
    && scores.a > 0 && scores.b > 0 && scores.c > 0
  }

  /** Checks the extents, then runs one of the two paths over all rows. */
  function Softmax(exp: Exponential, len: Lengths, scores: Tensor3, mask: Mask): Option<Tensor3> {
    if !Extents(len, scores, mask) then None
    else Some(Build3(scores.a, scores.b, scores.c, (i: nat, j: nat, k: nat) =>
      Number(KernelCell(exp, len, scores, mask, Flat(i, j, scores.b), k))))
  }

  lemma MaskedRowSame(len: Lengths, member: nat, query: nat, queries: nat, keys: nat, f: nat -> real, g: nat -> real)
    requires Fits(len, member, queries, keys) && forall t :: 0 <= t < keys ==> f(t) == g(t)
    ensures MaskedRow(len, member, query, queries, keys, f) == MaskedRow(len, member, query, queries, keys, g)
  {
  }

  /** The kernels find the batch member and the absolute query of a row from its flat position. */
  lemma KernelAddress(mask: Mask, b: nat, h: nat, j: nat)
    requires h < mask.heads && j < mask.chunkRows
    ensures var row := Flat(Flat(b, h, mask.heads), j, mask.chunkRows);
      KernelMember(mask, row) == mask.memberOffset + b && KernelQuery(mask, row) == mask.queryStart + j
  {
    var row := Flat(Flat(b, h, mask.heads), j, mask.chunkRows);
    FlatDecode(Flat(b, h, mask.heads), j, mask.chunkRows);
    FlatBound(h, j, mask.heads, mask.chunkRows);
    assert row == Flat(b, Flat(h, j, mask.chunkRows), mask.heads * mask.chunkRows) by {
      assert (b * mask.heads + h) * mask.chunkRows == b * (mask.heads * mask.chunkRows) + h * mask.chunkRows;
    }
    FlatDecode(b, Flat(h, j, mask.chunkRows), mask.heads * mask.chunkRows);
  }

  function RowScores(scores: Tensor3, i: nat, j: nat): nat -> real {
    (t: nat) => At3(scores, i, j, t)
  }

  /** For a row whose member and query are known the cell is a number: the share of its column. */
  lemma KernelCellAt(exp: Exponential, len: Lengths, scores: Tensor3, mask: Mask, i: nat, j: nat, t: nat)
    requires ValidLengths(len) && mask.queries <= mask.keys == scores.c && t < mask.keys
    requires var row := Flat(i, j, scores.b);
      KernelQuery(mask, row) < mask.queries && Fits(len, KernelMember(mask, row), mask.queries, mask.keys)
    ensures var row := Flat(i, j, scores.b);
      KernelCell(exp, len, scores, mask, row, t)
      == Num(RowShare(exp, MaskedRow(len, KernelMember(mask, row), KernelQuery(mask, row), mask.queries, mask.keys,
                                     RowScores(scores, i, j)), t))
  {
    var row := Flat(i, j, scores.b);
    var m, q := KernelMember(mask, row), KernelQuery(mask, row);
    var kernel := (t: nat) => Get(scores.data, Flat(row, t, mask.keys));
    MaskedRowSame(len, m, q, mask.queries, mask.keys, kernel, RowScores(scores, i, j));
    PathsAgree(exp, len, m, q, mask.queries, mask.keys, kernel, t);
  }

  lemma HeadInRange(scores: Tensor3, heads: nat, b: nat, h: nat)
    requires heads > 0 && scores.a % heads == 0 && b < scores.a / heads && h < heads
    ensures Flat(b, h, heads) < scores.a
  {
    FlatBound(b, h, scores.a / heads, heads);
    assert scores.a == (scores.a / heads) * heads;
  }

  lemma SoftmaxHead(exp: Exponential, len: Lengths, scores: Tensor3, mask: Mask, i: nat, b: nat, j: nat, t: nat)
    requires ValidLengths(len) && Extents(len, scores, mask) && i < scores.a && j < scores.b && t < scores.c
    requires KernelMember(mask, Flat(i, j, scores.b)) == mask.memberOffset + b
    requires KernelQuery(mask, Flat(i, j, scores.b)) == mask.queryStart + j
    requires Fits(len, mask.memberOffset + b, mask.queries, mask.keys)
    ensures At3(Softmax(exp, len, scores, mask).value, i, j, t)
         == RowShare(exp, MaskedRow(len, mask.memberOffset + b, mask.queryStart + j, mask.queries, mask.keys,
                                    RowScores(scores, i, j)), t)
  {
    var row := Flat(i, j, scores.b);
    var share := RowShare(exp, MaskedRow(len, mask.memberOffset + b, mask.queryStart + j, mask.queries, mask.keys,
                                         RowScores(scores, i, j)), t);
    assert KernelCell(exp, len, scores, mask, row, t) == Num(share) by { KernelCellAt(exp, len, scores, mask, i, j, t); }
    SoftmaxElement(exp, len, scores, mask, i, j, t);
  }

  /** Row-locality: an element depends on the member, the absolute query and its own row of scores. */
  lemma SoftmaxAt(exp: Exponential, len: Lengths, scores: Tensor3, mask: Mask, b: nat, h: nat, j: nat, t: nat)
    requires ValidLengths(len) && Extents(len, scores, mask)
    requires b < scores.a / mask.heads && h < mask.heads && j < scores.b && t < scores.c
    ensures Fits(len, mask.memberOffset + b, mask.queries, mask.keys)
    ensures At3(Softmax(exp, len, scores, mask).value, Flat(b, h, mask.heads), j, t)
         == RowShare(exp, MaskedRow(len, mask.memberOffset + b, mask.queryStart + j, mask.queries, mask.keys,
                                    RowScores(scores, Flat(b, h, mask.heads), j)), t)
  {
    assert Fits(len, mask.memberOffset + b, mask.queries, mask.keys);
    assert Flat(b, h, mask.heads) < scores.a by { HeadInRange(scores, mask.heads, b, h); }
    SoftmaxHead(exp, len, scores, mask, Flat(b, h, mask.heads), b, j, t) by { KernelAddress(mask, b, h, j); }
  }

  lemma SoftmaxElement(exp: Exponential, len: Lengths, scores: Tensor3, mask: Mask, i: nat, j: nat, t: nat)
    requires Softmax(exp, len, scores, mask).Some? && i < scores.a && j < scores.b && t < scores.c
    ensures At3(Softmax(exp, len, scores, mask).value, i, j, t)
         == Number(KernelCell(exp, len, scores, mask, Flat(i, j, scores.b), t))
  {
    AtBuild3(scores.a, scores.b, scores.c,
             (i: nat, j: nat, k: nat) => Number(KernelCell(exp, len, scores, mask, Flat(i, j, scores.b), k)), i, j, t);
  }
}
