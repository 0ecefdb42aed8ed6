/**
 Rectangular and packed layout: a member that is padded on the left to the size of the
 batch gets, for its real queries, the attention it gets on its own.
 */
module AttentionLayout {
  import opened RealOrder
  import opened Tensors
  import opened Logits
  import opened AttentionOps
  import opened AttentionMask
  import opened Attention
  import opened AttentionSplit

  function Hidden(n: nat): seq<Logit> { seq(n, _ => NegInf) }

  lemma SameLogit(a: Logit, b: Logit)
    requires !Less(a, b) && !Less(b, a)
    ensures a == b
  {
  }

  lemma PaddedMaximum(row: seq<Logit>, n: nat)
    requires row != []
    ensures Maximum(Hidden(n) + row) == Maximum(row)
  {
    var padded := Hidden(n) + row;
    var k :| 0 <= k < |row| && row[k] == Maximum(row);
    assert padded[n + k] == row[k];
    var j :| 0 <= j < |padded| && padded[j] == Maximum(padded);
    assert padded[j] == if j < n then NegInf else row[j - n];
    SameLogit(Maximum(padded), Maximum(row));
  }

  lemma {:induction false} PaddedTotal(exp: Exponential, row: seq<Logit>, top: real, n: nat, c: nat)
    requires c <= n + |row|
    ensures PartialTotal(exp, Hidden(n) + row, top, c)
         == if c <= n then 0.0 else PartialTotal(exp, row, top, c - n)
  {
    if c > 0 {
      PaddedTotal(exp, row, top, n, c - 1);
    }
  }

  /** Hidden columns in front of a row take no share and change none. */
  lemma PaddedShare(exp: Exponential, row: seq<Logit>, n: nat, t: nat)
    requires row != [] && t < n + |row|
    ensures RowShare(exp, Hidden(n) + row, t) == if t < n then 0.0 else RowShare(exp, row, t - n)
  {
    if t < n {
      HiddenShare(exp, Hidden(n) + row, t);
    } else {
      PaddedMaximum(row, n);
      if Maximum(row).Fin? {
        PaddedRowTotal(exp, row, n);
      }
      SameShare(exp, Hidden(n) + row, t, row, t - n);
    }
  }

  lemma HiddenShare(exp: Exponential, row: seq<Logit>, t: nat)
    requires t < |row| && row[t] == NegInf
    ensures RowShare(exp, row, t) == 0.0
  {
    if Maximum(row).Fin? {
      RatioFacts(0.0, 0.0, RowTotal(exp, row));
    }
  }

  lemma SameShare(exp: Exponential, a: seq<Logit>, i: nat, b: seq<Logit>, j: nat)
    requires i < |a| && j < |b| && a[i] == b[j] && Maximum(a) == Maximum(b)
    requires Maximum(a).Fin? ==> RowTotal(exp, a) == RowTotal(exp, b)
    ensures RowShare(exp, a, i) == RowShare(exp, b, j)
  {
  }

  lemma PaddedRowTotal(exp: Exponential, row: seq<Logit>, n: nat)
    requires row != [] && Maximum(row).Fin?
    ensures Maximum(Hidden(n) + row).Fin? && RowTotal(exp, Hidden(n) + row) == RowTotal(exp, row)
  {
    PaddedMaximum(row, n);
    PaddedTotal(exp, row, Maximum(row).value, n, n + |row|);
  }

  ghost predicate SameElement(whole: Tensor4, b: nat, pad: nat, part: Tensor3, i: nat, h: nat, d: nat) {
    At4(whole, b, pad + i, h, d) == At4(Unsqueeze(part), 0, i, h, d)
  }

  /** The rectangle holds the member behind `pad` rows of padding. */
  ghost predicate Padded(whole: Tensor4, b: nat, pad: nat, part: Tensor3) {
    && b < whole.a && whole.b == pad + part.a && whole.c == part.b && whole.d == part.c
    && forall i, h, d {:trigger SameElement(whole, b, pad, part, i, h, d)} ::
         0 <= i < part.a && 0 <= h < part.b && 0 <= d < part.c ==> SameElement(whole, b, pad, part, i, h, d)
  }

  lemma PaddedScore(q: Tensor4, k: Tensor4, b: nat, qPad: nat, kPad: nat, qm: Tensor3, km: Tensor3, scale: real,
                    i: nat, h: nat, c: nat, t: nat)
    requires Padded(q, b, qPad, qm) && Padded(k, b, kPad, km) && qm.c == km.c
    requires i < qm.a && h < qm.b && c < km.b && t < km.a
    ensures Score(q, k, scale, b, qPad + i, h, c, kPad + t) == Score(Unsqueeze(qm), Unsqueeze(km), scale, 0, i, h, c, t)
  {
    var f := Products(q, k, b, qPad + i, h, c, kPad + t);
    var g := Products(Unsqueeze(qm), Unsqueeze(km), 0, i, h, c, t);
    forall d | 0 <= d < qm.c ensures f(d) == g(d) {
      PaddedAt(q, b, qPad, qm, i, h, d);
      PaddedAt(k, b, kPad, km, t, c, d);
    }
    SumSame(f, g, qm.c);
  }

  lemma PaddedAt(whole: Tensor4, b: nat, pad: nat, part: Tensor3, i: nat, h: nat, d: nat)
    requires Padded(whole, b, pad, part) && i < part.a && h < part.b && d < part.c
    ensures At4(whole, b, pad + i, h, d) == At4(Unsqueeze(part), 0, i, h, d)
  {
    assert SameElement(whole, b, pad, part, i, h, d);
  }

  /** The member's own lengths fill its packed tensors. */
  ghost predicate Packed(len: Lengths, member: nat, qm: Tensor3, km: Tensor3) {
    member < |len.queries| == |len.keys| && len.queries[member] == qm.a && len.keys[member] == km.a
  }

  lemma PaddedVisible(len: Lengths, member: nat, qPad: nat, kPad: nat, qm: Tensor3, km: Tensor3, i: nat, t: nat)
    requires Packed(len, member, qm, km) && i < qm.a <= km.a && t < km.a && qPad + qm.a <= kPad + km.a
    ensures Fits(len, member, qPad + qm.a, kPad + km.a) && Fits(len, member, qm.a, km.a)
    ensures Visible(len, member, qPad + i, qPad + qm.a, kPad + km.a, kPad + t) <==> Visible(len, member, i, qm.a, km.a, t)
  {
  }

  lemma PaddingHidden(len: Lengths, member: nat, qPad: nat, kPad: nat, qm: Tensor3, km: Tensor3, i: nat, u: nat)
    requires Packed(len, member, qm, km) && i < qm.a <= km.a && u < kPad && qPad + qm.a <= kPad + km.a
    ensures Fits(len, member, qPad + qm.a, kPad + km.a)
    ensures !Visible(len, member, qPad + i, qPad + qm.a, kPad + km.a, u)
  {
  }

  lemma PaddedRow(s: Setup, q: Tensor4, k: Tensor4, offset: nat, b: nat, qPad: nat, kPad: nat, qm: Tensor3, km: Tensor3,
                  i: nat, h: nat, c: nat)
    requires Padded(q, b, qPad, qm) && Padded(k, b, kPad, km) && qm.c == km.c && Packed(s.len, offset + b, qm, km)
    requires qm.a <= km.a && q.b <= k.b && i < qm.a && h < qm.b && c < km.b
    ensures Fits(s.len, offset + b, q.b, k.b) && Fits(s.len, offset + b, qm.a, km.a)
    ensures QueryRow(s, q, k, offset, b, qPad + i, h, c)
         == Hidden(kPad) + QueryRow(s, Unsqueeze(qm), Unsqueeze(km), offset + b, 0, i, h, c)
  {
    var m := offset + b;
    var whole := QueryRow(s, q, k, offset, b, qPad + i, h, c);
    var own := QueryRow(s, Unsqueeze(qm), Unsqueeze(km), m, 0, i, h, c);
    assert |whole| == kPad + |own|;
    forall u | 0 <= u < |whole| ensures whole[u] == (Hidden(kPad) + own)[u] {
      PaddedColumn(s, q, k, offset, b, qPad, kPad, qm, km, i, h, c, u);
    }
  }

  lemma PaddedColumn(s: Setup, q: Tensor4, k: Tensor4, offset: nat, b: nat, qPad: nat, kPad: nat, qm: Tensor3, km: Tensor3,
                     i: nat, h: nat, c: nat, u: nat)
    requires Padded(q, b, qPad, qm) && Padded(k, b, kPad, km) && qm.c == km.c && Packed(s.len, offset + b, qm, km)
    requires qm.a <= km.a && q.b <= k.b && i < qm.a && h < qm.b && c < km.b && u < kPad + km.a
    ensures Fits(s.len, offset + b, q.b, k.b) && Fits(s.len, offset + b, qm.a, km.a)
    ensures QueryRow(s, q, k, offset, b, qPad + i, h, c)[u]
         == if u < kPad then NegInf
            else QueryRow(s, Unsqueeze(qm), Unsqueeze(km), offset + b, 0, i, h, c)[u - kPad]
  {
    var t := if u < kPad then 0 else u - kPad;
    PaddedVisible(s.len, offset + b, qPad, kPad, qm, km, i, t);
    if u < kPad {
      PaddingHidden(s.len, offset + b, qPad, kPad, qm, km, i, u);
    } else {
      PaddedScore(q, k, b, qPad, kPad, qm, km, ScoreScale(s), i, h, c, t);
    }
  }

  /**
   For every real query of a padded member, the rectangular layout computes what the packed
   layout computes: the choice between the two does not show.
   */
  lemma LayoutsAgree(s: Setup, q: Tensor4, k: Tensor4, v: Tensor4, offset: nat, b: nat, qPad: nat, kPad: nat,
                     qm: Tensor3, km: Tensor3, vm: Tensor3, i: nat, h: nat, d: nat)
    requires Geometry(q, k, v) && q.b <= k.b && MemberGeometry(qm, km, vm) && q.c / k.c > 0
    requires Padded(q, b, qPad, qm) && Padded(k, b, kPad, km) && Padded(v, b, kPad, vm)
    requires Packed(s.len, offset + b, qm, km) && qm.a <= km.a && i < qm.a && h < qm.b && d < qm.c
    requires Fits(s.len, offset + b, q.b, k.b) && Fits(s.len, offset + b, qm.a, km.a)
    ensures Attended(s, q, k, v, offset, b, qPad + i, h, d)
         == Attended(s, Unsqueeze(qm), Unsqueeze(km), Unsqueeze(vm), offset + b, 0, i, h, d)
  {
    var c := KvHead(h, q.c, k.c);
    assert c < k.c by { KvHeadBound(h, q.c, k.c); }
    HeadAgrees(s, q, k, v, offset, b, qPad, kPad, qm, km, vm, i, h, c, d);
  }

  lemma HeadAgrees(s: Setup, q: Tensor4, k: Tensor4, v: Tensor4, offset: nat, b: nat, qPad: nat, kPad: nat,
                   qm: Tensor3, km: Tensor3, vm: Tensor3, i: nat, h: nat, c: nat, d: nat)
    requires q.b <= k.b == v.b && qm.c == km.c && vm.a == km.a && vm.b == km.b && vm.c == qm.c
    requires Padded(q, b, qPad, qm) && Padded(k, b, kPad, km) && Padded(v, b, kPad, vm)
    requires Packed(s.len, offset + b, qm, km) && qm.a <= km.a && i < qm.a && h < qm.b && c < km.b && d < qm.c
    requires Fits(s.len, offset + b, q.b, k.b) && Fits(s.len, offset + b, qm.a, km.a)
    ensures Sum(Weighted(s.exp, QueryRow(s, q, k, offset, b, qPad + i, h, c), v, b, c, d), k.b)
         == Sum(Weighted(s.exp, QueryRow(s, Unsqueeze(qm), Unsqueeze(km), offset + b, 0, i, h, c),
                         Unsqueeze(vm), 0, c, d), km.a)
  {
    PaddedRow(s, q, k, offset, b, qPad, kPad, qm, km, i, h, c);
    WeightedAgree(s.exp, QueryRow(s, Unsqueeze(qm), Unsqueeze(km), offset + b, 0, i, h, c),
                  QueryRow(s, q, k, offset, b, qPad + i, h, c), v, b, kPad, vm, c, d);
  }

  ghost predicate Vanishes(f: nat -> real, n: nat) { forall t :: 0 <= t < n ==> f(t) == 0.0 }

  /** Behind `n` terms `f` continues as `g` starts. */
  ghost predicate Follows(f: nat -> real, g: nat -> real, n: nat, c: nat) {
    forall t {:trigger g(t)} :: 0 <= t < c ==> f(n + t) == g(t)
  }

  lemma {:induction false} ShiftedSum(f: nat -> real, g: nat -> real, n: nat, c: nat)
    requires Vanishes(f, n) && Follows(f, g, n, c)
    ensures Sum(f, n + c) == Sum(g, c)
  {
    if c == 0 {
      ZeroSum(f, n);
    } else {
      ShiftedSum(f, g, n, c - 1);
      assert f(n + (c - 1)) == g(c - 1);
    }
  }

  lemma {:induction false} ZeroSum(f: nat -> real, n: nat)
    requires Vanishes(f, n)
    ensures Sum(f, n) == 0.0
  {
    if n > 0 {
      ZeroSum(f, n - 1);
    }
  }

  /** A name for the equation, so that it can be passed on without unfolding the sums. */
  ghost predicate SameSums(f: nat -> real, n: nat, g: nat -> real, m: nat) { Sum(f, n) == Sum(g, m) }

  lemma SumsAgree(f: nat -> real, g: nat -> real, n: nat, c: nat)
    requires Vanishes(f, n) && Follows(f, g, n, c)
    ensures SameSums(f, n + c, g, c)
  {
    ShiftedSum(f, g, n, c);
  }

  lemma WeightedAgree(exp: Exponential, own: seq<Logit>, padded: seq<Logit>, v: Tensor4, b: nat, kPad: nat, vm: Tensor3,
                      c: nat, d: nat)
    requires Padded(v, b, kPad, vm) && |own| == vm.a > 0 && c < vm.b && d < vm.c && padded == Hidden(kPad) + own
    ensures SameSums(Weighted(exp, padded, v, b, c, d), kPad + vm.a, Weighted(exp, own, Unsqueeze(vm), 0, c, d), vm.a)
  {
    var f, g := Weighted(exp, padded, v, b, c, d), Weighted(exp, own, Unsqueeze(vm), 0, c, d);
    FrontVanishes(exp, own, padded, v, b, kPad, c, d);
    BackMatches(exp, own, padded, v, b, kPad, vm, c, d);
    assert Vanishes(f, kPad);
    assert Follows(f, g, kPad, vm.a);
    SumsAgree(f, g, kPad, vm.a);
  }

  lemma FrontVanishes(exp: Exponential, own: seq<Logit>, padded: seq<Logit>, v: Tensor4, b: nat, kPad: nat, c: nat, d: nat)
    requires own != [] && padded == Hidden(kPad) + own
    ensures Vanishes(Weighted(exp, padded, v, b, c, d), kPad)
  {
    forall t | 0 <= t < kPad ensures Weighted(exp, padded, v, b, c, d)(t) == 0.0 {
      FrontWeighsNothing(exp, own, v, b, kPad, c, d, t);
    }
  }

  lemma BackMatches(exp: Exponential, own: seq<Logit>, padded: seq<Logit>, v: Tensor4, b: nat, kPad: nat, vm: Tensor3,
                    c: nat, d: nat)
    requires Padded(v, b, kPad, vm) && |own| == vm.a > 0 && c < vm.b && d < vm.c && padded == Hidden(kPad) + own
    ensures Follows(Weighted(exp, padded, v, b, c, d), Weighted(exp, own, Unsqueeze(vm), 0, c, d), kPad, vm.a)
  {
    var g := Weighted(exp, own, Unsqueeze(vm), 0, c, d);
    forall t | 0 <= t < vm.a ensures Weighted(exp, padded, v, b, c, d)(kPad + t) == g(t) {
      BackWeighsTheSame(exp, own, v, b, kPad, vm, c, d, t);
    }
  }

  lemma FrontWeighsNothing(exp: Exponential, own: seq<Logit>, v: Tensor4, b: nat, kPad: nat, c: nat, d: nat, t: nat)
    requires own != [] && t < kPad
    ensures Weighted(exp, Hidden(kPad) + own, v, b, c, d)(t) == 0.0
  {
    assert RowShare(exp, Hidden(kPad) + own, t) == 0.0 by { PaddedShare(exp, own, kPad, t); }
    WeightedAt(exp, Hidden(kPad) + own, v, b, c, d, t);
    assert Product(0.0, At4(v, b, t, c, d)) == 0.0;
  }

  lemma BackWeighsTheSame(exp: Exponential, own: seq<Logit>, v: Tensor4, b: nat, kPad: nat, vm: Tensor3,
                          c: nat, d: nat, t: nat)
    requires Padded(v, b, kPad, vm) && |own| == vm.a > 0 && c < vm.b && d < vm.c && t < vm.a
    ensures Weighted(exp, Hidden(kPad) + own, v, b, c, d)(kPad + t) == Weighted(exp, own, Unsqueeze(vm), 0, c, d)(t)
  {
    var padded := Hidden(kPad) + own;
    assert RowShare(exp, padded, kPad + t) == RowShare(exp, own, t) by { PaddedShare(exp, own, kPad, kPad + t); }
    assert At4(v, b, kPad + t, c, d) == At4(Unsqueeze(vm), 0, t, c, d) by { PaddedAt(v, b, kPad, vm, t, c, d); }
    SameWeighted(exp, padded, v, b, kPad + t, own, Unsqueeze(vm), 0, t, c, d);
  }

  lemma SameWeighted(exp: Exponential, x: seq<Logit>, v: Tensor4, b: nat, t: nat,
                     y: seq<Logit>, w: Tensor4, a: nat, u: nat, c: nat, d: nat)
    requires RowShare(exp, x, t) == RowShare(exp, y, u) && At4(v, b, t, c, d) == At4(w, a, u, c, d)
    ensures Weighted(exp, x, v, b, c, d)(t) == Weighted(exp, y, w, a, c, d)(u)
  {
    WeightedAt(exp, x, v, b, c, d, t);
    WeightedAt(exp, y, w, a, c, d, u);
  }

  lemma WeightedAt(exp: Exponential, row: seq<Logit>, v: Tensor4, b: nat, c: nat, d: nat, t: nat)
    ensures Weighted(exp, row, v, b, c, d)(t) == Product(RowShare(exp, row, t), At4(v, b, t, c, d))
  {
  }
}
