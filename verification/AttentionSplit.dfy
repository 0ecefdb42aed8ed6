/**
 One packed batch member, computed for all heads at once or head by head.
 */
module AttentionSplit {
  import opened Options
  import opened Tensors
  import opened AttentionOps
  import opened AttentionMask
  import opened Attention

  function Unsqueeze(t: Tensor3): Tensor4 { Tensor4(1, t.a, t.b, t.c, t.data) }

  lemma UnsqueezeAt(t: Tensor3, i: nat, h: nat, d: nat)
    ensures At4(Unsqueeze(t), 0, i, h, d) == At3(t, i, h, d)
  {
    assert Flat(0, i, t.a) == i;
  }

  /** One head as a batch of one member. */
  function OneHead(t: Tensor3, head: nat): Tensor4 { Unsqueeze(Narrow(t, head, 1)) }

  lemma OneHeadAt(t: Tensor3, head: nat, i: nat, d: nat)
    requires i < t.a && d < t.c
    ensures At4(OneHead(t, head), 0, i, 0, d) == At4(Unsqueeze(t), 0, i, head, d)
  {
    UnsqueezeAt(Narrow(t, head, 1), i, 0, d);
    NarrowAt(t, head, 1, i, 0, d);
    UnsqueezeAt(t, i, head, d);
  }

  predicate MemberGeometry(q: Tensor3, k: Tensor3, v: Tensor3) {
    q.b > 0 && k.b > 0 && q.b % k.b == 0 && q.c > 0 && k.a == v.a && k.b == v.b && k.c == v.c == q.c
  }

  lemma HeadScore(q: Tensor3, k: Tensor3, scale: real, head: nat, kvHead: nat, i: nat, t: nat)
    requires q.c == k.c && i < q.a && t < k.a
    ensures Score(OneHead(q, head), OneHead(k, kvHead), scale, 0, i, 0, 0, t)
         == Score(Unsqueeze(q), Unsqueeze(k), scale, 0, i, head, kvHead, t)
  {
    var f := Products(OneHead(q, head), OneHead(k, kvHead), 0, i, 0, 0, t);
    var g := Products(Unsqueeze(q), Unsqueeze(k), 0, i, head, kvHead, t);
    forall d | 0 <= d < q.c ensures f(d) == g(d) {
      OneHeadAt(q, head, i, d);
      OneHeadAt(k, kvHead, t, d);
    }
    SumSame(f, g, q.c);
  }

  lemma HeadRow(s: Setup, q: Tensor3, k: Tensor3, member: nat, head: nat, kvHead: nat, i: nat)
    requires q.c == k.c && i < q.a && Fits(s.len, member, q.a, k.a)
    ensures QueryRow(s, OneHead(q, head), OneHead(k, kvHead), member, 0, i, 0, 0)
         == QueryRow(s, Unsqueeze(q), Unsqueeze(k), member, 0, i, head, kvHead)
  {
    var scale := ScoreScale(s);
    var f := Scores(OneHead(q, head), OneHead(k, kvHead), scale, 0, i, 0, 0);
    var g := Scores(Unsqueeze(q), Unsqueeze(k), scale, 0, i, head, kvHead);
    forall t | 0 <= t < k.a ensures f(t) == g(t) {
      HeadScore(q, k, scale, head, kvHead, i, t);
    }
    MaskedRowSame(s.len, member, i, q.a, k.a, f, g);
  }

  /** Attention of one head on its own is that head of the whole. */
  lemma HeadAttended(s: Setup, q: Tensor3, k: Tensor3, v: Tensor3, member: nat, head: nat, i: nat, d: nat)
    requires MemberGeometry(q, k, v) && q.b / k.b > 0 && Fits(s.len, member, q.a, k.a)
    requires head < q.b && i < q.a && d < q.c
    ensures var c := KvHead(head, q.b, k.b);
      Attended(s, OneHead(q, head), OneHead(k, c), OneHead(v, c), member, 0, i, 0, d)
      == Attended(s, Unsqueeze(q), Unsqueeze(k), Unsqueeze(v), member, 0, i, head, d)
  {
    var c := KvHead(head, q.b, k.b);
    HeadRow(s, q, k, member, head, c, i);
    var row := QueryRow(s, Unsqueeze(q), Unsqueeze(k), member, 0, i, head, c);
    var f := Weighted(s.exp, row, OneHead(v, c), 0, 0, d);
    var g := Weighted(s.exp, row, Unsqueeze(v), 0, c, d);
    forall t | 0 <= t < k.a ensures f(t) == g(t) {
      OneHeadAt(v, c, t, d);
    }
    SumSame(f, g, k.a);
  }

  // ------------------------------------------------------------- assembling

  /** `out` holds heads `0 .. heads` of `target` for the single member. */
  ghost predicate HoldsHeads(queries: nat, heads: nat, dim: nat, target: (nat, nat, nat, nat) -> real, out: Tensor3) {
    && Full3(out) && out.a == queries && out.b == heads && out.c == dim
    && forall i, h, d {:trigger At3(out, i, h, d)} :: 0 <= i < queries && 0 <= h < heads && 0 <= d < dim ==>
         At3(out, i, h, d) == target(0, i, h, d)
  }

  lemma HeadsAreOutput(queries: nat, heads: nat, dim: nat, target: (nat, nat, nat, nat) -> real, out: Tensor3)
    ensures HoldsHeads(queries, heads, dim, target, out) <==> IsOutput(1, queries, heads, dim, target, out)
  {
    if IsOutput(1, queries, heads, dim, target, out) {
      forall i, h, d | 0 <= i < queries && 0 <= h < heads && 0 <= d < dim
        ensures At3(out, i, h, d) == target(0, i, h, d)
      {
        assert At3(out, Flat(0, i, queries), h, d) == target(0, i, h, d);
      }
    }
  }

  /** The output of one head extends the heads before it. */
  lemma AppendHead(queries: nat, head: nat, dim: nat, target: (nat, nat, nat, nat) -> real,
                   part: (nat, nat, nat, nat) -> real, x: Tensor3, y: Tensor3)
    requires HoldsHeads(queries, head, dim, target, x) && HoldsHeads(queries, 1, dim, part, y)
    requires forall i, d :: 0 <= i < queries && 0 <= d < dim ==> part(0, i, 0, d) == target(0, i, head, d)
    ensures HoldsHeads(queries, head + 1, dim, target, Concat(x, y))
  {
    forall i, h, d | 0 <= i < queries && 0 <= h < head + 1 && 0 <= d < dim
      ensures At3(Concat(x, y), i, h, d) == target(0, i, h, d)
    {
      ConcatAt(x, y, i, h, d);
      if h == head {
        assert At3(y, i, 0, d) == part(0, i, 0, d);
      }
    }
  }

  lemma FirstHead(queries: nat, dim: nat, target: (nat, nat, nat, nat) -> real, part: (nat, nat, nat, nat) -> real, y: Tensor3)
    requires HoldsHeads(queries, 1, dim, part, y)
    requires forall i, d :: 0 <= i < queries && 0 <= d < dim ==> part(0, i, 0, d) == target(0, i, 0, d)
    ensures HoldsHeads(queries, 1, dim, target, y)
  {
  }

  ghost function MemberReference(s: Setup, q: Tensor3, k: Tensor3, v: Tensor3, member: nat): (nat, nat, nat, nat) -> real
    requires MemberGeometry(q, k, v) && q.b / k.b > 0
  {
    Reference(s, Unsqueeze(q), Unsqueeze(k), Unsqueeze(v), member)
  }

  ghost predicate MemberSupported(s: Setup, q: Tensor3, k: Tensor3, member: nat) {
    Supported(s.len, Unsqueeze(q), Unsqueeze(k), member)
  }

  /** One head through the dense path. */
  method DenseHead(s: Setup, q: Tensor3, k: Tensor3, v: Tensor3, member: nat, chunk: nat, head: nat)
    returns (out: Option<Tensor3>, ghost part: (nat, nat, nat, nat) -> real)
    requires ValidLengths(s.len) && MemberGeometry(q, k, v) && q.b / k.b > 0 && chunk > 0 && head < q.b
    ensures out.Some? <==> MemberSupported(s, q, k, member)
    ensures out.Some? ==> HoldsHeads(q.a, 1, q.c, part, out.value)
    ensures out.Some? ==> forall i, d :: 0 <= i < q.a && 0 <= d < q.c ==>
      part(0, i, 0, d) == MemberReference(s, q, k, v, member)(0, i, head, d)
  {
    var c := head / (q.b / k.b);
    var qh, kh, vh := OneHead(q, head), OneHead(k, c), OneHead(v, c);
    out := Dense(s, qh, kh, vh, member, chunk);
    part := Reference(s, qh, kh, vh, member);
    if out.Some? {
      HeadsAreOutput(q.a, 1, q.c, part, out.value);
      assert Fits(s.len, member, q.a, k.a);
      forall i, d | 0 <= i < q.a && 0 <= d < q.c
        ensures part(0, i, 0, d) == MemberReference(s, q, k, v, member)(0, i, head, d)
      {
        HeadAttended(s, q, k, v, member, head, i, d);
      }
    }
  }

  /**
   A packed member.  Neither the tile size nor splitting by head shows in the result: it is the
   attention of the whole member, and it is computed exactly when that is supported.
   */
  method PackedMember(s: Setup, q: Tensor3, k: Tensor3, v: Tensor3, member: nat, chunk: nat, splitHeads: bool)
    returns (r: Option<Tensor3>)
    requires ValidLengths(s.len) && MemberGeometry(q, k, v) && chunk > 0
    ensures q.b / k.b > 0
    ensures r.Some? <==> MemberSupported(s, q, k, member)
    ensures r.Some? ==> IsOutput(1, q.a, q.b, q.c, MemberReference(s, q, k, v, member), r.value)
  {
    Grouped(q.b, k.b);
    if !splitHeads {
      r := Dense(s, Unsqueeze(q), Unsqueeze(k), Unsqueeze(v), member, chunk);
      return;
    }
    ghost var target := MemberReference(s, q, k, v, member);
    var parts: seq<Tensor3> := [];
    for head := 0 to q.b
      invariant |parts| == head
      invariant parts != [] ==> MemberSupported(s, q, k, member)
      invariant parts != [] ==> HoldsHeads(q.a, head, q.c, target, ConcatAll(parts))
    {
      var out, part := DenseHead(s, q, k, v, member, chunk, head);
      if out.None? {
        return None;
      }
      AppendPart(parts, out.value);
      if parts == [] {
        FirstHead(q.a, q.c, target, part, out.value);
      } else {
        AppendHead(q.a, head, q.c, target, part, ConcatAll(parts), out.value);
      }
      parts := parts + [out.value];
    }
    HeadsAreOutput(q.a, q.b, q.c, target, ConcatAll(parts));
    return Some(ConcatAll(parts));
  }
}
