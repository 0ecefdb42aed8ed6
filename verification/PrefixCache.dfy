/**
 What every operation of the block pool keeps, for all sequences that hold blocks: counts are the
 numbers of holders, a block a sequence counts as cached holds exactly its tokens, and a block it
 has yet to fill is its own.
 */
module PrefixCache {
  import opened Options
  import opened Sequences
  import opened Numbers
  import opened BlockPools
  import opened BlockPoolOps

  // --------------------------------------------------------------- invariant

  /** The reference count of a block is the number of sequences that hold it. */
  ghost predicate Owned(p: Pool, live: seq<Sequence>) {
    forall b :: 0 <= b < |p.blocks| ==> p.blocks[b].refCount == Mentions(live, b)
  }

  ghost predicate Fits(p: Pool, s: Sequence) { InPool(p, s.table) && Distinct(s.table) }

  /** A known prefix consists of full blocks and is noted with its chained hash. */
  ghost predicate GoodBlock(hasher: Hasher, x: Block) {
    if x.chain == [] then x.hash == UNHASHED
    else x.tokens == Last(x.chain) && x.hash == HashOf(hasher, x.chain)
         && forall j :: 0 <= j < |x.chain| ==> |x.chain[j]| == BLOCK_SIZE
  }

  ghost predicate Listed(p: Pool, b: nat)
    requires b < |p.blocks|
  {
    p.blocks[b].hash in p.index && b in p.index[p.blocks[b].hash]
  }

  /** Every block of a known prefix can be found. */
  ghost predicate Known(p: Pool, hasher: Hasher) {
    && (forall b :: 0 <= b < |p.blocks| ==> GoodBlock(hasher, p.blocks[b]))
    && (forall b :: 0 <= b < |p.blocks| && p.blocks[b].chain != [] ==> Listed(p, b))
  }

  /** Block `k` of the sequence holds its tokens up to there. */
  ghost predicate HoldsPrefix(p: Pool, s: Sequence, k: nat)
    requires k < |s.table| && InPool(p, s.table)
  {
    p.blocks[s.table[k]].chain == ChainOf(s.tokens, k + 1)
  }

  /** Block `k` of the sequence is held by it alone and holds no known prefix. */
  ghost predicate Private(p: Pool, s: Sequence, k: nat)
    requires k < |s.table| && InPool(p, s.table)
  {
    p.blocks[s.table[k]].chain == [] && p.blocks[s.table[k]].refCount == 1
  }

  ghost predicate Coherent(p: Pool, s: Sequence)
    requires InPool(p, s.table)
  {
    && s.cached <= |s.tokens| && FirstNew(s) <= |s.table|
    && (forall k {:trigger HoldsPrefix(p, s, k)} :: 0 <= k < FirstNew(s) ==> HoldsPrefix(p, s, k))
    && (forall k {:trigger Private(p, s, k)} :: FirstNew(s) <= k < |s.table| ==> Private(p, s, k))
  }

  ghost predicate Settled(p: Pool, s: Sequence) { Fits(p, s) && Coherent(p, s) }

  ghost predicate Inv(p: Pool, hasher: Hasher, live: seq<Sequence>) {
    && Valid(p) && Owned(p, live) && Known(p, hasher)
    && (forall i {:trigger Settled(p, live[i])} :: 0 <= i < |live| ==> Settled(p, live[i]))
  }

  // ----------------------------------------------------------------- holders

  lemma {:induction false} MentionsUpdate(live: seq<Sequence>, i: nat, s: Sequence, b: nat)
    requires i < |live|
    ensures Mentions(live[i := s], b) + (if b in live[i].table then 1 else 0)
         == Mentions(live, b) + (if b in s.table then 1 else 0)
    decreases |live|
  {
    var init, last := live[..|live| - 1], |live| - 1;
    if i < last {
      MentionsUpdate(init, i, s, b);
      assert live[i := s][..last] == init[i := s];
    } else {
      assert live[i := s][..last] == init;
    }
  }

  lemma {:induction false} MentionsHolder(live: seq<Sequence>, i: nat, b: nat)
    requires i < |live| && b in live[i].table
    ensures Mentions(live, b) > 0
  {
    if i < |live| - 1 {
      MentionsHolder(live[..|live| - 1], i, b);
    }
  }

  /** Two holders count twice. */
  lemma TwoHolders(live: seq<Sequence>, i: nat, j: nat, b: nat)
    requires i < |live| && j < |live| && i != j && b in live[i].table && b in live[j].table
    ensures Mentions(live, b) >= 2
  {
    var without := live[i := live[i].(table := [])];
    MentionsUpdate(live, i, live[i].(table := []), b);
    MentionsHolder(without, j, b);
  }

  /** A held block is in use. */
  lemma HeldIsUsed(p: Pool, live: seq<Sequence>, i: nat, b: nat)
    requires Valid(p) && Owned(p, live) && i < |live| && InPool(p, live[i].table) && b in live[i].table
    ensures b < |p.blocks| && b in p.used && b !in p.free
  {
    MentionsHolder(live, i, b);
    var k :| 0 <= k < |live[i].table| && live[i].table[k] == b;
    assert Accounted(p, b);
  }

  // ------------------------------------------------------------ one free block

  lemma UnindexedKeeps(index: map<int, seq<nat>>, hash: int, b: nat, h: int, x: nat)
    requires h in index && x in index[h] && x != b
    ensures var next := Unindexed(index, hash, b); h in next && x in next[h]
  {
    if hash in index {
      WithoutMembers(index[hash], b);
    }
  }

  lemma TakeKnown(p: Pool, hasher: Hasher)
    requires Valid(p) && Known(p, hasher) && p.free != []
    ensures Known(Take(p), hasher)
  {
    var q, b := Take(p), Last(p.free);
    forall x | 0 <= x < |q.blocks| && q.blocks[x].chain != [] ensures Listed(q, x) {
      assert x != b && Listed(p, x);
      UnindexedKeeps(p.index, p.blocks[b].hash, b, p.blocks[x].hash, x);
    }
  }

  /** The sequence next to take a block gets one of its own. */
  ghost function Extended(p: Pool, s: Sequence): Sequence
    requires p.free != []
  {
    s.(table := s.table + [Last(p.free)])
  }

  lemma TakeOwned(p: Pool, live: seq<Sequence>, i: nat)
    requires Valid(p) && Owned(p, live) && p.free != [] && i < |live| && Last(p.free) !in live[i].table
    ensures Owned(Take(p), live[i := Extended(p, live[i])])
  {
    var q, s := Take(p), Extended(p, live[i]);
    forall b | 0 <= b < |q.blocks| ensures q.blocks[b].refCount == Mentions(live[i := s], b) {
      MentionsUpdate(live, i, s, b);
      assert Accounted(p, Last(p.free));
    }
  }

  /** Nothing a settled sequence relies on changes when a free block is taken. */
  lemma TakeSettles(p: Pool, live: seq<Sequence>, j: nat)
    requires Valid(p) && Owned(p, live) && p.free != [] && j < |live| && Settled(p, live[j])
    ensures Settled(Take(p), live[j]) && Last(p.free) !in live[j].table
  {
    var s, q, b := live[j], Take(p), Last(p.free);
    assert b in p.free;
    if b in s.table {
      HeldIsUsed(p, live, j, b);
    }
    forall k | 0 <= k < |s.table| ensures q.blocks[s.table[k]] == p.blocks[s.table[k]] {
      assert s.table[k] in s.table;
    }
    forall k | 0 <= k < FirstNew(s) ensures HoldsPrefix(q, s, k) {
      assert HoldsPrefix(p, s, k);
    }
    forall k | FirstNew(s) <= k < |s.table| ensures Private(q, s, k) {
      assert Private(p, s, k);
    }
  }

  lemma ExtendedSettles(p: Pool, live: seq<Sequence>, i: nat)
    requires Valid(p) && Owned(p, live) && p.free != [] && i < |live| && Settled(p, live[i])
    ensures Settled(Take(p), Extended(p, live[i]))
  {
    var s, t, q := live[i], Extended(p, live[i]), Take(p);
    TakeSettles(p, live, i);
    forall k | 0 <= k < FirstNew(t) ensures HoldsPrefix(q, t, k) {
      assert HoldsPrefix(q, s, k);
    }
    forall k | FirstNew(t) <= k < |t.table| ensures Private(q, t, k) {
      assert k < |s.table| ==> Private(q, s, k);
    }
  }

  /** A sequence takes the next free block. */
  lemma TakeKeepsInv(p: Pool, hasher: Hasher, live: seq<Sequence>, i: nat)
    requires Inv(p, hasher, live) && p.free != [] && i < |live|
    ensures Inv(Take(p), hasher, live[i := Extended(p, live[i])])
  {
    var next := live[i := Extended(p, live[i])];
    assert Settled(p, live[i]);
    TakeSettles(p, live, i);
    TakeValid(p);
    TakeKnown(p, hasher);
    TakeOwned(p, live, i);
    forall j | 0 <= j < |next| ensures Settled(Take(p), next[j]) {
      assert Settled(p, live[j]);
      if j == i {
        ExtendedSettles(p, live, i);
      } else {
        TakeSettles(p, live, j);
      }
    }
  }

  // -------------------------------------------------------------- allocation

  /** The sequence holds its cached blocks and no others yet. */
  ghost function Sharing(p: Pool, hasher: Hasher, s: Sequence, n: nat): Sequence {
    s.(table := CachedPrefix(p, hasher, s.tokens, n), cached := n * BLOCK_SIZE)
  }

  /** A chain of full blocks is no longer than the tokens. */
  lemma FullChain(tokens: seq<nat>, n: nat)
    requires n > 0 && |BlockAt(tokens, n - 1)| == BLOCK_SIZE
    ensures n * BLOCK_SIZE <= |tokens|
  {
  }

  lemma CachedWithin(p: Pool, hasher: Hasher, tokens: seq<nat>, n: nat)
    requires Known(p, hasher) && |CachedPrefix(p, hasher, tokens, n)| == n
    ensures n * BLOCK_SIZE <= |tokens|
  {
    if n > 0 {
      CachedSound(p, hasher, tokens, 0, n);
      var b := CachedPrefix(p, hasher, tokens, n)[n - 1];
      assert GoodBlock(hasher, p.blocks[b]) && p.blocks[b].chain == ChainOf(tokens, n);
      assert ChainOf(tokens, n)[n - 1] == BlockAt(tokens, n - 1);
      FullChain(tokens, n);
    }
  }

  lemma SharedKnown(p: Pool, q: Pool, hasher: Hasher, ids: seq<nat>)
    requires Known(p, hasher) && SharedBy(p, q, ids)
    ensures Known(q, hasher)
  {
    forall b | 0 <= b < |q.blocks| ensures GoodBlock(hasher, q.blocks[b]) && (q.blocks[b].chain != [] ==> Listed(q, b)) {
      assert GoodBlock(hasher, p.blocks[b]) && (p.blocks[b].chain != [] ==> Listed(p, b));
    }
  }

  lemma SharedOwned(p: Pool, q: Pool, live: seq<Sequence>, i: nat, s: Sequence)
    requires Owned(p, live) && SharedBy(p, q, s.table) && i < |live| && live[i].table == []
    ensures Owned(q, live[i := s])
  {
    forall b | 0 <= b < |q.blocks| ensures q.blocks[b].refCount == Mentions(live[i := s], b) {
      MentionsUpdate(live, i, s, b);
    }
  }

  /** Sharing blocks of known prefixes changes nothing another sequence relies on. */
  lemma SharedSettles(p: Pool, q: Pool, ids: seq<nat>, s: Sequence)
    requires Settled(p, s) && SharedBy(p, q, ids)
    requires forall k :: 0 <= k < |ids| ==> ids[k] < |p.blocks| && p.blocks[ids[k]].chain != []
    ensures Settled(q, s)
  {
    forall k | 0 <= k < FirstNew(s) ensures HoldsPrefix(q, s, k) {
      assert HoldsPrefix(p, s, k);
    }
    forall k | FirstNew(s) <= k < |s.table| ensures Private(q, s, k) {
      assert Private(p, s, k);
      assert s.table[k] !in ids;
    }
  }

  lemma SharingSettles(p: Pool, q: Pool, hasher: Hasher, s: Sequence, n: nat)
    requires Known(p, hasher) && |CachedPrefix(p, hasher, s.tokens, n)| == n
    requires SharedBy(p, q, CachedPrefix(p, hasher, s.tokens, n))
    ensures Settled(q, Sharing(p, hasher, s, n))
  {
    var t := Sharing(p, hasher, s, n);
    CachedSound(p, hasher, s.tokens, 0, n);
    CachedDistinct(p, hasher, s.tokens, n);
    CachedWithin(p, hasher, s.tokens, n);
    assert FirstNew(t) == n;
    forall k | 0 <= k < n ensures HoldsPrefix(q, t, k) {
    }
  }

  lemma ShareKeepsInv(p: Pool, hasher: Hasher, live: seq<Sequence>, i: nat, n: nat)
    requires Inv(p, hasher, live) && i < |live| && Allocatable(p, hasher, live[i], n)
    ensures Inv(Shared(p, hasher, live[i], n), hasher, live[i := Sharing(p, hasher, live[i], n)])
  {
    SharedEffect(p, hasher, live[i], n);
    SharingKeepsInv(p, Shared(p, hasher, live[i], n), hasher, live, i, n, CachedPrefix(p, hasher, live[i].tokens, n));
  }

  lemma SharingKeepsInv(p: Pool, q: Pool, hasher: Hasher, live: seq<Sequence>, i: nat, n: nat, ids: seq<nat>)
    requires Inv(p, hasher, live) && i < |live| && live[i].table == [] && Valid(q) && SharedBy(p, q, ids)
    requires ids == CachedPrefix(p, hasher, live[i].tokens, n) && |ids| == n
    ensures Inv(q, hasher, live[i := Sharing(p, hasher, live[i], n)])
  {
    var t := Sharing(p, hasher, live[i], n);
    var next := live[i := t];
    SharedKnown(p, q, hasher, ids);
    SharedOwned(p, q, live, i, t);
    forall j | 0 <= j < |next| ensures Settled(q, next[j]) {
      if j == i {
        SharingSettles(p, q, hasher, live[i], n);
      } else {
        assert Settled(p, live[j]);
        CachedSound(p, hasher, live[i].tokens, 0, n);
        SharedSettles(p, q, ids, live[j]);
      }
    }
  }

  ghost function ExtendedBy(p: Pool, s: Sequence, m: nat): Sequence
    requires m <= |p.free|
  {
    s.(table := s.table + Heads(p.free, m))
  }

  /** A sequence takes `m` free blocks, one after the other. */
  lemma {:induction false} TakeAllKeepsInv(p: Pool, hasher: Hasher, live: seq<Sequence>, i: nat, m: nat)
    requires Inv(p, hasher, live) && i < |live| && m <= |p.free|
    ensures Inv(TakeAll(p, m), hasher, live[i := ExtendedBy(p, live[i], m)])
  {
    if m == 0 {
      assert live[i].table + Heads(p.free, 0) == live[i].table;
      assert live[i := live[i]] == live;
    } else {
      TakeAllKeepsInv(p, hasher, live, i, m - 1);
      var q, s := TakeAll(p, m - 1), ExtendedBy(p, live[i], m - 1);
      ExtendStep(p, live[i], m);
      TakeAgain(q, hasher, live, i, s);
    }
  }

  lemma ExtendStep(p: Pool, s: Sequence, m: nat)
    requires Valid(p) && 0 < m <= |p.free|
    ensures var q := TakeAll(p, m - 1);
      q.free != [] && TakeAll(p, m) == Take(q) && Extended(q, ExtendedBy(p, s, m - 1)) == ExtendedBy(p, s, m)
  {
    TakeAllFree(p, m - 1);
    assert Last(TakeAll(p, m - 1).free) == InLine(p.free, m - 1);
    assert s.table + Heads(p.free, m - 1) + [InLine(p.free, m - 1)] == s.table + Heads(p.free, m);
  }

  lemma TakeAgain(q: Pool, hasher: Hasher, live: seq<Sequence>, i: nat, s: Sequence)
    requires i < |live| && Inv(q, hasher, live[i := s]) && q.free != []
    ensures Inv(Take(q), hasher, live[i := Extended(q, s)])
  {
    TakeKeepsInv(q, hasher, live[i := s], i);
    assert live[i := s][i := Extended(q, s)] == live[i := Extended(q, s)];
  }

  /** An allocation, with any number of cached blocks it may ask for. */
  lemma AllocateKeepsInv(p: Pool, hasher: Hasher, live: seq<Sequence>, i: nat, n: nat)
    requires Inv(p, hasher, live) && i < |live| && Allocatable(p, hasher, live[i], n)
    ensures Inv(AllocatedPool(p, hasher, live[i], n), hasher, live[i := AllocatedSequence(p, hasher, live[i], n)])
  {
    var q, t, m := Shared(p, hasher, live[i], n), Sharing(p, hasher, live[i], n), NumBlocks(|live[i].tokens|) - n;
    ShareKeepsInv(p, hasher, live, i, n);
    TakeAllKeepsInv(q, hasher, live[i := t], i, m);
    assert ExtendedBy(q, t, m) == AllocatedSequence(p, hasher, live[i], n);
    assert live[i := t][i := ExtendedBy(q, t, m)] == live[i := ExtendedBy(q, t, m)];
  }
}
