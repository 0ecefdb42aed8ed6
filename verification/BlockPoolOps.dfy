/**
 The operations of the block pool.  Each checks everything before it changes anything, so a
 refused call leaves the pool as it was.
 */
module BlockPoolOps {
  import opened Options
  import opened Sequences
  import opened Numbers
  import opened BlockPools

  // ---------------------------------------------------------- cached prefixes

  /** Each found block holds the tokens of the sequence up to it; after the last one there is a gap. */
  lemma {:induction false} CachedSound(p: Pool, hasher: Hasher, tokens: seq<nat>, k: nat, max: nat)
    ensures var c := CachedFrom(p, hasher, tokens, k, max);
      && |c| <= (if k < max then max - k else 0)
      && (forall i :: 0 <= i < |c| ==>
            c[i] < |p.blocks| && p.blocks[c[i]].chain == ChainOf(tokens, k + i + 1))
      && (k + |c| < max ==>
            var gap := ChainOf(tokens, k + |c| + 1); Lookup(p, HashOf(hasher, gap), gap).None?)
    decreases max - k
  {
    if k < max {
      var chain := ChainOf(tokens, k + 1);
      var hash := HashOf(hasher, chain);
      if hash in p.index {
        SearchFinds(p, p.index[hash], hash, chain);
      }
      if Lookup(p, hash, chain).Some? {
        CachedSound(p, hasher, tokens, k + 1, max);
        var c, rest := CachedFrom(p, hasher, tokens, k, max), CachedFrom(p, hasher, tokens, k + 1, max);
        assert forall i :: 1 <= i < |c| ==> c[i] == rest[i - 1];
      }
    }
  }

  /** Chains of different lengths are held by different blocks. */
  lemma CachedDistinct(p: Pool, hasher: Hasher, tokens: seq<nat>, max: nat)
    ensures var c := CachedPrefix(p, hasher, tokens, max);
      && |c| <= max && Distinct(c) && forall i :: 0 <= i < |c| ==> c[i] < |p.blocks|
  {
    CachedSound(p, hasher, tokens, 0, max);
    var c := CachedPrefix(p, hasher, tokens, max);
    forall i, j | 0 <= i < j < |c| ensures c[i] != c[j] {
      assert |p.blocks[c[i]].chain| == i + 1 && |p.blocks[c[j]].chain| == j + 1;
    }
  }

  lemma {:induction false} CachedTruncates(p: Pool, hasher: Hasher, tokens: seq<nat>, k: nat, max: nat, m: nat)
    requires k <= m <= max && m <= k + |CachedFrom(p, hasher, tokens, k, max)|
    ensures CachedFrom(p, hasher, tokens, k, m) == CachedFrom(p, hasher, tokens, k, max)[..m - k]
    decreases max - k
  {
    if k < m {
      CachedTruncates(p, hasher, tokens, k + 1, max, m);
    }
  }

  // -------------------------------------------------------------- allocation

  function Unused(ids: seq<nat>, used: set<nat>): (r: nat)
    ensures r <= |ids|
  {
    if ids == [] then 0 else Unused(ids[..|ids| - 1], used) + if Last(ids) in used then 0 else 1
  }

  /** What an allocation with `n` cached blocks needs. */
  ghost predicate Allocatable(p: Pool, hasher: Hasher, s: Sequence, n: nat) {
    var cached, blocks := CachedPrefix(p, hasher, s.tokens, n), NumBlocks(|s.tokens|);
    s.table == [] && n <= blocks && |cached| == n && blocks - n + Unused(cached, p.used) <= |p.free|
  }

  /** What sharing does to the pool: only counts and the free list change. */
  ghost predicate SharedBy(p: Pool, q: Pool, ids: seq<nat>) {
    && |q.blocks| == |p.blocks| && q.index == p.index && q.used == p.used + ToSet(ids)
    && (forall b :: 0 <= b < |p.blocks| ==>
          q.blocks[b] == p.blocks[b].(refCount := p.blocks[b].refCount + if b in ids then 1 else 0))
  }

  /** What sharing these blocks made of the pool. */
  ghost predicate ShareEffect(p: Pool, q: Pool, ids: seq<nat>) {
    Valid(q) && SharedBy(p, q, ids) && |q.free| == |p.free| - Unused(ids, p.used)
  }

  lemma {:induction false} ShareAllEffect(p: Pool, ids: seq<nat>, n: nat)
    requires Valid(p) && Distinct(ids) && n <= |ids| && forall k :: 0 <= k < |ids| ==> ids[k] < |p.blocks|
    ensures ShareEffect(p, ShareAll(p, ids, n), ids[..n])
  {
    if n == 0 {
      assert ids[..0] == [];
      assert p.used + ToSet<nat>([]) == p.used;
    } else {
      ShareAllEffect(p, ids, n - 1);
      assert ids[n - 1] !in ids[..n - 1];
      ShareOne(p, ShareAll(p, ids, n - 1), ids[..n - 1], ids[n - 1]);
      assert ids[..n] == ids[..n - 1] + [ids[n - 1]];
    }
  }

  lemma ShareOne(p: Pool, before: Pool, done: seq<nat>, b: nat)
    requires Valid(p) && ShareEffect(p, before, done) && b < |p.blocks| && b !in done
    ensures ShareEffect(p, Share(before, b), done + [b])
  {
    ShareValid(before, b);
    UnrepeatedIsDistinct(before.free);
    WithoutMembers(before.free, b);
    assert Accounted(before, b) && (b in before.used <==> b in p.used);
    assert ToSet(done + [b]) == ToSet(done) + {b};
    assert b in before.used ==> before.used + {b} == before.used;
    assert (done + [b])[..|done|] == done;
  }

  ghost function Shared(p: Pool, hasher: Hasher, s: Sequence, n: nat): (q: Pool)
    requires Valid(p) && Allocatable(p, hasher, s, n)
    ensures Valid(q) && NumBlocks(|s.tokens|) - n <= |q.free|
  {
    var cached := CachedPrefix(p, hasher, s.tokens, n);
    CachedDistinct(p, hasher, s.tokens, n);
    ShareAllEffect(p, cached, n);
    assert cached[..n] == cached;
    ShareAll(p, cached, n)
  }

  lemma SharedEffect(p: Pool, hasher: Hasher, s: Sequence, n: nat)
    requires Valid(p) && Allocatable(p, hasher, s, n)
    ensures SharedBy(p, Shared(p, hasher, s, n), CachedPrefix(p, hasher, s.tokens, n))
  {
    var cached := CachedPrefix(p, hasher, s.tokens, n);
    CachedDistinct(p, hasher, s.tokens, n);
    ShareAllEffect(p, cached, n);
    assert cached[..n] == cached;
  }

  /** The pool after an allocation. */
  ghost function AllocatedPool(p: Pool, hasher: Hasher, s: Sequence, n: nat): Pool
    requires Valid(p) && Allocatable(p, hasher, s, n)
  {
    TakeAll(Shared(p, hasher, s, n), NumBlocks(|s.tokens|) - n)
  }

  ghost function AllocatedSequence(p: Pool, hasher: Hasher, s: Sequence, n: nat): Sequence
    requires Valid(p) && Allocatable(p, hasher, s, n)
  {
    s.(table := CachedPrefix(p, hasher, s.tokens, n) + Heads(Shared(p, hasher, s, n).free, NumBlocks(|s.tokens|) - n),
       cached := n * BLOCK_SIZE)
  }

  /** What `CanAllocate` answers: the last block of a sequence is never taken from the cache. */
  ghost function Admission(p: Pool, hasher: Hasher, s: Sequence): Option<nat> {
    var blocks := NumBlocks(|s.tokens|);
    if blocks == 0 then Some(0)
    else
      var cached := CachedPrefix(p, hasher, s.tokens, blocks - 1);
      if |p.free| + |cached| - Unused(cached, p.used) < blocks then None else Some(|cached|)
  }

  /** An admitted sequence can be allocated, with exactly the cached blocks it was promised. */
  lemma AdmittedAllocates(p: Pool, hasher: Hasher, s: Sequence)
    requires s.table == [] && Admission(p, hasher, s).Some?
    ensures Allocatable(p, hasher, s, Admission(p, hasher, s).value)
  {
    var blocks := NumBlocks(|s.tokens|);
    if blocks > 0 {
      var cached := CachedPrefix(p, hasher, s.tokens, blocks - 1);
      CachedDistinct(p, hasher, s.tokens, blocks - 1);
      CachedTruncates(p, hasher, s.tokens, 0, blocks - 1, |cached|);
      assert cached[..|cached|] == cached;
    }
  }

  predicate CachedChecksOut(p: Pool, b: nat) {
    && b < |p.blocks|
    && if b in p.used then p.blocks[b].refCount > 0 else p.blocks[b].refCount == 0 && b in p.free
  }

  predicate FreeChecksOut(p: Pool, b: nat) {
    b < |p.blocks| && p.blocks[b].refCount == 0 && b !in p.used
  }

  /** The ownership checks on the blocks of an allocation; in a valid pool none of them fires. */
  predicate ChecksOut(p: Pool, cached: seq<nat>) {
    && |ToSet(cached)| == |cached| && (forall i :: 0 <= i < |cached| ==> CachedChecksOut(p, cached[i]))
    && |ToSet(p.free)| == |p.free| && (forall i :: 0 <= i < |p.free| ==> FreeChecksOut(p, p.free[i]))
  }

  lemma AlwaysChecksOut(p: Pool, cached: seq<nat>)
    requires Valid(p) && Distinct(cached) && forall i :: 0 <= i < |cached| ==> cached[i] < |p.blocks|
    ensures ChecksOut(p, cached)
  {
    DistinctCount(cached);
    UnrepeatedIsDistinct(p.free);
    DistinctCount(p.free);
    forall i | 0 <= i < |cached| ensures CachedChecksOut(p, cached[i]) {
      assert Accounted(p, cached[i]);
    }
    forall i | 0 <= i < |p.free| ensures FreeChecksOut(p, p.free[i]) {
      assert Accounted(p, p.free[i]);
    }
  }

  // ----------------------------------------------------------------- release

  function Cleared(s: Sequence): Sequence { s.(table := [], cached := 0) }

  function ClearedAll(batch: seq<Sequence>): seq<Sequence> {
    seq(|batch|, i requires 0 <= i < |batch| => Cleared(batch[i]))
  }

  /** The counts of the blocks noted so far. */
  ghost predicate Counts(counts: map<nat, nat>, order: seq<nat>, batch: seq<Sequence>) {
    counts.Keys == ToSet(order) && forall b :: b in counts ==> counts[b] == Mentions(batch, b)
  }

  lemma MentionsStep(batch: seq<Sequence>, i: nat, b: nat)
    requires i < |batch|
    ensures Mentions(batch[..i + 1], b) == Mentions(batch[..i], b) + if b in batch[i].table then 1 else 0
  {
    assert batch[..i + 1][..i] == batch[..i];
  }

  /** The ownership checks on a block that is let go `count` times. */
  predicate Relinquishes(p: Pool, b: nat, count: nat) {
    b < |p.blocks| && p.blocks[b].refCount > 0 && count <= p.blocks[b].refCount && b in p.used && b !in p.free
  }

  /** In a valid pool only the count can fail. */
  lemma RelinquishExact(p: Pool, batch: seq<Sequence>, order: seq<nat>, counts: map<nat, nat>)
    requires Valid(p) && order == ReleaseOrder(batch) && Counts(counts, order, batch)
    requires forall i :: 0 <= i < |batch| ==> Distinct(batch[i].table)
    ensures Releasable(p, batch) <==> forall b :: b in counts ==> Relinquishes(p, b, counts[b])
  {
    OrderDistinct(batch);
    forall b | b in counts
      ensures Relinquishes(p, b, counts[b]) <==> b < |p.blocks| && Mentions(batch, b) <= p.blocks[b].refCount
    {
      assert b in order && Accounted(p, b);
    }
    assert forall b :: b in order ==> b in counts;
  }

  /** Notes the blocks of one table from its end; a repetition is refused. */
  method NoteBlocks(order: seq<nat>, counts: map<nat, nat>, table: seq<nat>)
    returns (ok: bool, order': seq<nat>, counts': map<nat, nat>)
    requires counts.Keys == ToSet(order)
    ensures ok <==> Distinct(table)
    ensures ok ==> order' == NoteTable(order, table, |table|) && counts'.Keys == ToSet(order')
    ensures ok ==> forall b :: b in counts' ==>
      counts'[b] == (if b in counts then counts[b] else 0) + if b in table then 1 else 0
  {
    order', counts', ok := order, counts, true;
    var seen: set<nat> := {};
    for n := 0 to |table|
      invariant ok && order' == NoteTable(order, table, n) && counts'.Keys == ToSet(order')
      invariant seen == ToSet(table[|table| - n..]) && Distinct(table[|table| - n..])
      invariant forall b :: b in counts' ==>
        counts'[b] == (if b in counts then counts[b] else 0) + if b in seen then 1 else 0
      invariant forall b :: b in counts ==> b in counts'
    {
      var b := table[|table| - (n + 1)];
      assert table[|table| - (n + 1)..] == [b] + table[|table| - n..];
      if b in seen {
        return false, order', counts';
      }
      seen := seen + {b};
      if b !in counts' {
        order' := order' + [b];
      }
      counts' := counts'[b := (if b in counts' then counts'[b] else 0) + 1];
    }
    assert table[0..] == table;
  }

  class BlockPool {
    const hasher: Hasher
    var blocks: seq<Block>
    var index: map<int, seq<nat>>
    var free: seq<nat>
    var used: set<nat>

    ghost function State(): Pool
      reads this
    {
      Pool(blocks, index, free, used)
    }

    constructor (numBlocks: nat, hasher: Hasher)
      ensures this.hasher == hasher && State() == NewPool(numBlocks) && Valid(State())
    {
      this.hasher := hasher;
      blocks, index, used := seq(numBlocks, _ => EMPTY.(refCount := 0)), map[], {};
      free := seq(numBlocks, i requires 0 <= i < numBlocks => numBlocks - 1 - i);
      NewPoolValid(numBlocks);
    }

    method CachedBlockId(hash: int, chain: seq<seq<nat>>) returns (best: Option<nat>)
      ensures best == Lookup(State(), hash, chain)
    {
      best := None;
      if hash in index {
        var bucket := index[hash];
        for i := 0 to |bucket|
          invariant best == Search(State(), bucket[..i], hash, chain)
        {
          var b := bucket[i];
          assert bucket[..i + 1][..i] == bucket[..i];
          if b < |blocks| && chain != [] && blocks[b].hash == hash && blocks[b].chain == chain
             && blocks[b].tokens == Last(chain) {
            if best.None? || b in used || best.value !in used {
              best := Some(b);
            }
          }
        }
        assert bucket[..|bucket|] == bucket;
      }
    }

    /** Walks the leading blocks, extending hash and chain as it goes. */
    method CachedPrefixBlockIds(tokens: seq<nat>, max: nat) returns (ids: seq<nat>)
      ensures ids == CachedPrefix(State(), hasher, tokens, max)
    {
      ids := [];
      var hash, chain := UNHASHED, [];
      var k := 0;
      while k < max
        invariant 0 <= k <= max && chain == ChainOf(tokens, k) && hash == HashOf(hasher, chain)
        invariant CachedPrefix(State(), hasher, tokens, max) == ids + CachedFrom(State(), hasher, tokens, k, max)
      {
        ChainStep(hasher, tokens, k);
        hash, chain := hasher(BlockAt(tokens, k), hash), chain + [BlockAt(tokens, k)];
        var found := CachedBlockId(hash, chain);
        if found.None? {
          return;
        }
        ids := ids + [found.value];
        k := k + 1;
      }
    }

    method CountUnused(ids: seq<nat>) returns (count: nat)
      ensures count == Unused(ids, used)
    {
      count := 0;
      for i := 0 to |ids|
        invariant count == Unused(ids[..i], used)
      {
        assert ids[..i + 1][..i] == ids[..i];
        if ids[i] !in used {
          count := count + 1;
        }
      }
      assert ids[..|ids|] == ids;
    }

    method CanAllocate(s: Sequence) returns (r: Option<nat>)
      ensures r == Admission(State(), hasher, s)
    {
      var n := NumBlocks(|s.tokens|);
      if n == 0 {
        return Some(0);
      }
      var cached := CachedPrefixBlockIds(s.tokens, n - 1);
      var unused := CountUnused(cached);
      if |free| < n - (|cached| - unused) {
        return None;
      }
      return Some(|cached|);
    }

    method ShareBlock(b: nat)
      requires Valid(State()) && b < |blocks|
      modifies this`blocks, this`free, this`used
      ensures State() == Share(old(State()), b)
    {
      if b in used {
        blocks := blocks[b := blocks[b].(refCount := blocks[b].refCount + 1)];
      } else {
        free := Without(free, b);
        blocks := blocks[b := blocks[b].(refCount := 1)];
        used := used + {b};
      }
    }

    method AllocateBlock() returns (b: nat)
      requires Valid(State()) && free != []
      modifies this`blocks, this`free, this`used, this`index
      ensures State() == Take(old(State())) && b == Last(old(free)) && Valid(State())
    {
      TakeValid(State());
      b := Last(free);
      var hash := blocks[b].hash;
      free := free[..|free| - 1];
      if hash != UNHASHED {
        index := Unindexed(index, hash, b);
      }
      blocks := blocks[b := EMPTY];
      used := used + {b};
    }

    method ShareBlocks(ids: seq<nat>)
      requires Valid(State()) && Distinct(ids) && forall k :: 0 <= k < |ids| ==> ids[k] < |blocks|
      modifies this`blocks, this`free, this`used
      ensures State() == ShareAll(old(State()), ids, |ids|)
    {
      ghost var p := State();
      for i := 0 to |ids|
        invariant State() == ShareAll(p, ids, i)
      {
        ShareAllEffect(p, ids, i);
        ShareBlock(ids[i]);
      }
    }

    method TakeBlocks(n: nat) returns (ids: seq<nat>)
      requires Valid(State()) && n <= |free|
      modifies this`blocks, this`free, this`used, this`index
      ensures State() == TakeAll(old(State()), n) && ids == Heads(old(free), n)
    {
      ghost var p := State();
      ids := [];
      for i := 0 to n
        invariant State() == TakeAll(p, i) && ids == Heads(p.free, i)
      {
        assert Last(free) == InLine(p.free, i) by { TakeAllFree(p, i); }
        assert Heads(p.free, i + 1) == Heads(p.free, i) + [InLine(p.free, i)];
        var b := AllocateBlock();
        ids := ids + [b];
      }
    }

    /** Every check of an allocation, before anything changes. */
    method PlanAllocation(s: Sequence, n: nat) returns (ok: bool, cached: seq<nat>)
      requires Valid(State())
      ensures ok <==> Allocatable(State(), hasher, s, n)
      ensures ok ==> cached == CachedPrefix(State(), hasher, s.tokens, n)
    {
      cached := [];
      var total := NumBlocks(|s.tokens|);
      if s.table != [] || n > total {
        return false, cached;
      }
      cached := CachedPrefixBlockIds(s.tokens, n);
      var unused := CountUnused(cached);
      assert ChecksOut(State(), cached) by {
        CachedDistinct(State(), hasher, s.tokens, n);
        AlwaysChecksOut(State(), cached);
      }
      var sound := ChecksOut(Pool(blocks, index, free, used), cached);
      return |cached| == n && total - n + unused <= |free| && sound, cached;
    }

    /**
     Gives the sequence its blocks: `n` shared ones that hold its prefix, the rest emptied.  It is
     refused exactly when the sequence has blocks already, when fewer than `n` blocks are cached, or
     when too few are free.
     */
    method Allocate(s: Sequence, n: nat) returns (ok: bool, t: Sequence)
      requires Valid(State())
      modifies this`blocks, this`free, this`used, this`index
      ensures ok <==> Allocatable(old(State()), hasher, s, n)
      ensures ok ==> State() == AllocatedPool(old(State()), hasher, s, n)
      ensures ok ==> t == AllocatedSequence(old(State()), hasher, s, n)
      ensures !ok ==> State() == old(State()) && t == s
    {
      var cached;
      t := s;
      ok, cached := PlanAllocation(s, n);
      if !ok {
        return;
      }
      CachedDistinct(State(), hasher, s.tokens, n);
      ghost var shared := Shared(State(), hasher, s, n);
      ShareBlocks(cached);
      assert State() == shared;
      var emptied := TakeBlocks(NumBlocks(|s.tokens|) - n);
      t := s.(table := cached + emptied, cached := n * BLOCK_SIZE);
    }

    /** Counts how often each block is let go, in release order. */
    method CountReleases(batch: seq<Sequence>) returns (ok: bool, order: seq<nat>, counts: map<nat, nat>)
      ensures ok <==> forall i :: 0 <= i < |batch| ==> Distinct(batch[i].table)
      ensures ok ==> order == ReleaseOrder(batch) && Counts(counts, order, batch)
    {
      ok, order, counts := true, [], map[];
      for i := 0 to |batch|
        invariant ok && forall k :: 0 <= k < i ==> Distinct(batch[k].table)
        invariant order == ReleaseOrder(batch[..i]) && Counts(counts, order, batch[..i])
      {
        assert batch[..i + 1][..i] == batch[..i];
        ghost var before := counts;
        OrderDistinct(batch[..i]);
        ok, order, counts := NoteBlocks(order, counts, batch[i].table);
        if !ok {
          return;
        }
        forall b | b in counts ensures counts[b] == Mentions(batch[..i + 1], b) {
          MentionsStep(batch, i, b);
        }
      }
      assert batch[..|batch|] == batch;
    }

    method ReleaseBlock(b: nat, count: nat)
      requires b < |blocks| && count <= blocks[b].refCount
      modifies this`blocks, this`free, this`used
      ensures State() == Release(old(State()), b, count)
    {
      blocks := blocks[b := blocks[b].(refCount := blocks[b].refCount - count)];
      if blocks[b].refCount == 0 {
        used := used - {b};
        free := [b] + free;
      }
    }

    /** Releases the blocks of a batch of sequences, or nothing at all. */
    method DeallocateBatch(batch: seq<Sequence>) returns (ok: bool, cleared: seq<Sequence>)
      requires Valid(State())
      modifies this`blocks, this`free, this`used
      ensures ok <==> Releasable(old(State()), batch)
      ensures ok ==> State() == ReleaseAll(old(State()), batch, |ReleaseOrder(batch)|) && cleared == ClearedAll(batch)
      ensures !ok ==> State() == old(State()) && cleared == batch
    {
      cleared := batch;
      var order, counts;
      ok, order, counts := CountReleases(batch);
      if !ok {
        return;
      }
      ok := forall b :: b in counts ==> Relinquishes(Pool(blocks, index, free, used), b, counts[b]);
      RelinquishExact(State(), batch, order, counts);
      if !ok {
        return;
      }
      ReleaseBlocks(batch, order, counts);
      cleared := ClearedAll(batch);
    }

    method ReleaseBlocks(batch: seq<Sequence>, order: seq<nat>, counts: map<nat, nat>)
      requires Valid(State()) && Releasable(State(), batch)
      requires order == ReleaseOrder(batch) && Counts(counts, order, batch)
      modifies this`blocks, this`free, this`used
      ensures State() == ReleaseAll(old(State()), batch, |order|)
    {
      ghost var p := State();
      for n := 0 to |order|
        invariant State() == ReleaseAll(p, batch, n)
      {
        assert order[n] in order[n..] && order[n] in order;
        ReleaseBlock(order[n], counts[order[n]]);
      }
    }

    method CountMissing(batch: seq<Sequence>) returns (ok: bool, count: nat)
      ensures ok <==> NearlyCovered(batch)
      ensures ok ==> count == MissingIn(batch)
    {
      ok, count := true, 0;
      for i := 0 to |batch|
        invariant ok && NearlyCovered(batch[..i]) && count == MissingIn(batch[..i])
      {
        assert batch[..i + 1][..i] == batch[..i];
        var missing := Missing(batch[i]);
        if missing < 0 || missing > 1 {
          assert !NearlyCovered(batch);
          return false, count;
        }
        count := count + missing;
      }
      assert batch[..|batch|] == batch;
    }

    method CanAppendBatch(batch: seq<Sequence>) returns (ok: bool)
      ensures ok <==> NearlyCovered(batch) && MissingIn(batch) <= |free|
    {
      var covered, count := CountMissing(batch);
      return covered && count <= |free|;
    }

    /** Gives a block to every sequence of the batch that lacks one, or to none. */
    method MayAppendBatch(batch: seq<Sequence>) returns (ok: bool, appended: seq<Sequence>)
      requires Valid(State())
      modifies this`blocks, this`free, this`used, this`index
      ensures ok <==> NearlyCovered(batch) && MissingIn(batch) <= |old(free)|
      ensures ok ==> State() == TakeAll(old(State()), MissingIn(batch)) && appended == Appended(old(State()), batch)
      ensures !ok ==> State() == old(State()) && appended == batch
    {
      appended := batch;
      var covered, count := CountMissing(batch);
      AlwaysChecksOut(State(), []);
      if !covered || |free| < count || !ChecksOut(Pool(blocks, index, free, used), []) {
        return false, appended;
      }
      var ids := TakeBlocks(count);
      appended := GiveBlocks(batch, ids, old(State()));
      return true, appended;
    }

    method GiveBlocks(batch: seq<Sequence>, ids: seq<nat>, ghost p: Pool) returns (appended: seq<Sequence>)
      requires MissingIn(batch) == |ids| <= |p.free| && ids == Heads(p.free, |ids|)
      ensures appended == Appended(p, batch)
    {
      appended := [];
      var next := 0;
      for i := 0 to |batch|
        invariant next == MissingIn(batch[..i]) <= |ids| && appended == Appended(p, batch[..i])
      {
        MissingGrows(batch, i + 1);
        assert batch[..i + 1][..i] == batch[..i];
        var s := batch[i];
        if Missing(s) == 1 {
          s := s.(table := s.table + [ids[next]]);
          next := next + 1;
        }
        appended := appended + [s];
      }
      assert batch[..|batch|] == batch;
    }

    /** Notes the blocks that the scheduled tokens complete. */
    method HashBlocks(s: Sequence)
      requires InPool(State(), s.table) && FirstOpen(s) <= |s.table|
      modifies this`blocks, this`index
      ensures State() == HashedPool(old(State()), hasher, s)
    {
      var start, end := FirstNew(s), FirstOpen(s);
      if start < end {
        HashRange(s.tokens, s.table, start, end);
      }
    }

    method HashRange(tokens: seq<nat>, table: seq<nat>, start: nat, end: nat)
      requires InPool(State(), table) && start <= end <= |table|
      modifies this`blocks, this`index
      ensures State() == Hashed(old(State()), hasher, tokens, table, start, end).pool
    {
      var hash, chain := PrefixBefore(table, start);
      ghost var p := State();
      HashedStart(p, hasher, tokens, table, start);
      for i := start to end
        invariant |blocks| == |p.blocks| && OnTrail(p, hasher, tokens, table, start, i, Trail(State(), hash, chain))
      {
        ghost var before := Trail(State(), hash, chain);
        hash, chain := HashBlock(table[i], BlockAt(tokens, i), hash, chain);
        NextOnTrail(p, hasher, tokens, table, start, i, before);
      }
    }

    method PrefixBefore(table: seq<nat>, start: nat) returns (hash: int, chain: seq<seq<nat>>)
      requires InPool(State(), table) && start <= |table|
      ensures Trail(State(), hash, chain) == TrailStart(State(), table, start)
    {
      hash, chain := UNHASHED, [];
      if start > 0 {
        var prefix := blocks[table[start - 1]];
        hash, chain := prefix.hash, prefix.chain;
      }
    }

    method HashBlock(b: nat, tokens: seq<nat>, hash: int, chain: seq<seq<nat>>)
      returns (nextHash: int, nextChain: seq<seq<nat>>)
      requires b < |blocks|
      modifies this`blocks, this`index
      ensures Trail(State(), nextHash, nextChain) == TrailStep(hasher, Trail(old(State()), hash, chain), b, tokens)
    {
      nextHash, nextChain := hasher(tokens, hash), chain + [tokens];
      NoteBlock(b, nextHash, nextChain);
    }

    method NoteBlock(b: nat, hash: int, chain: seq<seq<nat>>)
      requires b < |blocks| && chain != []
      modifies this`blocks, this`index
      ensures State() == Note(old(State()), b, hash, chain)
    {
      var was := blocks[b];
      if was.hash != UNHASHED && was.hash != hash {
        index := Unindexed(index, was.hash, b);
      }
      blocks := blocks[b := was.(hash := hash, tokens := Last(chain), chain := chain)];
      index := Indexed(index, hash, b);
    }
  }

  /** `t` is where the hashing of the table has got to before block `i`. */
  ghost predicate OnTrail(p: Pool, hasher: Hasher, tokens: seq<nat>, table: seq<nat>, start: nat, i: nat, t: Trail) {
    InPool(p, table) && start <= i <= |table| && t == Hashed(p, hasher, tokens, table, start, i)
  }

  lemma HashedStart(p: Pool, hasher: Hasher, tokens: seq<nat>, table: seq<nat>, start: nat)
    requires InPool(p, table) && start <= |table|
    ensures OnTrail(p, hasher, tokens, table, start, start, TrailStart(p, table, start))
  {
  }

  lemma NextOnTrail(p: Pool, hasher: Hasher, tokens: seq<nat>, table: seq<nat>, start: nat, i: nat, t: Trail)
    requires i < |table| && OnTrail(p, hasher, tokens, table, start, i, t)
    ensures OnTrail(p, hasher, tokens, table, start, i + 1, TrailStep(hasher, t, table[i], BlockAt(tokens, i)))
  {
  }

  lemma {:induction false} MissingGrows(batch: seq<Sequence>, i: nat)
    requires i <= |batch|
    ensures MissingIn(batch[..i]) <= MissingIn(batch)
    decreases |batch| - i
  {
    if i == |batch| {
      assert batch[..i] == batch;
    } else {
      MissingGrows(batch, i + 1);
      assert batch[..i + 1][..i] == batch[..i];
    }
  }
}
