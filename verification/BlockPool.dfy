/**
 The pool of physical KV-cache blocks: a free list, the blocks in use with their reference
 counts, and an index from chained hashes to blocks that hold a known prefix.

 A block in the index carries the complete chain of token blocks it stands for, so a hit never
 rests on the hash alone.  The hash is an arbitrary function here, free to collide.
 */
module BlockPools {
  import opened Options
  import opened Sequences
  import opened Numbers

  const BLOCK_SIZE: nat := 256

  /** Hash of a block's tokens, chained to the hash of the block before. */
  type Hasher = (seq<nat>, int) -> int

  /** The hash of a block that holds no known prefix, and the start of every chain of hashes. */
  const UNHASHED: int := -1

  /** `chain` holds the tokens of all blocks of the prefix, this one last; it is empty if unknown. */
  datatype Block = Block(refCount: nat, hash: int, tokens: seq<nat>, chain: seq<seq<nat>>)

  /** `free` lists the free blocks from the end of the queue to its head, which is last. */
  datatype Pool = Pool(blocks: seq<Block>, index: map<int, seq<nat>>, free: seq<nat>, used: set<nat>)

  /** A sequence as far as the cache is concerned: `cached` tokens are in its blocks already. */
  datatype Sequence = Sequence(tokens: seq<nat>, cached: nat, scheduled: nat, table: seq<nat>)

  const EMPTY := Block(1, UNHASHED, [], [])

  function Last<T>(s: seq<T>): T
    requires s != []
  {
    s[|s| - 1]
  }

  // ------------------------------------------------------------- sequences

  function NumBlocks(tokens: nat): nat { (tokens + BLOCK_SIZE - 1) / BLOCK_SIZE }

  function BlockAt(tokens: seq<nat>, i: nat): seq<nat> {
    if i * BLOCK_SIZE <= |tokens| then tokens[i * BLOCK_SIZE..Min((i + 1) * BLOCK_SIZE, |tokens|)] else []
  }

  /** The first `k` blocks of a token sequence. */
  function ChainOf(tokens: seq<nat>, k: nat): (chain: seq<seq<nat>>)
    ensures |chain| == k
  {
    seq(k, i requires 0 <= i < k => BlockAt(tokens, i))
  }

  function HashOf(hasher: Hasher, chain: seq<seq<nat>>): int {
    if chain == [] then UNHASHED
    else hasher(Last(chain), HashOf(hasher, chain[..|chain| - 1]))
  }

  lemma ChainStep(hasher: Hasher, tokens: seq<nat>, k: nat)
    ensures ChainOf(tokens, k + 1) == ChainOf(tokens, k) + [BlockAt(tokens, k)]
    ensures HashOf(hasher, ChainOf(tokens, k + 1)) == hasher(BlockAt(tokens, k), HashOf(hasher, ChainOf(tokens, k)))
  {
    assert ChainOf(tokens, k + 1)[..k] == ChainOf(tokens, k);
  }

  // ---------------------------------------------------------------- ownership

  ghost predicate Apart(s: seq<nat>, i: nat, j: nat) { i < |s| && j < |s| && s[i] != s[j] }

  /** No repetitions, stated so that nothing follows about an index nobody asks for. */
  ghost predicate Unrepeated(s: seq<nat>) {
    forall i, j {:trigger Apart(s, i, j)} :: 0 <= i < j < |s| ==> Apart(s, i, j)
  }

  lemma UnrepeatedIsDistinct(s: seq<nat>)
    ensures Unrepeated(s) <==> Distinct(s)
  {
    if Unrepeated(s) {
      forall i, j | 0 <= i < j < |s| ensures s[i] != s[j] {
        assert Apart(s, i, j);
      }
    }
  }

  /** Either free or used, and used exactly if referenced. */
  ghost predicate Accounted(p: Pool, b: nat) {
    && ((b in p.used || b in p.free) <==> b < |p.blocks|)
    && (b in p.used ==> b !in p.free)
    && (b < |p.blocks| ==> (b in p.used <==> p.blocks[b].refCount > 0))
  }

  /** Free and used blocks partition the pool, and exactly the used ones are referenced. */
  ghost predicate Valid(p: Pool) {
    && Unrepeated(p.free) && (p.free != [] ==> Last(p.free) < |p.blocks|)
    && forall b: nat {:trigger Accounted(p, b)} :: Accounted(p, b)
  }

  lemma FreeInPool(p: Pool)
    requires Valid(p)
    ensures forall i :: 0 <= i < |p.free| ==> p.free[i] < |p.blocks|
  {
    forall i | 0 <= i < |p.free| ensures p.free[i] < |p.blocks| {
      assert Accounted(p, p.free[i]);
    }
  }

  /** A pool of unreferenced blocks, all free. */
  function NewPool(numBlocks: nat): Pool {
    Pool(seq(numBlocks, _ => EMPTY.(refCount := 0)), map[],
         seq(numBlocks, i requires 0 <= i < numBlocks => numBlocks - 1 - i), {})
  }

  lemma NewPoolValid(numBlocks: nat)
    ensures Valid(NewPool(numBlocks))
  {
    UnrepeatedIsDistinct(NewPool(numBlocks).free);
    var p := NewPool(numBlocks);
    forall b: nat ensures Accounted(p, b) {
      assert b < numBlocks ==> p.free[numBlocks - 1 - b] == b;
    }
  }

  /** The block that is taken after `k` others. */
  function InLine(free: seq<nat>, k: nat): nat
    requires k < |free|
  {
    free[|free| - 1 - k]
  }

  /** The next `m` blocks in line. */
  function Heads(free: seq<nat>, m: nat): (r: seq<nat>)
    requires m <= |free|
    ensures |r| == m
  {
    seq(m, k requires 0 <= k < m => InLine(free, k))
  }

  // ----------------------------------------------------------- prefix look-up

  predicate Holds(p: Pool, b: nat, hash: int, chain: seq<seq<nat>>) {
    && b < |p.blocks| && chain != []
    && p.blocks[b].hash == hash && p.blocks[b].chain == chain && p.blocks[b].tokens == Last(chain)
  }

  /** The last block of the bucket that holds the chain, a used one if there is any. */
  function Search(p: Pool, bucket: seq<nat>, hash: int, chain: seq<seq<nat>>): Option<nat> {
    if bucket == [] then None
    else
      var best, b := Search(p, bucket[..|bucket| - 1], hash, chain), Last(bucket);
      if !Holds(p, b, hash, chain) then best
      else if best.None? || b in p.used || best.value !in p.used then Some(b)
      else best
  }

  function Lookup(p: Pool, hash: int, chain: seq<seq<nat>>): Option<nat> {
    if hash in p.index then Search(p, p.index[hash], hash, chain) else None
  }

  lemma {:induction false} SearchFinds(p: Pool, bucket: seq<nat>, hash: int, chain: seq<seq<nat>>)
    ensures var r := Search(p, bucket, hash, chain);
      && (r.Some? ==> r.value in bucket && Holds(p, r.value, hash, chain))
      && (forall b :: b in bucket && Holds(p, b, hash, chain) ==> r.Some? && (b in p.used ==> r.value in p.used))
  {
    if bucket != [] {
      SearchFinds(p, bucket[..|bucket| - 1], hash, chain);
      assert bucket == bucket[..|bucket| - 1] + [Last(bucket)];
    }
  }

  /** The blocks that hold the leading blocks `k`, `k + 1`, … of the sequence, up to the first gap. */
  function CachedFrom(p: Pool, hasher: Hasher, tokens: seq<nat>, k: nat, max: nat): seq<nat>
    decreases max - k
  {
    if k >= max then []
    else
      var chain := ChainOf(tokens, k + 1);
      match Lookup(p, HashOf(hasher, chain), chain)
      case None => []
      case Some(b) => [b] + CachedFrom(p, hasher, tokens, k + 1, max)
  }

  function CachedPrefix(p: Pool, hasher: Hasher, tokens: seq<nat>, max: nat): seq<nat> {
    CachedFrom(p, hasher, tokens, 0, max)
  }

  // --------------------------------------------------------------- acquiring

  function Without(bucket: seq<nat>, b: nat): seq<nat> {
    if bucket == [] then []
    else
      var rest := Without(bucket[..|bucket| - 1], b);
      if Last(bucket) == b then rest else rest + [Last(bucket)]
  }

  lemma {:induction false} WithoutMembers(bucket: seq<nat>, b: nat)
    ensures forall x :: x in Without(bucket, b) <==> x in bucket && x != b
    ensures Distinct(bucket) ==>
      Distinct(Without(bucket, b)) && |Without(bucket, b)| == |bucket| - if b in bucket then 1 else 0
  {
    if bucket != [] {
      var init := bucket[..|bucket| - 1];
      WithoutMembers(init, b);
      assert bucket == init + [Last(bucket)];
      assert Distinct(bucket) ==> Last(bucket) !in init;
    }
  }

  function Unindexed(index: map<int, seq<nat>>, hash: int, b: nat): map<int, seq<nat>> {
    if hash !in index then index
    else
      var bucket := Without(index[hash], b);
      if bucket == [] then index - {hash} else index[hash := bucket]
  }

  function Indexed(index: map<int, seq<nat>>, hash: int, b: nat): map<int, seq<nat>> {
    index[hash := Without(if hash in index then index[hash] else [], b) + [b]]
  }

  /** One more sequence holds a block of a known prefix. */
  function Share(p: Pool, b: nat): Pool
    requires b < |p.blocks|
  {
    var block := p.blocks[b];
    if b in p.used then p.(blocks := p.blocks[b := block.(refCount := block.refCount + 1)])
    else p.(blocks := p.blocks[b := block.(refCount := 1)], free := Without(p.free, b), used := p.used + {b})
  }

  /** The block at the head of the free list, emptied, goes to one sequence. */
  function Take(p: Pool): Pool
    requires p.free != [] && Last(p.free) < |p.blocks|
  {
    var b := Last(p.free);
    var hash := p.blocks[b].hash;
    p.(blocks := p.blocks[b := EMPTY], free := p.free[..|p.free| - 1], used := p.used + {b},
       index := if hash != UNHASHED then Unindexed(p.index, hash, b) else p.index)
  }

  lemma ShareValid(p: Pool, b: nat)
    requires Valid(p) && b < |p.blocks|
    ensures Valid(Share(p, b))
  {
    var q := Share(p, b);
    WithoutMembers(p.free, b);
    UnrepeatedIsDistinct(p.free);
    UnrepeatedIsDistinct(q.free);
    forall x: nat ensures Accounted(q, x) {
      assert Accounted(p, x) && Accounted(p, b);
    }
    assert q.free != [] ==> Last(q.free) in p.free && Accounted(p, Last(q.free));
  }

  lemma TakeValid(p: Pool)
    requires Valid(p) && p.free != []
    ensures Valid(Take(p))
  {
    var b, q := Last(p.free), Take(p);
    UnrepeatedIsDistinct(p.free);
    UnrepeatedIsDistinct(q.free);
    assert p.free == q.free + [b];
    forall x: nat ensures Accounted(q, x) {
      assert Accounted(p, x);
    }
    assert q.free != [] ==> Last(q.free) in p.free && Accounted(p, Last(q.free));
  }

  /** The first `n` of the given blocks are shared, one after the other. */
  ghost function ShareAll(p: Pool, ids: seq<nat>, n: nat): (q: Pool)
    requires n <= |ids| && forall k :: 0 <= k < |ids| ==> ids[k] < |p.blocks|
    ensures |q.blocks| == |p.blocks|
  {
    if n == 0 then p else Share(ShareAll(p, ids, n - 1), ids[n - 1])
  }

  /** `n` blocks are taken from the free list, one after the other. */
  ghost function TakeAll(p: Pool, n: nat): (q: Pool)
    requires Valid(p) && n <= |p.free|
    ensures Valid(q) && |q.blocks| == |p.blocks| && |q.free| == |p.free| - n
  {
    if n == 0 then p
    else
      var before := TakeAll(p, n - 1);
      TakeValid(before);
      Take(before)
  }

  lemma {:induction false} TakeAllFree(p: Pool, n: nat)
    requires Valid(p) && n <= |p.free|
    ensures TakeAll(p, n).free == p.free[..|p.free| - n]
  {
    if n > 0 {
      TakeAllFree(p, n - 1);
    }
  }

  // --------------------------------------------------------------- releasing

  /** Number of sequences of the batch that hold the block. */
  function Mentions(batch: seq<Sequence>, b: nat): nat {
    if batch == [] then 0
    else Mentions(batch[..|batch| - 1], b) + if b in Last(batch).table then 1 else 0
  }

  function NoteTable(seen: seq<nat>, table: seq<nat>, n: nat): seq<nat>
    requires n <= |table|
  {
    if n == 0 then seen
    else
      var before, b := NoteTable(seen, table, n - 1), table[|table| - n];
      if b in before then before else before + [b]
  }

  /** The blocks of the batch in the order in which they are released: each table from its end. */
  function ReleaseOrder(batch: seq<Sequence>): seq<nat> {
    if batch == [] then []
    else NoteTable(ReleaseOrder(batch[..|batch| - 1]), Last(batch).table, |Last(batch).table|)
  }

  /** `count` holders let go of a block; without a holder it joins the end of the queue. */
  function Release(p: Pool, b: nat, count: nat): Pool
    requires b < |p.blocks| && count <= p.blocks[b].refCount
  {
    var block := p.blocks[b];
    var q := p.(blocks := p.blocks[b := block.(refCount := block.refCount - count)]);
    if block.refCount == count then q.(used := p.used - {b}, free := [b] + p.free) else q
  }

  lemma ReleaseValid(p: Pool, b: nat, count: nat)
    requires Valid(p) && b in p.used && b < |p.blocks| && count <= p.blocks[b].refCount
    ensures Valid(Release(p, b, count))
  {
    UnrepeatedIsDistinct(p.free);
    var q := Release(p, b, count);
    UnrepeatedIsDistinct(q.free);
    assert Accounted(p, b);
    forall x: nat ensures Accounted(q, x) {
      assert Accounted(p, x);
    }
  }

  /** Every table is free of repetitions, and no block is let go more often than it is held. */
  ghost predicate Releasable(p: Pool, batch: seq<Sequence>) {
    && (forall i :: 0 <= i < |batch| ==> Distinct(batch[i].table))
    && (forall b :: b in ReleaseOrder(batch) ==> b < |p.blocks| && Mentions(batch, b) <= p.blocks[b].refCount)
  }

  lemma {:induction false} NoteDistinct(seen: seq<nat>, table: seq<nat>, n: nat)
    requires n <= |table| && Distinct(seen)
    ensures Distinct(NoteTable(seen, table, n))
    ensures forall b :: b in NoteTable(seen, table, n) <==> b in seen || b in table[|table| - n..]
  {
    if n > 0 {
      NoteDistinct(seen, table, n - 1);
      assert table[|table| - n..] == [table[|table| - n]] + table[|table| - (n - 1)..];
    }
  }

  lemma {:induction false} OrderDistinct(batch: seq<Sequence>)
    ensures Distinct(ReleaseOrder(batch))
    ensures forall b :: b in ReleaseOrder(batch) <==> Mentions(batch, b) > 0
  {
    if batch != [] {
      var init, table := batch[..|batch| - 1], Last(batch).table;
      OrderDistinct(init);
      NoteDistinct(ReleaseOrder(init), table, |table|);
      assert table[0..] == table;
    }
  }

  lemma HeldIsInUse(p: Pool, batch: seq<Sequence>)
    requires Valid(p) && Releasable(p, batch)
    ensures forall b :: b in ReleaseOrder(batch) ==> b in p.used
  {
    OrderDistinct(batch);
    forall b | b in ReleaseOrder(batch) ensures b in p.used {
      assert Accounted(p, b);
    }
  }

  /** The first `n` blocks of the order are released. */
  ghost function ReleaseAll(p: Pool, batch: seq<Sequence>, n: nat): (q: Pool)
    requires Valid(p) && Releasable(p, batch) && n <= |ReleaseOrder(batch)|
    ensures Valid(q) && |q.blocks| == |p.blocks|
    ensures forall b :: b in ReleaseOrder(batch)[n..] ==> b < |q.blocks| && b in q.used && q.blocks[b] == p.blocks[b]
  {
    var order := ReleaseOrder(batch);
    OrderDistinct(batch);
    if n == 0 then
      assert order[0..] == order;
      assert forall b :: b in order ==> b in p.used by { HeldIsInUse(p, batch); }
      p
    else
      var before := ReleaseAll(p, batch, n - 1);
      assert order[n - 1] in order[n - 1..] && order[n - 1..] == [order[n - 1]] + order[n..];
      assert order[n - 1] !in order[n..];
      ReleaseValid(before, order[n - 1], Mentions(batch, order[n - 1]));
      Release(before, order[n - 1], Mentions(batch, order[n - 1]))
  }

  // --------------------------------------------------------------- appending

  function Missing(s: Sequence): int { NumBlocks(|s.tokens|) - |s.table| }

  predicate NearlyCovered(batch: seq<Sequence>) {
    forall i :: 0 <= i < |batch| ==> 0 <= Missing(batch[i]) <= 1
  }

  function MissingIn(batch: seq<Sequence>): (r: nat)
    ensures r <= |batch|
  {
    if batch == [] then 0 else MissingIn(batch[..|batch| - 1]) + if Missing(Last(batch)) == 1 then 1 else 0
  }

  /** Each sequence that lacks a block gets the next free one. */
  ghost function Appended(p: Pool, batch: seq<Sequence>): (r: seq<Sequence>)
    requires MissingIn(batch) <= |p.free|
    ensures |r| == |batch|
  {
    if batch == [] then []
    else
      var init, s := batch[..|batch| - 1], Last(batch);
      Appended(p, init) + [if Missing(s) == 1 then s.(table := s.table + [InLine(p.free, MissingIn(init))]) else s]
  }

  // ----------------------------------------------------------------- hashing

  /** The block is noted as the holder of a chain. */
  function Note(p: Pool, b: nat, hash: int, chain: seq<seq<nat>>): Pool
    requires b < |p.blocks| && chain != []
  {
    var was := p.blocks[b];
    var index := if was.hash != UNHASHED && was.hash != hash then Unindexed(p.index, was.hash, b) else p.index;
    p.(blocks := p.blocks[b := was.(hash := hash, tokens := Last(chain), chain := chain)],
       index := Indexed(index, hash, b))
  }

  function FirstNew(s: Sequence): nat { s.cached / BLOCK_SIZE }
  function FirstOpen(s: Sequence): nat { (s.cached + s.scheduled) / BLOCK_SIZE }

  predicate InPool(p: Pool, table: seq<nat>) {
    forall k :: 0 <= k < |table| ==> table[k] < |p.blocks|
  }

  /** A pool, and the hash and chain that the next block of a sequence continues. */
  datatype Trail = Trail(pool: Pool, hash: int, chain: seq<seq<nat>>)

  function TrailStart(p: Pool, table: seq<nat>, start: nat): Trail
    requires InPool(p, table) && start <= |table|
  {
    if start == 0 then Trail(p, UNHASHED, [])
    else
      var prefix := p.blocks[table[start - 1]];
      Trail(p, prefix.hash, prefix.chain)
  }

  function TrailStep(hasher: Hasher, t: Trail, b: nat, tokens: seq<nat>): (r: Trail)
    requires b < |t.pool.blocks|
    ensures |r.pool.blocks| == |t.pool.blocks|
  {
    var hash, chain := hasher(tokens, t.hash), t.chain + [tokens];
    Trail(Note(t.pool, b, hash, chain), hash, chain)
  }

  /** The blocks of the table from `start` up to `n` are noted with their tokens. */
  ghost function Hashed(p: Pool, hasher: Hasher, tokens: seq<nat>, table: seq<nat>, start: nat, n: nat): (r: Trail)
    requires InPool(p, table) && start <= n <= |table|
    ensures |r.pool.blocks| == |p.blocks|
  {
    if n == start then TrailStart(p, table, start)
    else TrailStep(hasher, Hashed(p, hasher, tokens, table, start, n - 1), table[n - 1], BlockAt(tokens, n - 1))
  }

  /** The pool once the blocks that the scheduled tokens complete are noted. */
  ghost function HashedPool(p: Pool, hasher: Hasher, s: Sequence): Pool
    requires InPool(p, s.table) && FirstOpen(s) <= |s.table|
  {
    Hashed(p, hasher, s.tokens, s.table, FirstNew(s), FirstOpen(s)).pool
  }
}
