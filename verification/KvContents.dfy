/**
 What the physical cache holds.  The entry of a token depends on all tokens before it, so a slot
 is modelled by the history whose entry was written there.  Every position a sequence counts as
 cached holds its own history, whichever sequence wrote it.
 */
module KvContents {
  import opened Options
  import opened Sequences
  import opened BlockPools
  import opened BlockPoolOps
  import opened PrefixCache
  import opened PrefixCacheSteps

  // -------------------------------------------------------------------- slots

  function Slot(table: seq<nat>, a: nat): nat
    requires a / BLOCK_SIZE < |table|
  {
    table[a / BLOCK_SIZE] * BLOCK_SIZE + a % BLOCK_SIZE
  }

  /** The flat slots of a range of tokens; a position without a block maps to minus one. */
  method ComputeSlotMapping(s: Sequence, offset: nat, count: nat) returns (mapping: seq<int>)
    ensures |mapping| == count
    ensures forall i :: 0 <= i < count ==>
      mapping[i] == if (offset + i) / BLOCK_SIZE < |s.table| then Slot(s.table, offset + i) else -1
  {
    mapping := [];
    for i := 0 to count
      invariant |mapping| == i
      invariant forall k :: 0 <= k < i ==>
        mapping[k] == if (offset + k) / BLOCK_SIZE < |s.table| then Slot(s.table, offset + k) else -1
    {
      var at := offset + i;
      if at / BLOCK_SIZE < |s.table| {
        mapping := mapping + [s.table[at / BLOCK_SIZE] * BLOCK_SIZE + at % BLOCK_SIZE];
      } else {
        mapping := mapping + [-1];
      }
    }
  }

  /** A slot determines its block and the offset in it. */
  lemma SlotDecodes(x: nat, y: nat, o: nat, r: nat)
    requires o < BLOCK_SIZE && r < BLOCK_SIZE && x * BLOCK_SIZE + o == y * BLOCK_SIZE + r
    ensures x == y && o == r
  {
  }

  /** Different positions of one sequence have different slots. */
  lemma OwnSlotsDiffer(table: seq<nat>, a: nat, b: nat)
    requires Distinct(table) && a / BLOCK_SIZE < |table| && b / BLOCK_SIZE < |table| && a != b
    ensures Slot(table, a) != Slot(table, b)
  {
    if Slot(table, a) == Slot(table, b) {
      SlotDecodes(table[a / BLOCK_SIZE], table[b / BLOCK_SIZE], a % BLOCK_SIZE, b % BLOCK_SIZE);
    }
  }

  /** A position that a sequence has yet to fill shares its slot with no position of another sequence. */
  lemma WritesAreExclusive(p: Pool, hasher: Hasher, live: seq<Sequence>, i: nat, j: nat, a: nat, b: nat)
    requires Inv(p, hasher, live) && i < |live| && j < |live| && i != j
    requires live[i].cached <= a && a / BLOCK_SIZE < |live[i].table| && b / BLOCK_SIZE < |live[j].table|
    ensures Slot(live[i].table, a) != Slot(live[j].table, b)
  {
    var s, u := live[i], live[j];
    assert Settled(p, s) && Private(p, s, a / BLOCK_SIZE);
    if Slot(s.table, a) == Slot(u.table, b) {
      SlotDecodes(s.table[a / BLOCK_SIZE], u.table[b / BLOCK_SIZE], a % BLOCK_SIZE, b % BLOCK_SIZE);
      TwoHolders(live, i, j, s.table[a / BLOCK_SIZE]);
    }
  }

  // ----------------------------------------------------------------- contents

  /** Slots and the histories whose entries they hold. */
  type Store = map<nat, seq<nat>>

  ghost predicate HoldsHistory(store: Store, slot: nat, history: seq<nat>) {
    slot in store && store[slot] == history
  }

  /** The tokens of a chain, one block after the other. */
  function Flat(chain: seq<seq<nat>>): seq<nat> {
    if chain == [] then [] else Flat(chain[..|chain| - 1]) + Last(chain)
  }

  lemma {:induction false} FlatChain(tokens: seq<nat>, k: nat)
    requires k * BLOCK_SIZE <= |tokens|
    ensures Flat(ChainOf(tokens, k)) == tokens[..k * BLOCK_SIZE]
  {
    if k > 0 {
      FlatChain(tokens, k - 1);
      assert ChainOf(tokens, k)[..k - 1] == ChainOf(tokens, k - 1);
      assert Last(ChainOf(tokens, k)) == tokens[(k - 1) * BLOCK_SIZE..k * BLOCK_SIZE];
    }
  }

  /** Offset `o` of a block that is noted for a chain of `n` blocks holds the history up to there. */
  ghost predicate NotedAt(store: Store, b: nat, chain: seq<seq<nat>>, o: nat) {
    var length := (|chain| - 1) * BLOCK_SIZE + o + 1;
    0 <= length <= |Flat(chain)| && HoldsHistory(store, b * BLOCK_SIZE + o, Flat(chain)[..length])
  }

  ghost predicate NotedBlock(store: Store, b: nat, chain: seq<seq<nat>>) {
    forall o {:trigger NotedAt(store, b, chain, o)} :: 0 <= o < BLOCK_SIZE ==> NotedAt(store, b, chain, o)
  }

  /** Every block noted for a chain holds it, in use or not. */
  ghost predicate NotedTrue(store: Store, p: Pool) {
    forall b :: 0 <= b < |p.blocks| && p.blocks[b].chain != [] ==> NotedBlock(store, b, p.blocks[b].chain)
  }

  ghost predicate CachedAt(store: Store, s: Sequence, a: nat) {
    a / BLOCK_SIZE < |s.table| && a < |s.tokens| && HoldsHistory(store, Slot(s.table, a), s.tokens[..a + 1])
  }

  /** Every cached position of the sequence holds its own history. */
  ghost predicate CachedTrue(store: Store, s: Sequence) {
    forall a {:trigger CachedAt(store, s, a)} :: 0 <= a < s.cached ==> CachedAt(store, s, a)
  }

  ghost predicate Contents(store: Store, p: Pool, live: seq<Sequence>) {
    && NotedTrue(store, p)
    && (forall i {:trigger CachedTrue(store, live[i])} :: 0 <= i < |live| ==> CachedTrue(store, live[i]))
  }

  /** A block that holds a prefix of the sequence holds the histories of its positions. */
  lemma PrefixIsCached(store: Store, p: Pool, s: Sequence, a: nat)
    requires NotedTrue(store, p) && InPool(p, s.table) && a / BLOCK_SIZE < |s.table|
    requires HoldsPrefix(p, s, a / BLOCK_SIZE) && (a / BLOCK_SIZE + 1) * BLOCK_SIZE <= |s.tokens|
    ensures CachedAt(store, s, a)
  {
    var k, o := a / BLOCK_SIZE, a % BLOCK_SIZE;
    var b, chain := s.table[k], ChainOf(s.tokens, k + 1);
    assert p.blocks[b].chain == chain && NotedBlock(store, b, chain) && NotedAt(store, b, chain, o);
    assert Flat(chain)[..a + 1] == s.tokens[..a + 1] by {
      FlatChain(s.tokens, k + 1);
    }
  }

  /** If all cached positions lie in blocks that hold the prefix, they are true. */
  lemma WholeBlocksCached(store: Store, p: Pool, s: Sequence)
    requires NotedTrue(store, p) && Settled(p, s) && s.cached == FirstNew(s) * BLOCK_SIZE
    ensures CachedTrue(store, s)
  {
    forall a | 0 <= a < s.cached ensures CachedAt(store, s, a) {
      assert HoldsPrefix(p, s, a / BLOCK_SIZE);
      PrefixIsCached(store, p, s, a);
    }
  }

  // ------------------------------------------------------------ nothing written

  /** Blocks keep their chain or lose it. */
  ghost predicate NoNewChains(p: Pool, q: Pool) {
    && |q.blocks| == |p.blocks|
    && forall b :: 0 <= b < |p.blocks| ==> q.blocks[b].chain == p.blocks[b].chain || q.blocks[b].chain == []
  }

  lemma StillNoted(store: Store, p: Pool, q: Pool)
    requires NotedTrue(store, p) && NoNewChains(p, q)
    ensures NotedTrue(store, q)
  {
  }

  lemma {:induction false} TakeAllChains(p: Pool, n: nat)
    requires Valid(p) && n <= |p.free|
    ensures NoNewChains(p, TakeAll(p, n))
  {
    if n > 0 {
      TakeAllChains(p, n - 1);
    }
  }

  lemma AllocatedChains(p: Pool, hasher: Hasher, s: Sequence, n: nat)
    requires Valid(p) && Allocatable(p, hasher, s, n)
    ensures NoNewChains(p, AllocatedPool(p, hasher, s, n))
  {
    var q, m := Shared(p, hasher, s, n), NumBlocks(|s.tokens|) - n;
    assert NoNewChains(p, TakeAll(q, m)) by {
      SharedEffect(p, hasher, s, n);
      TakenChains(p, q, CachedPrefix(p, hasher, s.tokens, n), m);
    }
  }

  lemma TakenChains(p: Pool, q: Pool, ids: seq<nat>, m: nat)
    requires SharedBy(p, q, ids) && Valid(q) && m <= |q.free|
    ensures NoNewChains(p, TakeAll(q, m))
  {
    TakeAllChains(q, m);
    ChainsThrough(p, q, TakeAll(q, m), ids);
  }

  lemma ChainsThrough(p: Pool, q: Pool, r: Pool, ids: seq<nat>)
    requires SharedBy(p, q, ids) && NoNewChains(q, r)
    ensures NoNewChains(p, r)
  {
  }

  lemma ReleasedChains(p: Pool, batch: seq<Sequence>)
    requires Valid(p) && Releasable(p, batch)
    ensures NoNewChains(p, Released(p, batch))
  {
    ReleaseAllEffect(p, batch, |ReleaseOrder(batch)|);
  }

  /** A longer table or more tokens leave the cached positions alone. */
  lemma GrownStillCached(store: Store, s: Sequence, t: Sequence)
    requires CachedTrue(store, s) && t.cached == s.cached && s.table <= t.table && s.tokens <= t.tokens
    ensures CachedTrue(store, t)
  {
    forall a | 0 <= a < t.cached ensures CachedAt(store, t, a) {
      assert CachedAt(store, s, a);
      assert t.tokens[..a + 1] == s.tokens[..a + 1];
    }
  }

  // ------------------------------------------------------------------ writing

  /** The first `n` scheduled positions are written. */
  ghost function Written(store: Store, s: Sequence, n: nat): Store
    requires s.cached + n <= |s.tokens| && NumBlocks(s.cached + n) <= |s.table|
  {
    if n == 0 then store
    else
      var a := s.cached + n - 1;
      Written(store, s, n - 1)[Slot(s.table, a) := s.tokens[..a + 1]]
  }

  /** Slot `slot` is not one of those written. */
  ghost predicate Untouched(s: Sequence, n: nat, slot: nat)
    requires NumBlocks(s.cached + n) <= |s.table|
  {
    forall a :: s.cached <= a < s.cached + n ==> Slot(s.table, a) != slot
  }

  lemma {:induction false} WrittenElsewhere(store: Store, s: Sequence, n: nat, slot: nat, history: seq<nat>)
    requires s.cached + n <= |s.tokens| && NumBlocks(s.cached + n) <= |s.table|
    requires HoldsHistory(store, slot, history) && Untouched(s, n, slot)
    ensures HoldsHistory(Written(store, s, n), slot, history)
  {
    if n > 0 {
      WrittenElsewhere(store, s, n - 1, slot, history);
      assert Slot(s.table, s.cached + n - 1) != slot;
    }
  }

  lemma {:induction false} WrittenThere(store: Store, s: Sequence, n: nat, a: nat)
    requires s.cached + n <= |s.tokens| && NumBlocks(s.cached + n) <= |s.table| && Distinct(s.table)
    requires s.cached <= a < s.cached + n
    ensures HoldsHistory(Written(store, s, n), Slot(s.table, a), s.tokens[..a + 1])
  {
    if a < s.cached + n - 1 {
      WrittenThere(store, s, n - 1, a);
      OwnSlotsDiffer(s.table, a, s.cached + n - 1);
    }
  }

  /** After the step the sequence's own positions are true, old and new. */
  lemma WrittenCached(store: Store, s: Sequence)
    requires Plannable(s) && Distinct(s.table) && CachedTrue(store, s)
    ensures CachedTrue(Written(store, s, s.scheduled), Committed(s))
  {
    var after, t := Written(store, s, s.scheduled), Committed(s);
    forall a | 0 <= a < t.cached ensures CachedAt(after, t, a) {
      if a < s.cached {
        assert CachedAt(store, s, a);
        forall x | s.cached <= x < s.cached + s.scheduled ensures Slot(s.table, x) != Slot(s.table, a) {
          OwnSlotsDiffer(s.table, x, a);
        }
        WrittenElsewhere(store, s, s.scheduled, Slot(s.table, a), s.tokens[..a + 1]);
      } else {
        WrittenThere(store, s, s.scheduled, a);
      }
    }
  }

  /** No other sequence loses a cached position. */
  lemma WrittenOthers(store: Store, p: Pool, hasher: Hasher, live: seq<Sequence>, i: nat, j: nat)
    requires Inv(p, hasher, live) && i < |live| && j < |live| && i != j && Plannable(live[i])
    requires CachedTrue(store, live[j])
    ensures CachedTrue(Written(store, live[i], live[i].scheduled), live[j])
  {
    var s, u := live[i], live[j];
    forall a | 0 <= a < u.cached ensures CachedAt(Written(store, s, s.scheduled), u, a) {
      assert CachedAt(store, u, a);
      forall x | s.cached <= x < s.cached + s.scheduled ensures Slot(s.table, x) != Slot(u.table, a) {
        WritesAreExclusive(p, hasher, live, i, j, x, a);
      }
      WrittenElsewhere(store, s, s.scheduled, Slot(u.table, a), u.tokens[..a + 1]);
    }
  }

  /** No noted block is written to. */
  lemma WrittenNoted(store: Store, p: Pool, s: Sequence, b: nat)
    requires Settled(p, s) && Plannable(s) && b < |p.blocks| && p.blocks[b].chain != []
    requires NotedBlock(store, b, p.blocks[b].chain)
    ensures NotedBlock(Written(store, s, s.scheduled), b, p.blocks[b].chain)
  {
    var chain := p.blocks[b].chain;
    forall o | 0 <= o < BLOCK_SIZE ensures NotedAt(Written(store, s, s.scheduled), b, chain, o) {
      assert NotedAt(store, b, chain, o);
      forall x | s.cached <= x < s.cached + s.scheduled ensures Slot(s.table, x) != b * BLOCK_SIZE + o {
        assert Private(p, s, x / BLOCK_SIZE);
        if Slot(s.table, x) == b * BLOCK_SIZE + o {
          SlotDecodes(s.table[x / BLOCK_SIZE], b, x % BLOCK_SIZE, o);
        }
      }
      WrittenElsewhere(store, s, s.scheduled, b * BLOCK_SIZE + o, Flat(chain)[..(|chain| - 1) * BLOCK_SIZE + o + 1]);
    }
  }

  /** A block that the step completed holds the chain it is noted for. */
  lemma CompletedNoted(store: Store, t: Sequence, k: nat)
    requires CachedTrue(store, t) && k < |t.table| && (k + 1) * BLOCK_SIZE <= t.cached <= |t.tokens|
    ensures NotedBlock(store, t.table[k], ChainOf(t.tokens, k + 1))
  {
    var chain := ChainOf(t.tokens, k + 1);
    FlatChain(t.tokens, k + 1);
    forall o | 0 <= o < BLOCK_SIZE ensures NotedAt(store, t.table[k], chain, o) {
      var a := k * BLOCK_SIZE + o;
      assert a / BLOCK_SIZE == k && a % BLOCK_SIZE == o;
      assert CachedAt(store, t, a);
      assert t.tokens[..(k + 1) * BLOCK_SIZE][..a + 1] == t.tokens[..a + 1];
    }
  }

  lemma CommitNoted(store: Store, p: Pool, q: Pool, s: Sequence)
    requires Settled(p, s) && Plannable(s) && FirstOpen(s) <= |s.table| && NotedTrue(store, p)
    requires NotedBy(p, q, s.tokens, s.table, FirstNew(s), FirstOpen(s))
    requires CachedTrue(Written(store, s, s.scheduled), Committed(s))
    ensures NotedTrue(Written(store, s, s.scheduled), q)
  {
    var after := Written(store, s, s.scheduled);
    forall b | 0 <= b < |q.blocks| && q.blocks[b].chain != [] ensures NotedBlock(after, b, q.blocks[b].chain) {
      if b in s.table[FirstNew(s)..FirstOpen(s)] {
        var k :| FirstNew(s) <= k < FirstOpen(s) && s.table[k] == b;
        CompletedNoted(after, Committed(s), k);
      } else {
        WrittenNoted(store, p, s, b);
      }
    }
  }

  /** A completed step keeps the contents true: nothing that anyone relies on is overwritten. */
  lemma CommitKeepsContents(store: Store, p: Pool, hasher: Hasher, live: seq<Sequence>, i: nat)
    requires Inv(p, hasher, live) && Contents(store, p, live) && i < |live| && Plannable(live[i])
    ensures InPool(p, live[i].table)
    ensures Contents(Written(store, live[i], live[i].scheduled), HashedPool(p, hasher, live[i]), live[i := Committed(live[i])])
  {
    var s := live[i];
    assert Settled(p, s) && CachedTrue(store, s);
    WrittenCached(store, s);
    SettledResumes(p, s);
    HashedEffect(p, hasher, s.tokens, s.table, FirstNew(s), FirstOpen(s));
    CommitNoted(store, p, HashedPool(p, hasher, s), s);
    var next := live[i := Committed(s)];
    forall j | 0 <= j < |next| ensures CachedTrue(Written(store, s, s.scheduled), next[j]) {
      if j != i {
        assert CachedTrue(store, live[j]);
        WrittenOthers(store, p, hasher, live, i, j);
      }
    }
  }
}
