/**
 Releasing, appending and hashing keep the invariant of the prefix cache.
 */
module PrefixCacheSteps {
  import opened Options
  import opened Sequences
  import opened Numbers
  import opened BlockPools
  import opened BlockPoolOps
  import opened PrefixCache

  // ------------------------------------------------------- batches of sequences

  /** Positions of live sequences, each at most once. */
  ghost predicate Chosen(live: seq<Sequence>, at: seq<nat>) {
    Unrepeated(at) && forall k :: 0 <= k < |at| ==> at[k] < |live|
  }

  ghost function Picked(live: seq<Sequence>, at: seq<nat>): (r: seq<Sequence>)
    requires Chosen(live, at)
    ensures |r| == |at|
  {
    seq(|at|, k requires 0 <= k < |at| => live[at[k]])
  }

  /** The live sequences with the first `n` chosen ones replaced. */
  ghost function Put(live: seq<Sequence>, at: seq<nat>, batch: seq<Sequence>, n: nat): (r: seq<Sequence>)
    requires Chosen(live, at) && n <= |at| == |batch|
    ensures |r| == |live|
  {
    if n == 0 then live else Put(live, at, batch, n - 1)[at[n - 1] := batch[n - 1]]
  }

  lemma {:induction false} PutMembers(live: seq<Sequence>, at: seq<nat>, batch: seq<Sequence>, n: nat)
    requires Chosen(live, at) && n <= |at| == |batch|
    ensures forall j :: 0 <= j < |live| && j !in at[..n] ==> Put(live, at, batch, n)[j] == live[j]
    ensures forall k :: 0 <= k < n ==> Put(live, at, batch, n)[at[k]] == batch[k]
  {
    if n > 0 {
      PutMembers(live, at, batch, n - 1);
      UnrepeatedIsDistinct(at);
      assert at[..n] == at[..n - 1] + [at[n - 1]];
    }
  }

  // ---------------------------------------------------------------- releasing

  /** What the chosen sequences let go is what the others do not hold. */
  lemma {:induction false} MentionsSplit(live: seq<Sequence>, at: seq<nat>, n: nat, b: nat)
    requires Chosen(live, at) && n <= |at|
    ensures Mentions(Put(live, at, ClearedAll(Picked(live, at)), n), b) + Mentions(Picked(live, at)[..n], b)
         == Mentions(live, b)
  {
    var batch := Picked(live, at);
    if n == 0 {
      assert batch[..0] == [];
    } else {
      MentionsSplit(live, at, n - 1, b);
      var before := Put(live, at, ClearedAll(batch), n - 1);
      PutStep(live, at, ClearedAll(batch), n);
      MentionsUpdate(before, at[n - 1], Cleared(batch[n - 1]), b);
      MentionsStep(batch, n - 1, b);
    }
  }

  lemma PutStep(live: seq<Sequence>, at: seq<nat>, batch: seq<Sequence>, n: nat)
    requires Chosen(live, at) && 0 < n <= |at| == |batch|
    ensures Put(live, at, batch, n) == Put(live, at, batch, n - 1)[at[n - 1] := batch[n - 1]]
    ensures Put(live, at, batch, n - 1)[at[n - 1]] == live[at[n - 1]]
  {
    PutMembers(live, at, batch, n - 1);
    assert at[n - 1] !in at[..n - 1] by { UnrepeatedIsDistinct(at); }
  }

  /** The first `n` blocks of the order were let go; nothing else about the blocks changed. */
  ghost predicate LetGo(p: Pool, q: Pool, batch: seq<Sequence>, done: seq<nat>) {
    && |q.blocks| == |p.blocks| && q.index == p.index
    && (forall b :: 0 <= b < |p.blocks| ==>
          && q.blocks[b].hash == p.blocks[b].hash && q.blocks[b].tokens == p.blocks[b].tokens
          && q.blocks[b].chain == p.blocks[b].chain
          && q.blocks[b].refCount + (if b in done then Mentions(batch, b) else 0) == p.blocks[b].refCount)
  }

  lemma {:induction false} ReleaseAllEffect(p: Pool, batch: seq<Sequence>, n: nat)
    requires Valid(p) && Releasable(p, batch) && n <= |ReleaseOrder(batch)|
    ensures LetGo(p, ReleaseAll(p, batch, n), batch, ReleaseOrder(batch)[..n])
  {
    if n > 0 {
      ReleaseAllEffect(p, batch, n - 1);
      var order := ReleaseOrder(batch);
      assert order[n - 1] !in order[..n - 1] && order[n - 1] in order[n - 1..] by { OrderDistinct(batch); }
      ReleaseStep(p, ReleaseAll(p, batch, n - 1), batch, order[..n - 1], order[n - 1]);
      assert order[..n] == order[..n - 1] + [order[n - 1]];
    }
  }

  lemma ReleaseStep(p: Pool, before: Pool, batch: seq<Sequence>, done: seq<nat>, b: nat)
    requires LetGo(p, before, batch, done) && b !in done && b < |p.blocks| && Mentions(batch, b) <= before.blocks[b].refCount
    ensures LetGo(p, Release(before, b, Mentions(batch, b)), batch, done + [b])
  {
  }

  lemma {:induction false} MentionsPositive(batch: seq<Sequence>, b: nat)
    requires Mentions(batch, b) > 0
    ensures exists k :: 0 <= k < |batch| && b in batch[k].table
  {
    if b !in Last(batch).table {
      MentionsPositive(batch[..|batch| - 1], b);
      var k :| 0 <= k < |batch| - 1 && b in batch[..|batch| - 1][k].table;
      assert b in batch[k].table;
    }
  }

  /** Live sequences can always be released. */
  lemma LiveReleasable(p: Pool, hasher: Hasher, live: seq<Sequence>, at: seq<nat>)
    requires Inv(p, hasher, live) && Chosen(live, at)
    ensures Releasable(p, Picked(live, at))
  {
    var batch := Picked(live, at);
    forall k | 0 <= k < |batch| ensures Distinct(batch[k].table) {
      assert Settled(p, live[at[k]]);
    }
    OrderDistinct(batch);
    forall b | b in ReleaseOrder(batch) ensures b < |p.blocks| && Mentions(batch, b) <= p.blocks[b].refCount {
      MentionsPositive(batch, b);
      var k :| 0 <= k < |batch| && b in batch[k].table;
      assert Settled(p, live[at[k]]);
      MentionsSplit(live, at, |at|, b);
      assert batch[..|at|] == batch;
    }
  }

  ghost function Released(p: Pool, batch: seq<Sequence>): Pool
    requires Valid(p) && Releasable(p, batch)
  {
    ReleaseAll(p, batch, |ReleaseOrder(batch)|)
  }

  lemma ReleasedKnown(p: Pool, q: Pool, hasher: Hasher, batch: seq<Sequence>, done: seq<nat>)
    requires Known(p, hasher) && LetGo(p, q, batch, done)
    ensures Known(q, hasher)
  {
    forall b | 0 <= b < |q.blocks| ensures GoodBlock(hasher, q.blocks[b]) && (q.blocks[b].chain != [] ==> Listed(q, b)) {
      assert GoodBlock(hasher, p.blocks[b]) && (p.blocks[b].chain != [] ==> Listed(p, b));
    }
  }

  /** After a release the counts are those of the remaining holders. */
  lemma ReleasedCount(p: Pool, live: seq<Sequence>, at: seq<nat>, b: nat)
    requires Valid(p) && Owned(p, live) && Chosen(live, at) && Releasable(p, Picked(live, at)) && b < |p.blocks|
    ensures var batch := Picked(live, at);
      && |Released(p, batch).blocks| == |p.blocks|
      && Released(p, batch).blocks[b].refCount == Mentions(Put(live, at, ClearedAll(batch), |at|), b)
      && Released(p, batch).blocks[b].refCount + Mentions(batch, b) == p.blocks[b].refCount
  {
    var batch := Picked(live, at);
    var order := ReleaseOrder(batch);
    ReleaseAllEffect(p, batch, |order|);
    OrderDistinct(batch);
    assert order[..|order|] == order;
    MentionsSplit(live, at, |at|, b);
    assert batch[..|at|] == batch;
  }

  lemma ReleasedSettles(p: Pool, hasher: Hasher, live: seq<Sequence>, at: seq<nat>, j: nat)
    requires Inv(p, hasher, live) && Chosen(live, at) && Releasable(p, Picked(live, at)) && j < |live| && j !in at
    ensures Settled(Released(p, Picked(live, at)), live[j])
  {
    var batch, s := Picked(live, at), live[j];
    var q := Released(p, batch);
    ReleaseAllEffect(p, batch, |ReleaseOrder(batch)|);
    assert Settled(p, s);
    forall k | 0 <= k < FirstNew(s) ensures HoldsPrefix(q, s, k) {
      assert HoldsPrefix(p, s, k);
    }
    forall k | FirstNew(s) <= k < |s.table| ensures Private(q, s, k) {
      assert Private(p, s, k);
      var b := s.table[k];
      ReleasedCount(p, live, at, b);
      PutMembers(live, at, ClearedAll(batch), |at|);
      assert at[..|at|] == at;
      MentionsHolder(Put(live, at, ClearedAll(batch), |at|), j, b);
    }
  }

  /** Releasing any live sequences, as one transaction. */
  lemma ReleaseKeepsInv(p: Pool, hasher: Hasher, live: seq<Sequence>, at: seq<nat>)
    requires Inv(p, hasher, live) && Chosen(live, at) && Releasable(p, Picked(live, at))
    ensures var batch := Picked(live, at); Inv(Released(p, batch), hasher, Put(live, at, ClearedAll(batch), |at|))
  {
    var batch := Picked(live, at);
    var q, next := Released(p, batch), Put(live, at, ClearedAll(batch), |at|);
    ReleaseAllEffect(p, batch, |ReleaseOrder(batch)|);
    ReleasedKnown(p, q, hasher, batch, ReleaseOrder(batch)[..|ReleaseOrder(batch)|]);
    forall b | 0 <= b < |q.blocks| ensures q.blocks[b].refCount == Mentions(next, b) {
      ReleasedCount(p, live, at, b);
    }
    PutMembers(live, at, ClearedAll(batch), |at|);
    forall j | 0 <= j < |next| ensures Settled(q, next[j]) {
      if j in at {
        var k :| 0 <= k < |at| && at[k] == j;
        assert next[j] == ClearedAll(batch)[k] == Cleared(batch[k]);
      } else {
        assert at[..|at|] == at;
        ReleasedSettles(p, hasher, live, at, j);
      }
    }
  }

  // ---------------------------------------------------------------- appending

  lemma {:induction false} AppendedAt(p: Pool, batch: seq<Sequence>, k: nat)
    requires MissingIn(batch) <= |p.free| && k < |batch|
    ensures MissingIn(batch[..k]) <= |p.free|
    ensures Missing(batch[k]) == 1 ==> MissingIn(batch[..k]) < |p.free|
    ensures MissingIn(batch[..k + 1]) == MissingIn(batch[..k]) + if Missing(batch[k]) == 1 then 1 else 0
    ensures Appended(p, batch)[k] == if Missing(batch[k]) == 1
      then batch[k].(table := batch[k].table + [InLine(p.free, MissingIn(batch[..k]))]) else batch[k]
    decreases |batch|
  {
    var init := batch[..|batch| - 1];
    if k < |init| {
      AppendedAt(p, init, k);
      assert init[..k] == batch[..k] && init[..k + 1] == batch[..k + 1];
    } else {
      assert batch[..k] == init && batch[..k + 1] == batch;
    }
  }

  /** The invariant, with the first `n` sequences of the batch served. */
  ghost predicate Served(p: Pool, hasher: Hasher, live: seq<Sequence>, at: seq<nat>, n: nat)
    requires Valid(p) && Chosen(live, at) && n <= |at| && MissingIn(Picked(live, at)) <= |p.free|
  {
    var batch := Picked(live, at);
    MissingIn(batch[..n]) <= |p.free| && Inv(TakeAll(p, MissingIn(batch[..n])), hasher, Put(live, at, Appended(p, batch), n))
  }

  lemma {:induction false} AppendPrefix(p: Pool, hasher: Hasher, live: seq<Sequence>, at: seq<nat>, n: nat)
    requires Inv(p, hasher, live) && Chosen(live, at) && n <= |at| && MissingIn(Picked(live, at)) <= |p.free|
    ensures Served(p, hasher, live, at, n)
  {
    if n == 0 {
      assert Picked(live, at)[..0] == [];
    } else {
      AppendPrefix(p, hasher, live, at, n - 1);
      ServeNext(p, hasher, live, at, n);
    }
  }

  lemma ServeNext(p: Pool, hasher: Hasher, live: seq<Sequence>, at: seq<nat>, n: nat)
    requires Valid(p) && Chosen(live, at) && 0 < n <= |at| && MissingIn(Picked(live, at)) <= |p.free|
    requires Served(p, hasher, live, at, n - 1)
    ensures Served(p, hasher, live, at, n)
  {
    var batch := Picked(live, at);
    var before, s := ServedShape(p, live, at, n);
    AppendOne(p, hasher, before, at[n - 1], MissingIn(batch[..n - 1]), s);
  }

  /** Serving the `n`-th sequence of the batch changes that one only. */
  lemma ServedShape(p: Pool, live: seq<Sequence>, at: seq<nat>, n: nat) returns (before: seq<Sequence>, s: Sequence)
    requires Chosen(live, at) && 0 < n <= |at| && MissingIn(Picked(live, at)) <= |p.free|
    ensures var batch := Picked(live, at); var m, i := MissingIn(batch[..n - 1]), at[n - 1];
      && i < |before| && before == Put(live, at, Appended(p, batch), n - 1)
      && Put(live, at, Appended(p, batch), n) == before[i := s]
      && (Missing(before[i]) == 1 ==> m < |p.free|)
      && MissingIn(batch[..n]) == m + (if Missing(before[i]) == 1 then 1 else 0) <= |p.free|
      && s == if Missing(before[i]) == 1 then before[i].(table := before[i].table + [InLine(p.free, m)]) else before[i]
  {
    var batch := Picked(live, at);
    before, s := Put(live, at, Appended(p, batch), n - 1), Appended(p, batch)[n - 1];
    PutStep(live, at, Appended(p, batch), n);
    AppendedAt(p, batch, n - 1);
  }

  /** The next sequence of the batch, after `m` blocks went to those before it. */
  lemma AppendOne(p: Pool, hasher: Hasher, live: seq<Sequence>, i: nat, m: nat, s: Sequence)
    requires Valid(p) && m <= |p.free| && Inv(TakeAll(p, m), hasher, live) && i < |live|
    requires Missing(live[i]) == 1 ==> m < |p.free|
    requires s == if Missing(live[i]) == 1 then live[i].(table := live[i].table + [InLine(p.free, m)]) else live[i]
    ensures Inv(TakeAll(p, m + if Missing(live[i]) == 1 then 1 else 0), hasher, live[i := s])
  {
    assert live[i := live[i]] == live;
    if Missing(live[i]) == 1 {
      TakeAllFree(p, m);
      assert Last(TakeAll(p, m).free) == InLine(p.free, m);
      TakeKeepsInv(TakeAll(p, m), hasher, live, i);
    }
  }

  /** Appending blocks to any live sequences, as one transaction. */
  lemma AppendKeepsInv(p: Pool, hasher: Hasher, live: seq<Sequence>, at: seq<nat>)
    requires Inv(p, hasher, live) && Chosen(live, at) && MissingIn(Picked(live, at)) <= |p.free|
    ensures var batch := Picked(live, at);
      Inv(TakeAll(p, MissingIn(batch)), hasher, Put(live, at, Appended(p, batch), |at|))
  {
    AppendPrefix(p, hasher, live, at, |at|);
    assert Picked(live, at)[..|at|] == Picked(live, at);
  }

  // ------------------------------------------------------------------ hashing

  lemma IndexedKeeps(index: map<int, seq<nat>>, hash: int, b: nat, h: int, x: nat)
    requires (x == b && h == hash) || (h in index && x in index[h])
    ensures var next := Indexed(index, hash, b); h in next && x in next[h]
  {
    WithoutMembers(if hash in index then index[hash] else [], b);
  }

  /** Noting a chain of full blocks in a block that held none. */
  lemma NoteKnown(p: Pool, hasher: Hasher, b: nat, hash: int, chain: seq<seq<nat>>)
    requires Known(p, hasher) && b < |p.blocks| && p.blocks[b].chain == []
    requires chain != [] && hash == HashOf(hasher, chain) && forall j :: 0 <= j < |chain| ==> |chain[j]| == BLOCK_SIZE
    ensures Known(Note(p, b, hash, chain), hasher)
  {
    assert GoodBlock(hasher, p.blocks[b]);
    var q := Note(p, b, hash, chain);
    forall x | 0 <= x < |q.blocks| && q.blocks[x].chain != [] ensures Listed(q, x) {
      assert x != b ==> Listed(p, x);
      IndexedKeeps(p.index, hash, b, q.blocks[x].hash, x);
    }
  }

  /** The pool with some blocks noted: counts and free list are as before. */
  ghost predicate SameOwnership(p: Pool, q: Pool) {
    && |q.blocks| == |p.blocks| && q.free == p.free && q.used == p.used
    && forall b :: 0 <= b < |p.blocks| ==> q.blocks[b].refCount == p.blocks[b].refCount
  }

  /** Blocks `start` up to `n` of the table hold the tokens up to them; the others are as before. */
  ghost predicate NotedBy(p: Pool, q: Pool, tokens: seq<nat>, table: seq<nat>, start: nat, n: nat)
    requires InPool(p, table) && start <= n <= |table|
  {
    && SameOwnership(p, q)
    && (forall k :: start <= k < n ==> q.blocks[table[k]].chain == ChainOf(tokens, k + 1))
    && (forall b :: 0 <= b < |p.blocks| && b !in table[start..n] ==> q.blocks[b] == p.blocks[b])
  }

  /** Where hashing may start: the block before holds the prefix, and the blocks from there on hold none. */
  ghost predicate Resumable(p: Pool, tokens: seq<nat>, table: seq<nat>, start: nat) {
    && InPool(p, table) && Distinct(table) && start <= |table|
    && (start > 0 ==> p.blocks[table[start - 1]].chain == ChainOf(tokens, start))
    && (forall k :: start <= k < |table| ==> p.blocks[table[k]].chain == [])
  }

  lemma {:induction false} HashedEffect(p: Pool, hasher: Hasher, tokens: seq<nat>, table: seq<nat>, start: nat, n: nat)
    requires Known(p, hasher) && Resumable(p, tokens, table, start) && start <= n <= |table| && n * BLOCK_SIZE <= |tokens|
    ensures var t := Hashed(p, hasher, tokens, table, start, n);
      && t.chain == ChainOf(tokens, n) && t.hash == HashOf(hasher, t.chain)
      && NotedBy(p, t.pool, tokens, table, start, n) && Known(t.pool, hasher)
  {
    if n == start {
      HashedStart(p, hasher, tokens, table, start);
      if start > 0 {
        assert GoodBlock(hasher, p.blocks[table[start - 1]]);
      }
    } else {
      HashedEffect(p, hasher, tokens, table, start, n - 1);
      HashedNext(p, Hashed(p, hasher, tokens, table, start, n - 1), hasher, tokens, table, start, n);
    }
  }

  lemma HashedNext(p: Pool, t: Trail, hasher: Hasher, tokens: seq<nat>, table: seq<nat>, start: nat, n: nat)
    requires Resumable(p, tokens, table, start) && start < n <= |table| && n * BLOCK_SIZE <= |tokens|
    requires t.chain == ChainOf(tokens, n - 1) && t.hash == HashOf(hasher, t.chain)
    requires NotedBy(p, t.pool, tokens, table, start, n - 1) && Known(t.pool, hasher)
    ensures var r := TrailStep(hasher, t, table[n - 1], BlockAt(tokens, n - 1));
      && r.chain == ChainOf(tokens, n) && r.hash == HashOf(hasher, r.chain)
      && NotedBy(p, r.pool, tokens, table, start, n) && Known(r.pool, hasher)
  {
    var b, chain := table[n - 1], ChainOf(tokens, n);
    ChainStep(hasher, tokens, n - 1);
    assert b !in table[start..n - 1];
    assert t.pool.blocks[b] == p.blocks[b];
    NoteKnown(t.pool, hasher, b, HashOf(hasher, chain), chain) by {
      forall j | 0 <= j < n ensures |chain[j]| == BLOCK_SIZE {
        assert (j + 1) * BLOCK_SIZE <= n * BLOCK_SIZE;
      }
    }
    NotedNext(p, t.pool, tokens, table, start, n, HashOf(hasher, chain));
  }

  lemma NotedNext(p: Pool, q: Pool, tokens: seq<nat>, table: seq<nat>, start: nat, n: nat, hash: int)
    requires InPool(p, table) && Distinct(table) && start < n <= |table| && NotedBy(p, q, tokens, table, start, n - 1)
    ensures NotedBy(p, Note(q, table[n - 1], hash, ChainOf(tokens, n)), tokens, table, start, n)
  {
    assert table[start..n] == table[start..n - 1] + [table[n - 1]];
  }

  function Committed(s: Sequence): Sequence { s.(cached := s.cached + s.scheduled, scheduled := 0) }

  /** The scheduled tokens exist and have blocks. */
  predicate Plannable(s: Sequence) {
    s.cached + s.scheduled <= |s.tokens| && NumBlocks(s.cached + s.scheduled) <= |s.table|
  }

  lemma CommittedSettles(p: Pool, q: Pool, s: Sequence)
    requires Settled(p, s) && Plannable(s) && FirstOpen(s) <= |s.table|
    requires NotedBy(p, q, s.tokens, s.table, FirstNew(s), FirstOpen(s))
    ensures Settled(q, Committed(s))
  {
    var t := Committed(s);
    assert FirstNew(t) == FirstOpen(s);
    forall k | 0 <= k < FirstNew(t) ensures HoldsPrefix(q, t, k) {
      if k < FirstNew(s) {
        assert HoldsPrefix(p, s, k);
        assert s.table[k] !in s.table[FirstNew(s)..FirstOpen(s)];
      }
    }
    forall k | FirstNew(t) <= k < |t.table| ensures Private(q, t, k) {
      assert Private(p, s, k);
      assert s.table[k] !in s.table[FirstNew(s)..FirstOpen(s)];
    }
  }

  /** The blocks a sequence notes are its own, so no other sequence sees a change. */
  lemma OthersSettle(p: Pool, q: Pool, hasher: Hasher, live: seq<Sequence>, i: nat, j: nat)
    requires Inv(p, hasher, live) && i < |live| && j < |live| && i != j && FirstOpen(live[i]) <= |live[i].table|
    requires InPool(p, live[i].table) && NotedBy(p, q, live[i].tokens, live[i].table, FirstNew(live[i]), FirstOpen(live[i]))
    ensures Settled(q, live[j])
  {
    var s, u := live[i], live[j];
    assert Settled(p, s) && Settled(p, u);
    forall k | 0 <= k < |u.table| ensures q.blocks[u.table[k]] == p.blocks[u.table[k]] {
      var b := u.table[k];
      if b in s.table[FirstNew(s)..FirstOpen(s)] {
        var m :| FirstNew(s) <= m < FirstOpen(s) && s.table[m] == b;
        assert Private(p, s, m);
        TwoHolders(live, i, j, b);
      }
    }
    forall k | 0 <= k < FirstNew(u) ensures HoldsPrefix(q, u, k) {
      assert HoldsPrefix(p, u, k);
    }
    forall k | FirstNew(u) <= k < |u.table| ensures Private(q, u, k) {
      assert Private(p, u, k);
    }
  }

  /** A completed step: the blocks it filled are noted, and its tokens count as cached. */
  lemma CommitKeepsInv(p: Pool, hasher: Hasher, live: seq<Sequence>, i: nat)
    requires Inv(p, hasher, live) && i < |live| && Plannable(live[i])
    ensures InPool(p, live[i].table)
    ensures Inv(HashedPool(p, hasher, live[i]), hasher, live[i := Committed(live[i])])
  {
    var s := live[i];
    assert Settled(p, s);
    SettledResumes(p, s);
    HashedEffect(p, hasher, s.tokens, s.table, FirstNew(s), FirstOpen(s));
    var q, next := HashedPool(p, hasher, s), live[i := Committed(s)];
    CommitOwned(p, q, live, i);
    forall j | 0 <= j < |next| ensures Settled(q, next[j]) {
      if j == i {
        CommittedSettles(p, q, s);
      } else {
        OthersSettle(p, q, hasher, live, i, j);
      }
    }
  }

  lemma SettledResumes(p: Pool, s: Sequence)
    requires Settled(p, s)
    ensures Resumable(p, s.tokens, s.table, FirstNew(s))
  {
    if FirstNew(s) > 0 {
      assert HoldsPrefix(p, s, FirstNew(s) - 1);
    }
    forall k | FirstNew(s) <= k < |s.table| ensures p.blocks[s.table[k]].chain == [] {
      assert Private(p, s, k);
    }
  }

  lemma CommitOwned(p: Pool, q: Pool, live: seq<Sequence>, i: nat)
    requires Valid(p) && Owned(p, live) && SameOwnership(p, q) && i < |live|
    ensures Valid(q) && Owned(q, live[i := Committed(live[i])])
  {
    forall b: nat ensures Accounted(q, b) {
      assert Accounted(p, b);
    }
    forall b | 0 <= b < |q.blocks| ensures q.blocks[b].refCount == Mentions(live[i := Committed(live[i])], b) {
      MentionsUpdate(live, i, Committed(live[i]), b);
    }
  }

  // ----------------------------------------------------- what the caller does

  lemma ChainGrows(tokens: seq<nat>, token: nat, k: nat)
    requires k * BLOCK_SIZE <= |tokens|
    ensures ChainOf(tokens + [token], k) == ChainOf(tokens, k)
  {
    forall i | 0 <= i < k ensures BlockAt(tokens + [token], i) == BlockAt(tokens, i) {
      assert (i + 1) * BLOCK_SIZE <= k * BLOCK_SIZE;
    }
  }

  lemma TokenSettles(p: Pool, s: Sequence, token: nat)
    requires Settled(p, s)
    ensures Settled(p, s.(tokens := s.tokens + [token]))
  {
    var t := s.(tokens := s.tokens + [token]);
    forall k | 0 <= k < FirstNew(t) ensures HoldsPrefix(p, t, k) {
      assert HoldsPrefix(p, s, k);
      assert (k + 1) * BLOCK_SIZE <= |s.tokens|;
      ChainGrows(s.tokens, token, k + 1);
    }
    forall k | FirstNew(t) <= k < |t.table| ensures Private(p, t, k) {
      assert Private(p, s, k);
    }
  }

  /** Replacing a sequence by a settled one with the same blocks. */
  lemma ReplaceKeepsInv(p: Pool, hasher: Hasher, live: seq<Sequence>, i: nat, s: Sequence)
    requires Inv(p, hasher, live) && i < |live| && s.table == live[i].table && Settled(p, s)
    ensures Inv(p, hasher, live[i := s])
  {
    var next := live[i := s];
    forall b | 0 <= b < |p.blocks| ensures p.blocks[b].refCount == Mentions(next, b) {
      MentionsUpdate(live, i, s, b);
    }
    forall j | 0 <= j < |next| ensures Settled(p, next[j]) {
      assert Settled(p, live[j]);
    }
  }

  lemma AdmitKeepsInv(p: Pool, hasher: Hasher, live: seq<Sequence>, tokens: seq<nat>)
    requires Inv(p, hasher, live)
    ensures Inv(p, hasher, live + [Sequence(tokens, 0, 0, [])])
  {
    var s := Sequence(tokens, 0, 0, []);
    var next := live + [s];
    assert next[..|live|] == live;
    forall j | 0 <= j < |next| ensures Settled(p, next[j]) {
      assert j < |live| ==> Settled(p, live[j]);
    }
  }
}
