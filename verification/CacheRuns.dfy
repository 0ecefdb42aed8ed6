/**
 Whole runs of the cache: any calls in any order, refused ones included.  In every state that can
 be reached, what a sequence would read from the cache is what it would have computed itself.
 */
module CacheRuns {
  import opened Options
  import opened Sequences
  import opened BlockPools
  import opened BlockPoolOps
  import opened PrefixCache
  import opened PrefixCacheSteps
  import opened KvContents

  /** What the caller may ask for; sequences are named by their position. */
  datatype Op =
    | Admit(tokens: seq<nat>)
    | Allocate(i: nat, n: nat)
    | Append(at: seq<nat>)
    | Schedule(i: nat, count: nat)
    | Commit(i: nat)
    | Token(i: nat, token: nat)
    | Release(at: seq<nat>)

  datatype State = State(pool: Pool, live: seq<Sequence>, store: Store)

  ghost predicate Good(hasher: Hasher, st: State) {
    Inv(st.pool, hasher, st.live) && Contents(st.store, st.pool, st.live)
  }

  /** The call is granted; a step can be committed only if its tokens exist and have blocks. */
  ghost predicate Granted(hasher: Hasher, st: State, op: Op)
    requires Good(hasher, st)
  {
    match op
    case Admit(_) => true
    case Allocate(i, n) => i < |st.live| && Allocatable(st.pool, hasher, st.live[i], n)
    case Append(at) => Chosen(st.live, at) && NearlyCovered(Picked(st.live, at)) && MissingIn(Picked(st.live, at)) <= |st.pool.free|
    case Schedule(i, _) => i < |st.live|
    case Commit(i) => i < |st.live| && Plannable(st.live[i])
    case Token(i, _) => i < |st.live|
    case Release(at) => Chosen(st.live, at) && Releasable(st.pool, Picked(st.live, at))
  }

  ghost function Replace(st: State, i: nat, s: Sequence): State
    requires i < |st.live|
  {
    st.(live := st.live[i := s])
  }

  /** The state after a call; a refused call changes nothing. */
  ghost function Next(hasher: Hasher, st: State, op: Op): State
    requires Good(hasher, st)
  {
    if !Granted(hasher, st, op) then st
    else match op
      case Admit(tokens) => st.(live := st.live + [Sequence(tokens, 0, 0, [])])
      case Allocate(i, n) =>
        Replace(st.(pool := AllocatedPool(st.pool, hasher, st.live[i], n)), i, AllocatedSequence(st.pool, hasher, st.live[i], n))
      case Append(at) => AppendNext(st, at)
      case Schedule(i, count) => Replace(st, i, st.live[i].(scheduled := count))
      case Commit(i) => CommitNext(hasher, st, i)
      case Token(i, token) => Replace(st, i, st.live[i].(tokens := st.live[i].tokens + [token]))
      case Release(at) => ReleaseNext(st, at)
  }

  ghost function AppendNext(st: State, at: seq<nat>): State
    requires Valid(st.pool) && Chosen(st.live, at) && MissingIn(Picked(st.live, at)) <= |st.pool.free|
  {
    var batch := Picked(st.live, at);
    State(TakeAll(st.pool, MissingIn(batch)), Put(st.live, at, Appended(st.pool, batch), |at|), st.store)
  }

  ghost function ReleaseNext(st: State, at: seq<nat>): State
    requires Valid(st.pool) && Chosen(st.live, at) && Releasable(st.pool, Picked(st.live, at))
  {
    var batch := Picked(st.live, at);
    State(Released(st.pool, batch), Put(st.live, at, ClearedAll(batch), |at|), st.store)
  }

  /** The scheduled tokens are written, then the blocks they complete are noted. */
  ghost function CommitNext(hasher: Hasher, st: State, i: nat): State
    requires Good(hasher, st) && i < |st.live| && Plannable(st.live[i])
  {
    var s := st.live[i];
    assert Settled(st.pool, s);
    State(HashedPool(st.pool, hasher, s), st.live[i := Committed(s)], Written(st.store, s, s.scheduled))
  }

  // --------------------------------------------------------------- every call

  /** The contents stay true when no block gains a chain and sequences stay true. */
  lemma ContentsKept(store: Store, p: Pool, q: Pool, live: seq<Sequence>, next: seq<Sequence>)
    requires Contents(store, p, live) && NoNewChains(p, q)
    requires forall j :: 0 <= j < |next| ==> CachedTrue(store, next[j])
    ensures Contents(store, q, next)
  {
    StillNoted(store, p, q);
  }

  lemma AllocateGood(hasher: Hasher, st: State, i: nat, n: nat)
    requires Good(hasher, st) && i < |st.live| && Allocatable(st.pool, hasher, st.live[i], n)
    ensures Good(hasher, Next(hasher, st, Allocate(i, n)))
  {
    var p, live := st.pool, st.live;
    var q, t := AllocatedPool(p, hasher, live[i], n), AllocatedSequence(p, hasher, live[i], n);
    var next := live[i := t];
    assert Inv(q, hasher, next) by { AllocateKeepsInv(p, hasher, live, i, n); }
    assert NoNewChains(p, q) by { AllocatedChains(p, hasher, live[i], n); }
    assert NotedTrue(st.store, q) by { StillNoted(st.store, p, q); }
    forall j | 0 <= j < |next| ensures CachedTrue(st.store, next[j]) {
      if j == i {
        assert Settled(q, next[i]);
        WholeBlocksCached(st.store, q, t);
      } else {
        assert CachedTrue(st.store, live[j]);
      }
    }
  }

  lemma AppendGood(hasher: Hasher, st: State, at: seq<nat>)
    requires Good(hasher, st) && Chosen(st.live, at) && MissingIn(Picked(st.live, at)) <= |st.pool.free|
    ensures Good(hasher, AppendNext(st, at))
  {
    var batch := Picked(st.live, at);
    var after := Appended(st.pool, batch);
    var next := Put(st.live, at, after, |at|);
    assert Inv(TakeAll(st.pool, MissingIn(batch)), hasher, next) by { AppendKeepsInv(st.pool, hasher, st.live, at); }
    TakeAllChains(st.pool, MissingIn(batch));
    PutMembers(st.live, at, after, |at|);
    assert at[..|at|] == at;
    forall j | 0 <= j < |next| ensures CachedTrue(st.store, next[j]) {
      assert CachedTrue(st.store, st.live[j]);
      if j in at {
        var k :| 0 <= k < |at| && at[k] == j;
        AppendedAt(st.pool, batch, k);
        GrownStillCached(st.store, st.live[j], after[k]);
      }
    }
    ContentsKept(st.store, st.pool, TakeAll(st.pool, MissingIn(batch)), st.live, next);
  }

  lemma ReleaseGood(hasher: Hasher, st: State, at: seq<nat>)
    requires Good(hasher, st) && Chosen(st.live, at) && Releasable(st.pool, Picked(st.live, at))
    ensures Good(hasher, ReleaseNext(st, at))
  {
    var batch := Picked(st.live, at);
    var next := Put(st.live, at, ClearedAll(batch), |at|);
    assert Inv(Released(st.pool, batch), hasher, next) by { ReleaseKeepsInv(st.pool, hasher, st.live, at); }
    ReleasedChains(st.pool, batch);
    PutMembers(st.live, at, ClearedAll(batch), |at|);
    assert at[..|at|] == at;
    forall j | 0 <= j < |next| ensures CachedTrue(st.store, next[j]) {
      assert CachedTrue(st.store, st.live[j]);
      if j in at {
        var k :| 0 <= k < |at| && at[k] == j;
        assert next[j] == Cleared(batch[k]);
      }
    }
    ContentsKept(st.store, st.pool, Released(st.pool, batch), st.live, next);
  }

  lemma ReplaceGood(hasher: Hasher, st: State, i: nat, s: Sequence)
    requires Good(hasher, st) && i < |st.live| && s.table == st.live[i].table && s.cached == st.live[i].cached
    requires st.live[i].tokens <= s.tokens && Settled(st.pool, s)
    ensures Good(hasher, Replace(st, i, s))
  {
    ReplaceKeepsInv(st.pool, hasher, st.live, i, s);
    var next := st.live[i := s];
    forall j | 0 <= j < |next| ensures CachedTrue(st.store, next[j]) {
      assert CachedTrue(st.store, st.live[j]);
      if j == i {
        GrownStillCached(st.store, st.live[i], s);
      }
    }
  }

  lemma ScheduleSettles(p: Pool, s: Sequence, count: nat)
    requires Settled(p, s)
    ensures Settled(p, s.(scheduled := count))
  {
    var t := s.(scheduled := count);
    forall k | 0 <= k < FirstNew(t) ensures HoldsPrefix(p, t, k) {
      assert HoldsPrefix(p, s, k);
    }
    forall k | FirstNew(t) <= k < |t.table| ensures Private(p, t, k) {
      assert Private(p, s, k);
    }
  }

  lemma AdmitGood(hasher: Hasher, st: State, tokens: seq<nat>)
    requires Good(hasher, st)
    ensures Good(hasher, st.(live := st.live + [Sequence(tokens, 0, 0, [])]))
  {
    AdmitKeepsInv(st.pool, hasher, st.live, tokens);
    var next := st.live + [Sequence(tokens, 0, 0, [])];
    forall j | 0 <= j < |next| ensures CachedTrue(st.store, next[j]) {
      assert j < |st.live| ==> CachedTrue(st.store, st.live[j]);
    }
  }

  lemma CommitGood(hasher: Hasher, st: State, i: nat)
    requires Good(hasher, st) && i < |st.live| && Plannable(st.live[i])
    ensures Good(hasher, CommitNext(hasher, st, i))
  {
    CommitKeepsInv(st.pool, hasher, st.live, i);
    CommitKeepsContents(st.store, st.pool, hasher, st.live, i);
  }

  /** Every call, granted or refused, keeps the state good. */
  lemma NextKeepsGood(hasher: Hasher, st: State, op: Op)
    requires Good(hasher, st)
    ensures Good(hasher, Next(hasher, st, op))
  {
    if Granted(hasher, st, op) {
      match op
      case Admit(tokens) => AdmitGood(hasher, st, tokens);
      case Allocate(i, n) => AllocateGood(hasher, st, i, n);
      case Append(at) => AppendGood(hasher, st, at);
      case Schedule(i, count) =>
        assert Settled(st.pool, st.live[i]);
        ScheduleSettles(st.pool, st.live[i], count);
        ReplaceGood(hasher, st, i, st.live[i].(scheduled := count));
      case Commit(i) => CommitGood(hasher, st, i);
      case Token(i, token) =>
        assert Settled(st.pool, st.live[i]);
        TokenSettles(st.pool, st.live[i], token);
        ReplaceGood(hasher, st, i, st.live[i].(tokens := st.live[i].tokens + [token]));
      case Release(at) => ReleaseGood(hasher, st, at);
    }
  }

  // ---------------------------------------------------------------- every run

  lemma StartGood(hasher: Hasher, numBlocks: nat)
    ensures Good(hasher, State(NewPool(numBlocks), [], map[]))
  {
    NewPoolValid(numBlocks);
  }

  /** The state after a run of calls on a new pool. */
  ghost function Reached(hasher: Hasher, numBlocks: nat, ops: seq<Op>): (st: State)
    ensures Good(hasher, st)
  {
    if ops == [] then
      StartGood(hasher, numBlocks);
      State(NewPool(numBlocks), [], map[])
    else
      var before := Reached(hasher, numBlocks, ops[..|ops| - 1]);
      NextKeepsGood(hasher, before, Last(ops));
      Next(hasher, before, Last(ops))
  }

  /**
   After any run, every position that a sequence counts as cached has a slot, and the slot holds
   the entry of exactly that sequence's tokens up to the position.
   */
  lemma CacheIsTransparent(hasher: Hasher, numBlocks: nat, ops: seq<Op>, i: nat, a: nat)
    requires var st := Reached(hasher, numBlocks, ops); i < |st.live| && a < st.live[i].cached
    ensures var st := Reached(hasher, numBlocks, ops); var s := st.live[i];
      && a < |s.tokens| && a / BLOCK_SIZE < |s.table|
      && HoldsHistory(st.store, Slot(s.table, a), s.tokens[..a + 1])
  {
    var st := Reached(hasher, numBlocks, ops);
    assert CachedTrue(st.store, st.live[i]) && CachedAt(st.store, st.live[i], a);
  }

  /** After any run the reference counts are the numbers of holders, and no block is lost. */
  lemma OwnershipIsExact(hasher: Hasher, numBlocks: nat, ops: seq<Op>, b: nat)
    ensures var st := Reached(hasher, numBlocks, ops);
      && ((b in st.pool.used || b in st.pool.free) <==> b < |st.pool.blocks|)
      && !(b in st.pool.used && b in st.pool.free)
      && (b < |st.pool.blocks| ==>
            st.pool.blocks[b].refCount == Mentions(st.live, b) && (b in st.pool.used <==> Mentions(st.live, b) > 0))
  {
    var st := Reached(hasher, numBlocks, ops);
    assert Accounted(st.pool, b);
  }

  /** After any run a block holds the next chain of a sequence if and only if the look-up finds one. */
  lemma HitsAreExact(hasher: Hasher, numBlocks: nat, ops: seq<Op>, tokens: seq<nat>, k: nat)
    ensures var p := Reached(hasher, numBlocks, ops).pool; var chain := ChainOf(tokens, k + 1);
      Lookup(p, HashOf(hasher, chain), chain).Some? <==> exists b :: 0 <= b < |p.blocks| && p.blocks[b].chain == chain
  {
    var p, chain := Reached(hasher, numBlocks, ops).pool, ChainOf(tokens, k + 1);
    var hash := HashOf(hasher, chain);
    if hash in p.index {
      SearchFinds(p, p.index[hash], hash, chain);
    }
    if b :| 0 <= b < |p.blocks| && p.blocks[b].chain == chain {
      assert GoodBlock(hasher, p.blocks[b]) && Listed(p, b);
      assert Holds(p, b, hash, chain);
    }
  }
}
