/**
 Whole capture runs: when a refused batch keeps the artifact from being published.
 */
module CaptureRefusals {
  import opened Options
  import opened Sequences
  import opened CaptureWire
  import opened CaptureValidators
  import opened CaptureEquivalence
  import opened CaptureSessions

  /** What a bound session remembers between batches. */
  datatype Ledger = Ledger(recorded: seq<HostRow>, vocab: Option<nat>, failed: bool)

  ghost predicate Faulty(ids: seq<nat>, l: Ledger, rows: seq<HostRow>) {
    !l.failed && StopsAtFault(ids, l.recorded, l.vocab, rows)
  }

  ghost predicate Stray(ids: seq<nat>, l: Ledger, rows: seq<HostRow>) {
    !l.failed && StopsAtUnknown(ids, l.recorded, l.vocab, rows)
  }

  ghost predicate OfferedUpTo(ids: seq<nat>, l: Ledger, rows: seq<HostRow>, next: Ledger, k: nat) {
    && k <= |rows| && StopsAfter(ids, l.recorded, l.vocab, rows, k)
    && next == Ledger(Taken(l.recorded, rows, k), WidthAfter(l.vocab, rows, k), Faulty(ids, l, rows))
  }

  /** `next` is what remains after the batch was offered. */
  ghost predicate Offered(ids: seq<nat>, l: Ledger, rows: seq<HostRow>, next: Ledger) {
    if l.failed then next == l else exists k: nat :: OfferedUpTo(ids, l, rows, next, k)
  }

  ghost predicate StepAt(ids: seq<nat>, batches: seq<seq<HostRow>>, ls: seq<Ledger>, b: nat)
    requires b < |batches| < |ls|
  {
    Offered(ids, ls[b], batches[b], ls[b + 1])
  }

  /** The ledgers of a session bound to `ids` while it is offered the batches one by one. */
  ghost predicate IsRun(ids: seq<nat>, batches: seq<seq<HostRow>>, ls: seq<Ledger>) {
    && |ls| == |batches| + 1 && ls[0] == Ledger([], None, false)
    && (forall b {:trigger StepAt(ids, batches, ls, b)} :: 0 <= b < |batches| ==> StepAt(ids, batches, ls, b))
  }

  /** One of the first `n` batches met a fault. */
  ghost predicate SomeFault(ids: seq<nat>, batches: seq<seq<HostRow>>, ls: seq<Ledger>, n: nat)
    requires n <= |batches| && n < |ls|
  {
    n > 0 && (SomeFault(ids, batches, ls, n - 1) || Faulty(ids, ls[n - 1], batches[n - 1]))
  }

  /** One of the first `n` batches was refused at a stray row. */
  ghost predicate SomeStray(ids: seq<nat>, batches: seq<seq<HostRow>>, ls: seq<Ledger>, n: nat)
    requires n <= |batches| && n < |ls|
  {
    n > 0 && (SomeStray(ids, batches, ls, n - 1) || Stray(ids, ls[n - 1], batches[n - 1]))
  }

  lemma OfferedFails(ids: seq<nat>, l: Ledger, rows: seq<HostRow>, next: Ledger)
    requires Offered(ids, l, rows, next)
    ensures next.failed <==> l.failed || Faulty(ids, l, rows)
  {
  }

  /** Only a fault marks the session failed, and it stays so. */
  lemma {:induction false} FailedExactly(ids: seq<nat>, batches: seq<seq<HostRow>>, ls: seq<Ledger>, n: nat)
    requires IsRun(ids, batches, ls) && n <= |batches|
    ensures ls[n].failed <==> SomeFault(ids, batches, ls, n)
  {
    if n > 0 {
      FailedExactly(ids, batches, ls, n - 1);
      OfferedFails(ids, ls[n - 1], batches[n - 1], ls[n]) by {
        assert StepAt(ids, batches, ls, n - 1);
      }
    }
  }

  /** Where an unfaulty batch stops decides what is recorded and noted. */
  lemma StopWidth(ids: seq<nat>, before: seq<HostRow>, vocab: Option<nat>, rows: seq<HostRow>, k: nat)
    requires k <= |rows| && StopsAfter(ids, before, vocab, rows, k) && !StopsAtFault(ids, before, vocab, rows)
    ensures StopsAtUnknown(ids, before, vocab, rows) <==> k < |rows|
    ensures WidthAfter(vocab, rows, k) == vocab || WidthAfter(vocab, rows, k).Some?
    ensures WidthAfter(vocab, rows, k).Some? <==> vocab.Some? || k > 0 || k < |rows|
    ensures Taken(before, rows, k) == [] <==> before == [] && k == 0
  {
    StopDecides(ids, before, vocab, rows, k);
  }

  lemma OfferedWidth(ids: seq<nat>, l: Ledger, rows: seq<HostRow>, next: Ledger, k: nat, seen: bool)
    requires !l.failed && OfferedUpTo(ids, l, rows, next, k) && !next.failed
    requires l.vocab.Some? <==> l.recorded != [] || seen
    ensures next.vocab.Some? <==> next.recorded != [] || seen || Stray(ids, l, rows)
  {
    StopWidth(ids, l.recorded, l.vocab, rows, k);
  }

  /** In an unfailed session a width was noted exactly if a row was recorded or a stray one was seen. */
  ghost predicate WidthNoted(l: Ledger, stray: bool) {
    !l.failed ==> (l.vocab.Some? <==> l.recorded != [] || stray)
  }

  lemma {:induction false} WidthExactly(ids: seq<nat>, batches: seq<seq<HostRow>>, ls: seq<Ledger>, n: nat)
    requires IsRun(ids, batches, ls) && n <= |batches|
    ensures WidthNoted(ls[n], SomeStray(ids, batches, ls, n))
  {
    if n > 0 {
      var l, rows, next := ls[n - 1], batches[n - 1], ls[n];
      assert Offered(ids, l, rows, next) by {
        assert StepAt(ids, batches, ls, n - 1);
      }
      WidthExactly(ids, batches, ls, n - 1);
      WidthStep(ids, l, rows, next, SomeStray(ids, batches, ls, n - 1));
    }
  }

  lemma WidthStep(ids: seq<nat>, l: Ledger, rows: seq<HostRow>, next: Ledger, seen: bool)
    requires Offered(ids, l, rows, next) && WidthNoted(l, seen)
    ensures WidthNoted(next, seen || Stray(ids, l, rows))
  {
    if !next.failed && !l.failed {
      var k: nat :| OfferedUpTo(ids, l, rows, next, k);
      OfferedWidth(ids, l, rows, next, k, seen);
    }
  }

  /** Once a width is noted, a batch that begins with a stray row changes nothing at all. */
  lemma StrayIsHarmless(ids: seq<nat>, l: Ledger, rows: seq<HostRow>)
    requires !l.failed && l.vocab.Some? && rows != [] && IsUnknown(ids, l.vocab, rows[0])
    ensures Stray(ids, l, rows) && Offered(ids, l, rows, l)
  {
    assert FirstMisfit(ids, l.recorded, l.vocab, rows, 0);
    StopDecides(ids, l.recorded, l.vocab, rows, 0);
    TakenAll(l.recorded, rows);
    assert OfferedUpTo(ids, l, rows, l, 0);
  }

  function Spooled(ids: seq<nat>, recorded: seq<HostRow>): seq<seq<Step>> {
    seq(|ids|, i requires 0 <= i < |ids| => Demux(recorded, ids[i]))
  }

  /**
   No batch of the run met a fault; a stray row was refused only if some row was recorded; and
   the outputs carry what was recorded.
   */
  ghost predicate Publishable(ids: seq<nat>, batches: seq<seq<HostRow>>, ls: seq<Ledger>, outputs: seq<Output>)
    requires IsRun(ids, batches, ls)
  {
    var n := |batches|;
    && !SomeFault(ids, batches, ls, n)
    && (SomeStray(ids, batches, ls, n) ==> ls[n].recorded != [])
    && Produced(ids, Spooled(ids, ls[n].recorded), outputs)
  }

  method OfferAll(session: CaptureSession, batches: seq<seq<HostRow>>) returns (ghost ls: seq<Ledger>)
    requires session.Valid() && session.recorded == [] && session.vocab == None && !session.failed
    modifies session
    ensures session.Valid() && session.ids == old(session.ids) && IsRun(session.ids, batches, ls)
    ensures ls[|batches|] == Ledger(session.recorded, session.vocab, session.failed)
  {
    ls := [Ledger([], None, false)];
    for b := 0 to |batches|
      invariant session.Valid() && session.ids == old(session.ids)
      invariant |ls| == b + 1 && ls[0] == Ledger([], None, false)
      invariant ls[b] == Ledger(session.recorded, session.vocab, session.failed)
      invariant forall c :: 0 <= c < b ==> Offered(session.ids, ls[c], batches[c], ls[c + 1])
    {
      ghost var before := ls[b];
      var outcome, taken := session.RecordHostRows(batches[b]);
      ghost var after := Ledger(session.recorded, session.vocab, session.failed);
      assert !before.failed ==> OfferedUpTo(session.ids, before, batches[b], after, taken);
      assert Offered(session.ids, before, batches[b], after);
      ls := ls + [after];
    }
  }

  lemma StopUnique(ids: seq<nat>, before: seq<HostRow>, vocab: Option<nat>, rows: seq<HostRow>, j: nat, k: nat)
    requires StopsAfter(ids, before, vocab, rows, j) && StopsAfter(ids, before, vocab, rows, k)
    ensures j == k
  {
  }

  lemma OfferedUnique(ids: seq<nat>, l: Ledger, rows: seq<HostRow>, x: Ledger, y: Ledger)
    requires Offered(ids, l, rows, x) && Offered(ids, l, rows, y)
    ensures x == y
  {
    if !l.failed {
      var j: nat :| OfferedUpTo(ids, l, rows, x, j);
      var k: nat :| OfferedUpTo(ids, l, rows, y, k);
      StopUnique(ids, l.recorded, l.vocab, rows, j, k);
    }
  }

  /** The batches determine the run. */
  lemma {:induction false} RunUnique(ids: seq<nat>, batches: seq<seq<HostRow>>, xs: seq<Ledger>, ys: seq<Ledger>, n: nat)
    requires IsRun(ids, batches, xs) && IsRun(ids, batches, ys) && n <= |batches|
    ensures xs[n] == ys[n]
  {
    if n > 0 {
      RunUnique(ids, batches, xs, ys, n - 1);
      OfferedUnique(ids, xs[n - 1], batches[n - 1], xs[n], ys[n]) by {
        assert StepAt(ids, batches, xs, n - 1) && StepAt(ids, batches, ys, n - 1);
      }
    }
  }

  lemma RunsEqual(ids: seq<nat>, batches: seq<seq<HostRow>>, xs: seq<Ledger>, ys: seq<Ledger>)
    requires IsRun(ids, batches, xs) && IsRun(ids, batches, ys)
    ensures xs == ys
  {
    forall n | 0 <= n < |xs| ensures xs[n] == ys[n] {
      RunUnique(ids, batches, xs, ys, n);
    }
  }

  /** The run of these batches is publishable. */
  ghost predicate RunPublishes(ids: seq<nat>, batches: seq<seq<HostRow>>, outputs: seq<Output>) {
    exists ls :: IsRun(ids, batches, ls) && Publishable(ids, batches, ls, outputs)
  }

  lemma RunDecides(ids: seq<nat>, batches: seq<seq<HostRow>>, outputs: seq<Output>, ls: seq<Ledger>)
    requires IsRun(ids, batches, ls)
    ensures RunPublishes(ids, batches, outputs) <==> Publishable(ids, batches, ls, outputs)
  {
    if xs :| IsRun(ids, batches, xs) && Publishable(ids, batches, xs, outputs) {
      RunsEqual(ids, batches, xs, ls);
    }
  }

  /**
   A capture from binding to publication, in which refused batches do not stop the caller.  It
   publishes exactly when its run is publishable, so a refusal blocks publication exactly if it is
   a fault, or a stray row in a session that records nothing.
   */
  method Capture(callId: string, ids: seq<nat>, batches: seq<seq<HostRow>>, outputs: seq<Output>)
    returns (published: Option<seq<Line>>)
    ensures published.Some? <==> Distinct(ids) && RunPublishes(ids, batches, outputs)
  {
    var session := new CaptureSession(callId);
    var bound := session.BindRequests(ids);
    if !bound {
      return None;
    }
    ghost var ls := OfferAll(session, batches);
    RunDecides(ids, batches, outputs, ls);
    FailedExactly(ids, batches, ls, |batches|);
    WidthExactly(ids, batches, ls, |batches|);
    assert session.spools == Spooled(ids, session.recorded);
    published := session.Finish(outputs);
  }

  lemma StrayStart(stray: HostRow)
    requires IsUnknown([0], None, stray)
    ensures Stray([0], Ledger([], None, false), [stray])
    ensures Offered([0], Ledger([], None, false), [stray], Ledger([], Some(|stray.logits|), false))
  {
    var l := Ledger([], None, false);
    assert FirstMisfit([0], [], None, [stray], 0);
    StopDecides([0], [], None, [stray], 0);
    TakenAll([], [stray]);
    assert OfferedUpTo([0], l, [stray], Ledger([], Some(|stray.logits|), false), 0);
  }

  lemma GoodRowFollows(good: HostRow)
    requires good.requestId == 0 && good.step == 0 && GoodValues(good, Some(1))
    ensures Offered([0], Ledger([], Some(1), false), [good], Ledger([good], Some(1), false))
    ensures !Faulty([0], Ledger([], Some(1), false), [good])
  {
    assert GoodAt([0], [], Some(1), [good], 0);
    StopDecides([0], [], Some(1), [good], 1);
    TakenAll([], [good]);
    assert OfferedUpTo([0], Ledger([], Some(1), false), [good], Ledger([good], Some(1), false), 1);
  }

  /** A session that refused a batch and still publishes. */
  method RefusedYetPublished(callId: string) returns (published: Option<seq<Line>>)
    ensures Stray([0], Ledger([], None, false), [HostRow(1, 5, 0, [Finite(0.0)])]) && published.Some?
  {
    var stray, good := HostRow(1, 5, 0, [Finite(0.0)]), HostRow(0, 5, 0, [Finite(0.0)]);
    var batches, outputs := [[stray], [good]], [Output(0, [5], true)];
    StrayStart(stray);
    StrayPublishes(stray, good, batches, outputs);
    published := Capture(callId, [0], batches, outputs);
  }

  lemma StrayPublishes(stray: HostRow, good: HostRow, batches: seq<seq<HostRow>>, outputs: seq<Output>)
    requires stray == HostRow(1, 5, 0, [Finite(0.0)]) && good == HostRow(0, 5, 0, [Finite(0.0)])
    requires batches == [[stray], [good]] && outputs == [Output(0, [5], true)]
    ensures RunPublishes([0], batches, outputs)
  {
    var ls := [Ledger([], None, false), Ledger([], Some(1), false), Ledger([good], Some(1), false)];
    StrayStart(stray);
    GoodRowFollows(good);
    assert StepAt([0], batches, ls, 0) && StepAt([0], batches, ls, 1);
    assert IsRun([0], batches, ls);
    FailedExactly([0], batches, ls, 2);
    DemuxPush([], good, 0);
    assert Publishable([0], batches, ls, outputs);
  }
}
