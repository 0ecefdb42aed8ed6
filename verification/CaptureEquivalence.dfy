/**
 Both validators accept exactly the canonical artifacts, and hence the same ones.
 */
module CaptureEquivalence {
  import opened Options
  import opened Sequences
  import opened CaptureWire
  import opened CaptureValidators

  // ------------------------------------------- producer against canonical

  /** The scan state after the rows of `g`. */
  ghost predicate Rep(c: Scan, g: seq<seq<Step>>) {
    && Sized(c, |g|)
    && (forall i :: 0 <= i < |g| ==> c.steps[i] == |g[i]| && c.tokens[i] == Tokens(g[i]))
    && c.rowCount == Count(g, |g|)
    && (match c.width case None => c.rowCount == 0 case Some(w) => Uniform(g, w) && c.rowCount > 0)
    && (match c.last case None => c.rowCount == 0 case Some(p) => forall i :: p < i < |g| ==> g[i] == [])
  }

  lemma {:induction false} CountZero(g: seq<seq<Step>>, n: nat)
    requires n <= |g| && Count(g, n) == 0
    ensures forall i :: 0 <= i < n ==> g[i] == []
  {
    if n > 0 {
      CountZero(g, n - 1);
    }
  }

  lemma InitialRep(n: nat)
    ensures Rep(InitialScan(n), seq(n, _ => []))
  {
    NoRows(seq(n, _ => []), n);
  }

  lemma {:induction false} NoRows(g: seq<seq<Step>>, n: nat)
    requires n <= |g| && forall i :: 0 <= i < n ==> g[i] == []
    ensures Count(g, n) == 0
  {
    if n > 0 {
      NoRows(g, n - 1);
    }
  }

  /** The groups behind position `p` are empty, so a row for `p` comes last. */
  ghost predicate NothingBehind(c: Scan, p: nat) {
    c.last.None? || c.last.value <= p
  }

  lemma EmptyBehind(c: Scan, g: seq<seq<Step>>, p: nat)
    requires Rep(c, g) && NothingBehind(c, p)
    ensures forall i :: p < i < |g| ==> g[i] == []
  {
    if c.last.None? {
      CountZero(g, |g|);
    }
  }

  lemma ExtendRep(c: Scan, g: seq<seq<Step>>, ids: seq<nat>, p: nat, s: Step)
    requires Rep(c, g) && p < |g| == |ids| && NothingBehind(c, p)
    requires |s.logits| > 0 && AllFinite(s.logits) && (c.width.Some? ==> c.width.value == |s.logits|)
    ensures var d := Scan(c.steps[p := c.steps[p] + 1], c.tokens[p := c.tokens[p] + [s.token]], c.rowCount + 1,
                          Some(|s.logits|), Some(p), None);
      Rep(d, Extend(g, p, s))
    ensures EmitRows(ids, Extend(g, p, s), |g|)
         == EmitRows(ids, g, |g|) + [RowLine(c.rowCount, p, ids[p], |g[p]|, s)]
  {
    EmptyBehind(c, g, p);
    EmitExtend(ids, g, p, s);
    var next := Extend(g, p, s);
    assert Tokens(next[p]) == Tokens(g[p]) + [s.token];
    assert Uniform(next, |s.logits|) by {
      if c.width.None? {
        CountZero(g, |g|);
      }
    }
  }

  /** An accepted row is the canonical next row of its group. */
  lemma SoundRow(c: Scan, g: seq<seq<Step>>, ids: seq<nat>, row: Line)
    requires Rep(c, g) && |g| == |ids| && row.Row? && ProducerRow(c, row, Bind(ids)).Some?
    ensures var s := Step(row.token, row.logits); var p := row.inputPosition;
      && p < |g| && Rep(ProducerRow(c, row, Bind(ids)).value, Extend(g, p, s))
      && EmitRows(ids, Extend(g, p, s), |g|) == EmitRows(ids, g, |g|) + [row]
  {
    ExtendRep(c, g, ids, row.inputPosition, Step(row.token, row.logits));
  }

  /** The rows of `g` followed by the trailer, if one was seen. */
  ghost function Seen(ids: seq<nat>, g: seq<seq<Step>>, trailer: Option<Line>): seq<Line>
    requires |g| == |ids|
  {
    EmitRows(ids, g, |ids|) + if trailer.Some? then [trailer.value] else []
  }

  /** One accepted line appends itself to what has been seen. */
  lemma SoundLine(c: Scan, g: seq<seq<Step>>, ids: seq<nat>, line: Line) returns (h: seq<seq<Step>>)
    requires Rep(c, g) && |g| == |ids| && ProducerLine(c, line, Bind(ids)).Some?
    ensures c.trailer.None? && |h| == |ids|
    ensures var d := ProducerLine(c, line, Bind(ids)).value;
      Rep(d, h) && Seen(ids, h, d.trailer) == Seen(ids, g, c.trailer) + [line]
  {
    if line.Row? {
      SoundRow(c, g, ids, line);
      h := Extend(g, line.inputPosition, Step(line.token, line.logits));
    } else {
      h := g;
    }
  }

  lemma {:induction false} SoundRun(c: Scan, g: seq<seq<Step>>, ids: seq<nat>, lines: seq<Line>)
    returns (final: seq<seq<Step>>)
    requires Rep(c, g) && |g| == |ids| && ProducerRun(c, lines, Bind(ids)).Some?
    ensures |final| == |ids|
    ensures var d := ProducerRun(c, lines, Bind(ids)).value;
      Rep(d, final) && Seen(ids, final, d.trailer) == Seen(ids, g, c.trailer) + lines
    decreases |lines|
  {
    if lines == [] {
      final := g;
    } else {
      var h := SoundLine(c, g, ids, lines[0]);
      var d := ProducerLine(c, lines[0], Bind(ids)).value;
      final := SoundRun(d, h, ids, lines[1..]);
      Reassociate(Seen(ids, g, c.trailer), lines);
    }
  }

  lemma Reassociate(front: seq<Line>, lines: seq<Line>)
    requires lines != []
    ensures front + [lines[0]] + lines[1..] == front + lines
  {
  }

  lemma {:induction false} RunAppend(c: Scan, a: seq<Line>, b: seq<Line>, bindings: seq<Binding>)
    requires Sized(c, |bindings|)
    ensures ProducerRun(c, a + b, bindings)
         == match ProducerRun(c, a, bindings) case None => None case Some(d) => ProducerRun(d, b, bindings)
    decreases |a|
  {
    if a == [] {
      assert a + b == b;
    } else {
      assert (a + b)[0] == a[0] && (a + b)[1..] == a[1..] + b;
      var d := ProducerLine(c, a[0], bindings);
      if d.Some? {
        RunAppend(d.value, a[1..], b, bindings);
      }
    }
  }

  lemma RunOne(c: Scan, line: Line, bindings: seq<Binding>)
    requires Sized(c, |bindings|)
    ensures ProducerRun(c, [line], bindings) == ProducerLine(c, line, bindings)
  {
    var d := ProducerLine(c, line, bindings);
    assert [line][1..] == [];
    if d.Some? {
      assert ProducerRun(d.value, [], bindings) == d;
    }
  }

  function Truncate(g: seq<seq<Step>>, n: nat): (t: seq<seq<Step>>)
    requires n <= |g|
    ensures |t| == |g|
  {
    seq(|g|, i requires 0 <= i < |g| => if i < n then g[i] else [])
  }

  /** After all rows of the first `n` requests and `k` rows of the next. */
  function Partial(g: seq<seq<Step>>, n: nat, k: nat): (t: seq<seq<Step>>)
    requires n < |g| && k <= |g[n]|
    ensures |t| == |g|
  {
    Truncate(g, n)[n := g[n][..k]]
  }

  ghost predicate Progress(c: Scan, g: seq<seq<Step>>, p: nat, width: nat) {
    Rep(c, g) && c.trailer.None? && NothingBehind(c, p) && (c.width.Some? ==> c.width.value == width)
  }

  lemma CompleteRow(c: Scan, g: seq<seq<Step>>, ids: seq<nat>, p: nat, s: Step, width: nat)
    requires |g| == |ids| && p < |g| && Progress(c, g, p, width)
    requires |s.logits| == width > 0 && AllFinite(s.logits)
    ensures var r := ProducerLine(c, RowLine(c.rowCount, p, ids[p], |g[p]|, s), Bind(ids));
      r.Some? && Progress(r.value, Extend(g, p, s), p, width)
  {
    ExtendRep(c, g, ids, p, s);
  }

  lemma {:induction false} CompleteGroup(c: Scan, g: seq<seq<Step>>, ids: seq<nat>, n: nat, k: nat, width: nat)
    returns (d: Scan)
    requires |g| == |ids| && n < |g| && k <= |g[n]| && Uniform(g, width)
    requires Progress(c, Truncate(g, n), n, width)
    ensures ProducerRun(c, GroupLines(c.rowCount, n, ids[n], g[n])[..k], Bind(ids)) == Some(d)
    ensures Progress(d, Partial(g, n, k), n, width) && d.rowCount == c.rowCount + k
    decreases k
  {
    var all := GroupLines(c.rowCount, n, ids[n], g[n]);
    if k == 0 {
      d := c;
      assert all[..0] == [];
      assert Partial(g, n, 0) == Truncate(g, n);
    } else {
      var e := CompleteGroup(c, g, ids, n, k - 1, width);
      var s := g[n][k - 1];
      assert |s.logits| == width > 0 && AllFinite(s.logits);
      CompleteRow(e, Partial(g, n, k - 1), ids, n, s, width);
      PartialStep(g, n, k - 1);
      var line := RowLine(e.rowCount, n, ids[n], k - 1, s);
      d := ProducerLine(e, line, Bind(ids)).value;
      assert all[..k] == all[..k - 1] + [line];
      RunPush(c, all[..k - 1], e, line, Bind(ids));
    }
  }

  lemma PartialStep(g: seq<seq<Step>>, n: nat, k: nat)
    requires n < |g| && k < |g[n]|
    ensures Extend(Partial(g, n, k), n, g[n][k]) == Partial(g, n, k + 1)
  {
    assert g[n][..k] + [g[n][k]] == g[n][..k + 1];
  }

  lemma RunPush(c: Scan, front: seq<Line>, e: Scan, line: Line, bindings: seq<Binding>)
    requires Sized(c, |bindings|) && ProducerRun(c, front, bindings) == Some(e)
    ensures ProducerRun(c, front + [line], bindings) == ProducerLine(e, line, bindings)
  {
    RunAppend(c, front, [line], bindings);
    RunOne(e, line, bindings);
  }

  lemma CompleteNext(start: Scan, b: Scan, g: seq<seq<Step>>, ids: seq<nat>, n: nat, width: nat) returns (c: Scan)
    requires |g| == |ids| && n < |g| && Uniform(g, width) && Sized(start, |ids|)
    requires ProducerRun(start, EmitRows(ids, g, n), Bind(ids)) == Some(b)
    requires Progress(b, Truncate(g, n), n, width)
    ensures ProducerRun(start, EmitRows(ids, g, n + 1), Bind(ids)) == Some(c)
    ensures Progress(c, Truncate(g, n + 1), n + 1, width)
  {
    var lines := GroupLines(b.rowCount, n, ids[n], g[n]);
    CountTruncate(g, n);
    c := CompleteGroup(b, g, ids, n, |g[n]|, width);
    assert lines[..|g[n]|] == lines;
    RunAppend(start, EmitRows(ids, g, n), lines, Bind(ids));
    PartialFull(g, n);
  }

  lemma PartialFull(g: seq<seq<Step>>, n: nat)
    requires n < |g|
    ensures Partial(g, n, |g[n]|) == Truncate(g, n + 1)
  {
    assert g[n][..|g[n]|] == g[n];
  }

  lemma {:induction false} CompleteRows(g: seq<seq<Step>>, ids: seq<nat>, n: nat, width: nat) returns (c: Scan)
    requires |g| == |ids| && n <= |g| && Uniform(g, width)
    ensures ProducerRun(InitialScan(|ids|), EmitRows(ids, g, n), Bind(ids)) == Some(c)
    ensures Progress(c, Truncate(g, n), n, width)
  {
    if n == 0 {
      c := InitialScan(|ids|);
      NoProgress(g, ids, width);
    } else {
      var b := CompleteRows(g, ids, n - 1, width);
      c := CompleteNext(InitialScan(|ids|), b, g, ids, n - 1, width);
    }
  }

  lemma NoProgress(g: seq<seq<Step>>, ids: seq<nat>, width: nat)
    requires |g| == |ids|
    ensures Progress(InitialScan(|ids|), Truncate(g, 0), 0, width)
  {
    InitialRep(|ids|);
    assert Truncate(g, 0) == seq(|ids|, _ => []);
  }

  lemma CountTruncate(g: seq<seq<Step>>, n: nat)
    requires n <= |g|
    ensures Count(Truncate(g, n), |g|) == Count(g, n)
  {
    var ids: seq<nat> := seq(|g|, _ => 0);
    TrailingEmpty(ids, Truncate(g, n), n, |g|);
    CountSame(Truncate(g, n), g, n);
  }

  lemma CanonicalFrom(lines: seq<Line>, callId: string, ids: seq<nat>, outputs: seq<Output>,
                      c: Scan, g: seq<seq<Step>>, width: nat)
    requires OutputsMatch(Bind(ids), outputs) && Rep(c, g) && |g| == |ids|
    requires TrailerOk(c) && TokensMatch(c.tokens, outputs)
    requires lines != [] && lines[0] == Header(FORMAT, SCHEMA, callId, Bind(ids))
    requires lines[1..] == Seen(ids, g, c.trailer)
    requires width == if c.width.Some? then c.width.value else 0
    ensures Canonical(lines, callId, ids, outputs, g, width)
  {
    if c.width.None? {
      CountZero(g, |g|);
    }
    assert lines == [lines[0]] + lines[1..];
    forall i | 0 <= i < |ids|
      ensures outputs[i].requestId == ids[i] && outputs[i].finished && Tokens(g[i]) == outputs[i].tokenIds
    {
      assert outputs[i].requestId == Bind(ids)[i].requestId;
    }
  }

  /** Soundness: whatever the producer's self-check accepts is a canonical artifact. */
  lemma ProducerSound(lines: seq<Line>, callId: string, ids: seq<nat>, outputs: seq<Output>)
    returns (g: seq<seq<Step>>, width: nat)
    requires ProducerAccepts(lines, callId, Bind(ids), outputs)
    ensures Canonical(lines, callId, ids, outputs, g, width)
  {
    InitialRep(|ids|);
    var none: seq<seq<Step>> := seq(|ids|, _ => []);
    NoRows(none, |ids|);
    var c := ProducerRun(InitialScan(|ids|), lines[1..], Bind(ids)).value;
    g := SoundRun(InitialScan(|ids|), none, ids, lines[1..]);
    width := if c.width.Some? then c.width.value else 0;
    assert Seen(ids, none, None) + lines[1..] == lines[1..];
    CanonicalFrom(lines, callId, ids, outputs, c, g, width);
  }

  /** Scanning the body of an emitted artifact recovers its groups and its trailer. */
  lemma ScanEmitted(callId: string, ids: seq<nat>, g: seq<seq<Step>>, width: nat) returns (c: Scan)
    requires |g| == |ids| && Uniform(g, width)
    ensures ProducerRun(InitialScan(|ids|), Emit(callId, ids, g, width)[1..], Bind(ids)) == Some(c)
    ensures Rep(c, g) && c.trailer == Some(Trailer(true, Count(g, |g|), DTYPE, (Count(g, |g|), width)))
    ensures c.width.Some? ==> c.width.value == width
  {
    var n := |ids|;
    var rows := EmitRows(ids, g, n);
    var trailer := Trailer(true, Count(g, n), DTYPE, (Count(g, n), width));
    var b := CompleteRows(g, ids, n, width);
    assert Truncate(g, n) == g;
    assert Emit(callId, ids, g, width)[1..] == rows + [trailer];
    RunAppend(InitialScan(n), rows, [trailer], Bind(ids));
    RunOne(b, trailer, Bind(ids));
    c := b.(trailer := Some(trailer));
  }

  /** The outputs belong to these requests and carry the tokens of these groups. */
  ghost predicate Produced(ids: seq<nat>, g: seq<seq<Step>>, outputs: seq<Output>) {
    && |ids| == |outputs| == |g|
    && forall i :: 0 <= i < |ids| ==>
         outputs[i].requestId == ids[i] && outputs[i].finished && Tokens(g[i]) == outputs[i].tokenIds
  }

  /** An emitted artifact passes the self-check exactly for its own outputs, and only with a used width. */
  lemma SelfCheckExact(callId: string, ids: seq<nat>, g: seq<seq<Step>>, width: nat, outputs: seq<Output>)
    requires |g| == |ids| && Uniform(g, width)
    ensures ProducerAccepts(Emit(callId, ids, g, width), callId, Bind(ids), outputs)
       <==> Produced(ids, g, outputs) && (Count(g, |g|) == 0 ==> width == 0)
  {
    var c := ScanEmitted(callId, ids, g, width);
    assert Emit(callId, ids, g, width)[0] == Header(FORMAT, SCHEMA, callId, Bind(ids));
    EmittedTrailer(c, g, width);
    OutputsAre(c, ids, g, outputs);
  }

  lemma EmittedTrailer(c: Scan, g: seq<seq<Step>>, width: nat)
    requires Rep(c, g) && c.trailer == Some(Trailer(true, Count(g, |g|), DTYPE, (Count(g, |g|), width)))
    requires c.width.Some? ==> c.width.value == width
    ensures TrailerOk(c) <==> (Count(g, |g|) == 0 ==> width == 0)
  {
  }

  lemma OutputsAre(c: Scan, ids: seq<nat>, g: seq<seq<Step>>, outputs: seq<Output>)
    requires Rep(c, g) && |g| == |ids|
    ensures OutputsMatch(Bind(ids), outputs) && TokensMatch(c.tokens, outputs) <==> Produced(ids, g, outputs)
  {
    if |outputs| == |ids| {
      assert forall i :: 0 <= i < |ids| ==> Bind(ids)[i].requestId == ids[i];
    }
  }

  /** Completeness: the producer's self-check accepts every canonical artifact. */
  lemma ProducerComplete(lines: seq<Line>, callId: string, ids: seq<nat>, outputs: seq<Output>,
                         g: seq<seq<Step>>, width: nat)
    requires Canonical(lines, callId, ids, outputs, g, width)
    ensures ProducerAccepts(lines, callId, Bind(ids), outputs)
  {
    SelfCheckExact(callId, ids, g, width, outputs);
  }

  // ------------------------------------------- consumer against producer

  function Core(c: Reading): Scan {
    Scan(c.steps, c.tokens, c.rowCount, c.width, c.last, c.trailer)
  }

  /** The logits of the rows among `lines`, in order. */
  function RowLogits(lines: seq<Line>): seq<Value> {
    if lines == [] then []
    else (if lines[0].Row? then lines[0].logits else []) + RowLogits(lines[1..])
  }

  ghost predicate Coherent(c: Reading) {
    && |c.steps| == |c.tokens|
    && (forall i :: 0 <= i < |c.steps| ==> c.steps[i] == |c.tokens[i]|)
    && |c.logits| == c.rowCount * (if c.width.Some? then c.width.value else 0)
    && (c.width.None? ==> c.rowCount == 0)
  }

  predicate IsPrefix(a: seq<nat>, b: seq<nat>) { |a| <= |b| && a == b[..|a|] }

  ghost predicate Predicted(tokens: seq<seq<nat>>, outputs: seq<Output>) {
    |tokens| == |outputs| && forall i :: 0 <= i < |tokens| ==> IsPrefix(tokens[i], outputs[i].tokenIds)
  }

  /** A line the consumer takes, the producer takes alike; the converse needs the outputs' tokens. */
  lemma LineLockstep(c: Reading, line: Line, bindings: seq<Binding>, outputs: seq<Output>)
    requires ReadingSized(c, |bindings|) && |outputs| == |bindings| && Coherent(c)
    requires Predicted(c.tokens, outputs)
    ensures var r := ConsumerLine(c, line, bindings, outputs); var q := ProducerLine(Core(c), line, bindings);
      && (r.Some? ==> q == Some(Core(r.value)) && Coherent(r.value) && Predicted(r.value.tokens, outputs)
                      && r.value.logits == c.logits + if line.Row? then line.logits else [])
      && (q.Some? && Predicted(q.value.tokens, outputs) ==> r.Some?)
  {
    if line.Row? {
      RowLockstep(c, line, bindings, outputs);
    } else {
      assert c.logits + [] == c.logits;
    }
  }

  lemma Product(n: nat, w: nat)
    ensures (n + 1) * w == n * w + w
  {
  }

  lemma RowLockstep(c: Reading, row: Line, bindings: seq<Binding>, outputs: seq<Output>)
    requires ReadingSized(c, |bindings|) && |outputs| == |bindings| && Coherent(c) && row.Row?
    requires Predicted(c.tokens, outputs)
    ensures var r := ConsumerRow(c, row, bindings, outputs); var q := ProducerRow(Core(c), row, bindings);
      && (r.Some? ==> q == Some(Core(r.value)) && Coherent(r.value) && Predicted(r.value.tokens, outputs)
                      && r.value.logits == c.logits + row.logits)
      && (q.Some? && Predicted(q.value.tokens, outputs) ==> r.Some?)
  {
    var r := ConsumerRow(c, row, bindings, outputs);
    var q := ProducerRow(Core(c), row, bindings);
    var p := row.inputPosition;
    if r.Some? {
      Product(c.rowCount, row.width);
      var out := outputs[p].tokenIds;
      assert out[..row.step + 1] == out[..row.step] + [out[row.step]];
    }
    if q.Some? && Predicted(q.value.tokens, outputs) {
      var t := q.value.tokens[p];
      assert IsPrefix(t, outputs[p].tokenIds);
      assert t[row.step] == row.token == outputs[p].tokenIds[row.step];
    }
  }

  lemma {:induction false} TokensGrow(c: Scan, lines: seq<Line>, bindings: seq<Binding>, outputs: seq<Output>)
    requires Sized(c, |bindings|) && |outputs| == |bindings| && ProducerRun(c, lines, bindings).Some?
    requires Predicted(ProducerRun(c, lines, bindings).value.tokens, outputs)
    ensures Predicted(c.tokens, outputs)
    decreases |lines|
  {
    if lines != [] {
      var d := ProducerLine(c, lines[0], bindings).value;
      TokensGrow(d, lines[1..], bindings, outputs);
      forall i | 0 <= i < |c.tokens| ensures IsPrefix(c.tokens[i], outputs[i].tokenIds) {
        assert IsPrefix(d.tokens[i], outputs[i].tokenIds);
      }
    }
  }

  lemma {:induction false} RunLockstep(c: Reading, lines: seq<Line>, bindings: seq<Binding>, outputs: seq<Output>)
    requires ReadingSized(c, |bindings|) && |outputs| == |bindings| && Coherent(c) && Predicted(c.tokens, outputs)
    ensures var r := ConsumerRun(c, lines, bindings, outputs); var q := ProducerRun(Core(c), lines, bindings);
      && (r.Some? ==> q == Some(Core(r.value)) && Coherent(r.value) && Predicted(r.value.tokens, outputs)
                      && r.value.logits == c.logits + RowLogits(lines))
      && (q.Some? && Predicted(q.value.tokens, outputs) ==> r.Some?)
    decreases |lines|
  {
    if lines != [] {
      LineLockstep(c, lines[0], bindings, outputs);
      var r := ConsumerLine(c, lines[0], bindings, outputs);
      var q := ProducerLine(Core(c), lines[0], bindings);
      if r.Some? {
        RunLockstep(r.value, lines[1..], bindings, outputs);
        var mine := if lines[0].Row? then lines[0].logits else [];
        assert c.logits + mine + RowLogits(lines[1..]) == c.logits + (mine + RowLogits(lines[1..]));
      } else if q.Some? && ProducerRun(q.value, lines[1..], bindings).Some? {
        var final := ProducerRun(q.value, lines[1..], bindings).value;
        if Predicted(final.tokens, outputs) {
          TokensGrow(q.value, lines[1..], bindings, outputs);
        }
      }
    }
  }

  function OutputIds(outputs: seq<Output>): seq<nat> {
    seq(|outputs|, i requires 0 <= i < |outputs| => outputs[i].requestId)
  }

  /** The consumer accepts what the producer would, had it been bound to the outputs' identities. */
  lemma ConsumerIffProducer(lines: seq<Line>, callId: string, outputs: seq<Output>)
    ensures ConsumerResult(lines, callId, outputs).Some?
       <==> Distinct(OutputIds(outputs)) && ProducerAccepts(lines, callId, Bind(OutputIds(outputs)), outputs)
  {
    var bindings := Bind(OutputIds(outputs));
    if lines != [] && lines[0] == Header(FORMAT, SCHEMA, callId, bindings) {
      assert BindingsOk(bindings, outputs) <==> Distinct(OutputIds(outputs)) && OutputsMatch(bindings, outputs) by {
        BindingsOfOutputs(outputs);
      }
      FinalAgree(lines[1..], bindings, outputs);
    } else if lines != [] && lines[0].Header? && BindingsOk(lines[0].requests, outputs) {
      assert lines[0].requests == bindings;
    }
  }

  /** What an accepted reading returns, in terms of the producer's scan of the same body. */
  lemma ConsumerValue(lines: seq<Line>, callId: string, outputs: seq<Output>)
    requires ConsumerResult(lines, callId, outputs).Some?
    ensures lines != [] && lines[0].Header?
    ensures var bindings := lines[0].requests; var q := ProducerRun(InitialScan(|bindings|), lines[1..], bindings);
      && q.Some?
      && ConsumerResult(lines, callId, outputs).value
           == Generation(RowLogits(lines[1..]),
                         (q.value.rowCount, if q.value.width.Some? then q.value.width.value else 0), q.value.tokens)
  {
    var bindings := lines[0].requests;
    var start := InitialReading(|bindings|);
    assert Core(start) == InitialScan(|bindings|);
    RunLockstep(start, lines[1..], bindings, outputs);
    assert [] + RowLogits(lines[1..]) == RowLogits(lines[1..]);
  }

  lemma BindingsOfOutputs(outputs: seq<Output>)
    ensures var bindings := Bind(OutputIds(outputs));
      BindingsOk(bindings, outputs) <==> Distinct(OutputIds(outputs)) && OutputsMatch(bindings, outputs)
  {
    var bindings := Bind(OutputIds(outputs));
    assert forall i :: 0 <= i < |outputs| ==> bindings[i].requestId == OutputIds(outputs)[i];
  }

  lemma FinalAgree(body: seq<Line>, bindings: seq<Binding>, outputs: seq<Output>)
    requires |outputs| == |bindings|
    ensures var r := ConsumerRun(InitialReading(|bindings|), body, bindings, outputs);
      var q := ProducerRun(InitialScan(|bindings|), body, bindings);
      (r.Some? && ReadingTrailerOk(r.value) && TokensMatch(r.value.tokens, outputs))
      <==> (q.Some? && TrailerOk(q.value) && TokensMatch(q.value.tokens, outputs))
  {
    var start := InitialReading(|bindings|);
    assert Core(start) == InitialScan(|bindings|);
    RunLockstep(start, body, bindings, outputs);
  }

  /**
   For every session binding and every line sequence: the self-check accepts exactly when
   the consumer does and the outputs carry the bound identities in order.
   */
  lemma ValidatorsAgree(lines: seq<Line>, callId: string, ids: seq<nat>, outputs: seq<Output>)
    requires Distinct(ids)
    ensures ProducerAccepts(lines, callId, Bind(ids), outputs)
       <==> OutputIds(outputs) == ids && ConsumerResult(lines, callId, outputs).Some?
  {
    ConsumerIffProducer(lines, callId, outputs);
    if ProducerAccepts(lines, callId, Bind(ids), outputs) {
      assert OutputIds(outputs) == ids by {
        forall i | 0 <= i < |ids| ensures OutputIds(outputs)[i] == ids[i] {
          assert outputs[i].requestId == Bind(ids)[i].requestId;
        }
      }
    }
  }

  /** Without that condition they disagree: the consumer never sees the session's bindings. */
  lemma ValidatorsDisagreeOnForeignOutputs()
    ensures exists lines: seq<Line>, callId: string, ids: seq<nat>, outputs: seq<Output> ::
      && Distinct(ids) && ConsumerResult(lines, callId, outputs).Some?
      && !ProducerAccepts(lines, callId, Bind(ids), outputs)
  {
    var outputs := [Output(7, [], true)];
    var lines := Emit("c", [7], [[]], 0);
    assert Count([[]], 1) == 0;
    assert Tokens([]) == [];
    assert OutputIds(outputs) == [7];
    assert Canonical(lines, "c", [7], outputs, [[]], 0);
    ProducerComplete(lines, "c", [7], outputs, [[]], 0);
    ValidatorsAgree(lines, "c", [7], outputs);
    ValidatorsAgree(lines, "c", [8], outputs);
    assert Distinct([8]);
    assert OutputIds(outputs)[0] != [8][0];
  }
}
