/**
 The capture session: interleaved rows are spooled per request and published as one
 request-major artifact.
 */
module CaptureSessions {
  import opened Options
  import opened Sequences
  import opened CaptureWire
  import opened CaptureValidators
  import opened CaptureEquivalence

  datatype HostRow = HostRow(requestId: nat, token: nat, step: nat, logits: seq<Value>)

  datatype Outcome = Recorded | AlreadyFailed | Blocked | UnknownRequest

  /** The captured steps of one request among interleaved rows, in arrival order. */
  function Demux(rows: seq<HostRow>, id: nat): seq<Step> {
    if rows == [] then []
    else
      var last := rows[|rows| - 1];
      Demux(rows[..|rows| - 1], id) + if last.requestId == id then [Step(last.token, last.logits)] else []
  }

  lemma DemuxPush(rows: seq<HostRow>, row: HostRow, id: nat)
    ensures Demux(rows + [row], id)
         == Demux(rows, id) + if row.requestId == id then [Step(row.token, row.logits)] else []
  {
    assert (rows + [row])[..|rows|] == rows;
  }

  /** The row passes the value checks; `vocab` is the width fixed by an earlier row. */
  predicate GoodValues(row: HostRow, vocab: Option<nat>) {
    row.logits != [] && AllFinite(row.logits) && (vocab.Some? ==> vocab.value == |row.logits|)
  }

  /** The row is well-formed, of the common width, of a bound request, and next in its request. */
  ghost predicate RowFits(ids: seq<nat>, before: seq<HostRow>, vocab: Option<nat>, row: HostRow) {
    GoodValues(row, vocab) && row.requestId in ids && row.step == |Demux(before, row.requestId)|
  }

  /** What is on record once the first `k` rows of a batch were taken. */
  ghost function Taken(before: seq<HostRow>, rows: seq<HostRow>, k: nat): seq<HostRow>
    requires k <= |rows|
  {
    before + rows[..k]
  }

  ghost predicate GoodAt(ids: seq<nat>, before: seq<HostRow>, vocab: Option<nat>, rows: seq<HostRow>, k: nat)
    requires k < |rows|
  {
    RowFits(ids, Taken(before, rows, k), WidthAt(vocab, rows, k), rows[k])
  }

  /** The row passes the value checks but belongs to no bound request. */
  predicate IsUnknown(ids: seq<nat>, vocab: Option<nat>, row: HostRow) {
    GoodValues(row, vocab) && row.requestId !in ids
  }

  /** The width in force when the `k`-th row of a batch is looked at. */
  ghost function WidthAt(vocab: Option<nat>, rows: seq<HostRow>, k: nat): Option<nat>
    requires k <= |rows|
  {
    if k == 0 then vocab else Some(|rows[k - 1].logits|)
  }

  /** Row `k` is the first of its batch that does not fit. */
  ghost predicate FirstMisfit(ids: seq<nat>, before: seq<HostRow>, vocab: Option<nat>, rows: seq<HostRow>, k: nat) {
    k < |rows| && !GoodAt(ids, before, vocab, rows, k) && forall m :: 0 <= m < k ==> GoodAt(ids, before, vocab, rows, m)
  }

  /** The width noted once the batch stopped at row `k`: a row is measured before its request is looked up. */
  ghost function WidthAfter(vocab: Option<nat>, rows: seq<HostRow>, k: nat): Option<nat>
    requires k <= |rows|
  {
    if k < |rows| && GoodValues(rows[k], WidthAt(vocab, rows, k)) then Some(|rows[k].logits|) else WidthAt(vocab, rows, k)
  }

  /** The first misfit of the batch passes the value checks but belongs to no bound request. */
  ghost predicate StopsAtUnknown(ids: seq<nat>, before: seq<HostRow>, vocab: Option<nat>, rows: seq<HostRow>) {
    exists k: nat :: FirstMisfit(ids, before, vocab, rows, k) && IsUnknown(ids, WidthAt(vocab, rows, k), rows[k])
  }

  /** The first misfit of the batch fails any other check. */
  ghost predicate StopsAtFault(ids: seq<nat>, before: seq<HostRow>, vocab: Option<nat>, rows: seq<HostRow>) {
    exists k: nat :: FirstMisfit(ids, before, vocab, rows, k) && !IsUnknown(ids, WidthAt(vocab, rows, k), rows[k])
  }

  ghost predicate GoodBatch(ids: seq<nat>, before: seq<HostRow>, vocab: Option<nat>, rows: seq<HostRow>) {
    forall k :: 0 <= k < |rows| ==> GoodAt(ids, before, vocab, rows, k)
  }

  /** Exactly `k` rows of the batch are taken: it ends there, or the next row does not fit. */
  ghost predicate StopsAfter(ids: seq<nat>, before: seq<HostRow>, vocab: Option<nat>, rows: seq<HostRow>, k: nat) {
    if k == |rows| then GoodBatch(ids, before, vocab, rows) else FirstMisfit(ids, before, vocab, rows, k)
  }

  /** Where a batch stops decides how it is refused. */
  lemma StopDecides(ids: seq<nat>, before: seq<HostRow>, vocab: Option<nat>, rows: seq<HostRow>, k: nat)
    requires StopsAfter(ids, before, vocab, rows, k)
    ensures GoodBatch(ids, before, vocab, rows) <==> k == |rows|
    ensures StopsAtUnknown(ids, before, vocab, rows) <==> k < |rows| && IsUnknown(ids, WidthAt(vocab, rows, k), rows[k])
    ensures StopsAtFault(ids, before, vocab, rows) <==> k < |rows| && !IsUnknown(ids, WidthAt(vocab, rows, k), rows[k])
  {
    forall j: nat | FirstMisfit(ids, before, vocab, rows, j) ensures k == j {
      assert j < |rows| && !GoodAt(ids, before, vocab, rows, j);
    }
  }

  ghost predicate Bound(ids: seq<nat>, table: map<nat, nat>) {
    && Distinct(ids)
    && (forall id :: id in table <==> id in ids)
    && (forall i :: 0 <= i < |ids| ==> table[ids[i]] == i)
  }

  /** Each spool holds the rows of its request, in arrival order, and no others were taken. */
  ghost predicate Demuxed(ids: seq<nat>, spools: seq<seq<Step>>, recorded: seq<HostRow>) {
    && |spools| == |ids|
    && (forall i :: 0 <= i < |ids| ==> spools[i] == Demux(recorded, ids[i]))
    && (forall k :: 0 <= k < |recorded| ==> recorded[k].requestId in ids)
    && (ids == [] ==> recorded == [])
  }

  ghost predicate Widths(spools: seq<seq<Step>>, recorded: seq<HostRow>, vocab: Option<nat>) {
    match vocab
    case None => recorded == []
    case Some(w) => w > 0 && Uniform(spools, w)
  }

  lemma PushRow(before: seq<HostRow>, rows: seq<HostRow>, k: nat)
    requires k < |rows|
    ensures Taken(before, rows, k) + [rows[k]] == Taken(before, rows, k + 1)
  {
  }

  lemma TakenAll(before: seq<HostRow>, rows: seq<HostRow>)
    ensures Taken(before, rows, 0) == before && Taken(before, rows, |rows|) == before + rows
  {
  }

  lemma DemuxedStep(ids: seq<nat>, spools: seq<seq<Step>>, recorded: seq<HostRow>, row: HostRow, i: nat)
    requires Demuxed(ids, spools, recorded) && Distinct(ids) && i < |ids| && ids[i] == row.requestId
    ensures Demuxed(ids, spools[i := spools[i] + [Step(row.token, row.logits)]], recorded + [row])
  {
    var next := spools[i := spools[i] + [Step(row.token, row.logits)]];
    forall j | 0 <= j < |ids| ensures next[j] == Demux(recorded + [row], ids[j]) {
      DemuxPush(recorded, row, ids[j]);
    }
  }

  lemma WidthsStep(spools: seq<seq<Step>>, w: nat, s: Step, i: nat)
    requires Uniform(spools, w) && i < |spools| && |s.logits| == w > 0 && AllFinite(s.logits)
    ensures Uniform(spools[i := spools[i] + [s]], w)
  {
  }

  class CaptureSession {
    const callId: string
    var ids: seq<nat>
    var spools: seq<seq<Step>>
    var requestToSpool: map<nat, nat>
    var vocab: Option<nat>
    var failed: bool
    ghost var recorded: seq<HostRow>  // every row that reached a spool, in arrival order

    ghost predicate Valid()
      reads this
    {
      Bound(ids, requestToSpool) && Demuxed(ids, spools, recorded) && Widths(spools, recorded, vocab)
    }

    constructor (callId: string)
      ensures Valid() && this.callId == callId && ids == [] && recorded == [] && vocab == None && !failed
    {
      this.callId := callId;
      ids, spools, requestToSpool, vocab, failed := [], [], map[], None, false;
      recorded := [];
    }

    /** A session is bound once; the identities must be distinct. */
    method BindRequests(requestIds: seq<nat>) returns (ok: bool)
      requires Valid()
      modifies this
      ensures Valid() && vocab == old(vocab) && failed == old(failed)
      ensures ok <==> old(ids) == [] && Distinct(requestIds)
      ensures ids == if ok then requestIds else old(ids)
      ensures recorded == old(recorded) && (!ok ==> spools == old(spools))
    {
      if spools != [] || requestToSpool != map[] {
        assert requestToSpool != map[] ==> exists id :: id in requestToSpool && id in ids;
        return false;
      }
      assert |ids| == 0;
      DistinctCount(requestIds);
      if |ToSet(requestIds)| != |requestIds| {
        return false;
      }
      requestToSpool, spools := BuildTable(requestIds);
      ids := requestIds;
      return true;
    }

    method BuildTable(requestIds: seq<nat>) returns (table: map<nat, nat>, empty: seq<seq<Step>>)
      requires Distinct(requestIds)
      ensures Bound(requestIds, table) && empty == seq(|requestIds|, _ => [])
    {
      table, empty := map[], [];
      for i := 0 to |requestIds|
        invariant empty == seq(i, _ => [])
        invariant forall id :: id in table <==> id in requestIds[..i]
        invariant forall k :: 0 <= k < i ==> table[requestIds[k]] == k
      {
        table := table[requestIds[i] := i];
        empty := empty + [[]];
      }
      assert requestIds[..|requestIds|] == requestIds;
    }

    /** Spools one row that passed every check. */
    method Spool(row: HostRow)
      requires Valid() && row.requestId in ids && GoodValues(row, vocab) && vocab.Some?
      modifies this`spools, this`recorded
      ensures Valid() && recorded == old(recorded) + [row]
    {
      var i := requestToSpool[row.requestId];
      ghost var k :| 0 <= k < |ids| && ids[k] == row.requestId;
      DemuxedStep(ids, spools, recorded, row, i);
      WidthsStep(spools, vocab.value, Step(row.token, row.logits), i);
      spools := spools[i := spools[i] + [Step(row.token, row.logits)]];
      recorded := recorded + [row];
    }

    /** The checks on one row; the width of an otherwise good row is noted before its request is looked up. */
    method RecordRow(row: HostRow) returns (outcome: Outcome)
      requires Valid() && !failed
      modifies this`spools, this`recorded, this`vocab, this`failed
      ensures Valid() && (failed <==> outcome.Blocked?) && !outcome.AlreadyFailed?
      ensures outcome.Recorded? <==> RowFits(ids, old(recorded), old(vocab), row)
      ensures outcome.UnknownRequest? <==> IsUnknown(ids, old(vocab), row)
      ensures vocab == if GoodValues(row, old(vocab)) then Some(|row.logits|) else old(vocab)
      ensures outcome.Recorded? ==> recorded == old(recorded) + [row]
      ensures !outcome.Recorded? ==> recorded == old(recorded)
    {
      if !GoodValues(row, vocab) {
        failed := true;
        return Blocked;
      }
      assert vocab.None? ==> Uniform(spools, |row.logits|) by {
        if vocab.None? {
          assert forall i :: 0 <= i < |ids| ==> spools[i] == [];
        }
      }
      vocab := Some(|row.logits|);
      if row.requestId !in requestToSpool {
        return UnknownRequest;
      }
      ghost var i :| 0 <= i < |ids| && ids[i] == row.requestId;
      assert spools[i] == Demux(recorded, row.requestId);
      if row.step != |spools[requestToSpool[row.requestId]]| {
        failed := true;
        return Blocked;
      }
      Spool(row);
      return Recorded;
    }

    /** The next row of a batch. */
    method RecordNext(rows: seq<HostRow>, k: nat, ghost before: seq<HostRow>, ghost width: Option<nat>)
      returns (outcome: Outcome)
      requires Valid() && !failed && k < |rows|
      requires recorded == Taken(before, rows, k) && vocab == WidthAt(width, rows, k)
      modifies this`spools, this`recorded, this`vocab, this`failed
      ensures Valid() && (failed <==> outcome.Blocked?) && !outcome.AlreadyFailed?
      ensures outcome.Recorded? <==> GoodAt(ids, before, width, rows, k)
      ensures outcome.UnknownRequest? <==> IsUnknown(ids, WidthAt(width, rows, k), rows[k])
      ensures outcome.Recorded? ==> recorded == Taken(before, rows, k + 1)
      ensures vocab == if GoodValues(rows[k], WidthAt(width, rows, k)) then Some(|rows[k].logits|) else WidthAt(width, rows, k)
      ensures !outcome.Recorded? ==> recorded == Taken(before, rows, k)
    {
      outcome := RecordRow(rows[k]);
      PushRow(before, rows, k);
    }

    /** The loop over a batch: rows are spooled up to the first one that does not fit. */
    method RecordBatch(rows: seq<HostRow>) returns (outcome: Outcome, ghost taken: nat)
      requires Valid() && !failed
      modifies this`spools, this`recorded, this`vocab, this`failed
      ensures Valid() && (failed <==> outcome.Blocked?) && !outcome.AlreadyFailed?
      ensures taken <= |rows| && recorded == Taken(old(recorded), rows, taken)
      ensures vocab == WidthAfter(old(vocab), rows, taken)
      ensures outcome.Recorded? ==> taken == |rows| && GoodBatch(ids, old(recorded), old(vocab), rows)
      ensures !outcome.Recorded? ==> FirstMisfit(ids, old(recorded), old(vocab), rows, taken)
      ensures !outcome.Recorded? ==> (outcome.UnknownRequest? <==> IsUnknown(ids, WidthAt(old(vocab), rows, taken), rows[taken]))
    {
      ghost var before, width := recorded, vocab;
      TakenAll(before, rows);
      for k := 0 to |rows|
        invariant Valid() && !failed
        invariant recorded == Taken(before, rows, k) && vocab == WidthAt(width, rows, k)
        invariant forall m :: 0 <= m < k ==> GoodAt(ids, before, width, rows, m)
      {
        outcome := RecordNext(rows, k, before, width);
        if !outcome.Recorded? {
          taken := k;
          return;
        }
      }
      outcome, taken := Recorded, |rows|;
    }

    /**
     A batch is refused at its first row that does not fit.  If that row is good but of an unknown
     request, the session is not marked failed; every other misfit marks it.
     */
    method RecordHostRows(rows: seq<HostRow>) returns (outcome: Outcome, ghost taken: nat)
      requires Valid()
      modifies this`spools, this`recorded, this`vocab, this`failed
      ensures Valid()
      ensures outcome.AlreadyFailed? <==> old(failed)
      ensures outcome.Recorded? <==> !old(failed) && GoodBatch(ids, old(recorded), old(vocab), rows)
      ensures outcome.UnknownRequest? <==> !old(failed) && StopsAtUnknown(ids, old(recorded), old(vocab), rows)
      ensures outcome.Blocked? <==> !old(failed) && StopsAtFault(ids, old(recorded), old(vocab), rows)
      ensures failed <==> old(failed) || outcome.Blocked?
      ensures old(failed) ==> recorded == old(recorded) && vocab == old(vocab)
      ensures !old(failed) ==> StopsAfter(ids, old(recorded), old(vocab), rows, taken)
      ensures !old(failed) ==> recorded == Taken(old(recorded), rows, taken) && vocab == WidthAfter(old(vocab), rows, taken)
    {
      if failed {
        return AlreadyFailed, 0;
      }
      ghost var before, width := recorded, vocab;
      outcome, taken := RecordBatch(rows);
      StopDecides(ids, before, width, rows, taken);
    }

    /** The rows of one spool, numbered on from `start`. */
    method EmitSpool(p: nat, start: nat) returns (lines: seq<Line>)
      requires Valid() && p < |spools|
      ensures lines == GroupLines(start, p, ids[p], spools[p])
    {
      lines := [];
      for k := 0 to |spools[p]|
        invariant lines == GroupLines(start, p, ids[p], spools[p])[..k]
      {
        lines := lines + [RowLine(start + k, p, ids[p], k, spools[p][k])];
      }
    }

    /** Writes the spools request by request, numbering the rows consecutively. */
    method EmitSpools() returns (lines: seq<Line>)
      requires Valid()
      ensures lines == EmitRows(ids, spools, |ids|)
    {
      lines := [];
      for p := 0 to |spools|
        invariant lines == EmitRows(ids, spools, p)
      {
        var group := EmitSpool(p, |lines|);
        lines := lines + group;
      }
    }

    /**
     Publishes the artifact if the self-check accepts it.  That happens exactly when the session
     has not failed, the outputs are those of the bound requests, and a noted width was used.
     */
    method Finish(outputs: seq<Output>) returns (published: Option<seq<Line>>)
      requires Valid()
      ensures published.Some? <==>
        !failed && Produced(ids, spools, outputs) && (vocab.Some? ==> recorded != [])
      ensures published.Some? ==> published.value == Emit(callId, ids, spools, Width(vocab))
      ensures published.Some? ==>
        ConsumerResult(published.value, callId, outputs)
        == Some(Generation(AllLogits(spools, |spools|), (Count(spools, |spools|), Width(vocab)), AllTokens(spools)))
    {
      if failed {
        return None;
      }
      var rows := EmitSpools();
      var lines := [Header(FORMAT, SCHEMA, callId, Bind(ids))] + rows
        + [Trailer(true, |rows|, DTYPE, (|rows|, Width(vocab)))];
      assert lines == Emit(callId, ids, spools, Width(vocab));
      UniformWidth(ids, spools, recorded, vocab);
      CountRecorded(ids, spools, recorded);
      SelfCheckExact(callId, ids, spools, Width(vocab), outputs);
      var ok := ValidateArtifact(lines, callId, Bind(ids), outputs);
      if !ok {
        return None;
      }
      RoundTrip(callId, ids, spools, Width(vocab), outputs);
      return Some(lines);
    }
  }

  function Width(vocab: Option<nat>): nat { if vocab.Some? then vocab.value else 0 }

  lemma UniformWidth(ids: seq<nat>, spools: seq<seq<Step>>, recorded: seq<HostRow>, vocab: Option<nat>)
    requires Demuxed(ids, spools, recorded) && Widths(spools, recorded, vocab)
    ensures Uniform(spools, Width(vocab))
  {
    if vocab.None? {
      forall i | 0 <= i < |spools| ensures spools[i] == [] {
        assert spools[i] == Demux(recorded, ids[i]);
      }
    }
  }

  lemma CountRecorded(ids: seq<nat>, spools: seq<seq<Step>>, recorded: seq<HostRow>)
    requires Demuxed(ids, spools, recorded)
    ensures Count(spools, |spools|) == 0 <==> recorded == []
  {
    if recorded == [] {
      forall i | 0 <= i < |spools| ensures spools[i] == [] {
        assert spools[i] == Demux(recorded, ids[i]);
      }
      NoRows(spools, |spools|);
    } else {
      var last := recorded[|recorded| - 1];
      assert last.requestId in ids;
      var i :| 0 <= i < |ids| && ids[i] == last.requestId;
      assert spools[i] == Demux(recorded, ids[i]) != [];
      if Count(spools, |spools|) == 0 {
        CountZero(spools, |spools|);
      }
    }
  }

  // ------------------------------------------------------------ round trip

  function GroupLogits(group: seq<Step>): seq<Value> {
    if group == [] then [] else group[0].logits + GroupLogits(group[1..])
  }

  /** The logits of all requests, request by request and step by step. */
  function AllLogits(groups: seq<seq<Step>>, n: nat): seq<Value>
    requires n <= |groups|
  {
    if n == 0 then [] else AllLogits(groups, n - 1) + GroupLogits(groups[n - 1])
  }

  function AllTokens(groups: seq<seq<Step>>): seq<seq<nat>> {
    seq(|groups|, i requires 0 <= i < |groups| => Tokens(groups[i]))
  }

  lemma {:induction false} RowLogitsAppend(a: seq<Line>, b: seq<Line>)
    ensures RowLogits(a + b) == RowLogits(a) + RowLogits(b)
  {
    if a == [] {
      assert a + b == b;
    } else {
      assert (a + b)[0] == a[0] && (a + b)[1..] == a[1..] + b;
      RowLogitsAppend(a[1..], b);
      var mine := if a[0].Row? then a[0].logits else [];
      assert mine + (RowLogits(a[1..]) + RowLogits(b)) == mine + RowLogits(a[1..]) + RowLogits(b);
    }
  }

  lemma {:induction false} GroupRowLogits(start: nat, p: nat, id: nat, group: seq<Step>, k: nat)
    requires k <= |group|
    ensures RowLogits(GroupLines(start, p, id, group)[k..]) == GroupLogits(group[k..])
    decreases |group| - k
  {
    var lines := GroupLines(start, p, id, group);
    if k < |group| {
      GroupRowLogits(start, p, id, group, k + 1);
      assert lines[k..][0] == lines[k] && lines[k..][1..] == lines[k + 1..];
      assert group[k..][0] == group[k] && group[k..][1..] == group[k + 1..];
    }
  }

  lemma {:induction false} EmittedLogits(ids: seq<nat>, g: seq<seq<Step>>, n: nat)
    requires n <= |g| == |ids|
    ensures RowLogits(EmitRows(ids, g, n)) == AllLogits(g, n)
  {
    if n > 0 {
      EmittedLogits(ids, g, n - 1);
      var lines := GroupLines(Count(g, n - 1), n - 1, ids[n - 1], g[n - 1]);
      RowLogitsAppend(EmitRows(ids, g, n - 1), lines);
      GroupRowLogits(Count(g, n - 1), n - 1, ids[n - 1], g[n - 1], 0);
      assert lines[0..] == lines && g[n - 1][0..] == g[n - 1];
    }
  }

  lemma BodyLogits(callId: string, ids: seq<nat>, g: seq<seq<Step>>, width: nat)
    requires |g| == |ids|
    ensures RowLogits(Emit(callId, ids, g, width)[1..]) == AllLogits(g, |g|)
  {
    var rows := EmitRows(ids, g, |g|);
    var trailer := Trailer(true, Count(g, |g|), DTYPE, (Count(g, |g|), width));
    DropHeader(Header(FORMAT, SCHEMA, callId, Bind(ids)), rows, trailer);
    TrailerCarriesNothing(rows, trailer);
    EmittedLogits(ids, g, |g|);
  }

  lemma DropHeader(header: Line, rows: seq<Line>, trailer: Line)
    ensures ([header] + rows + [trailer])[1..] == rows + [trailer]
  {
  }

  lemma TrailerCarriesNothing(rows: seq<Line>, trailer: Line)
    requires trailer.Trailer?
    ensures RowLogits(rows + [trailer]) == RowLogits(rows)
  {
    RowLogitsAppend(rows, [trailer]);
    assert [trailer][1..] == [];
    assert RowLogits([trailer]) == [];
  }

  /**
   The consumer reads back exactly what was spooled: all logits in request order, the tensor
   shape, and the tokens of every request.
   */
  lemma RoundTrip(callId: string, ids: seq<nat>, g: seq<seq<Step>>, width: nat, outputs: seq<Output>)
    requires |g| == |ids| && Distinct(ids) && Uniform(g, width)
    requires Produced(ids, g, outputs) && (Count(g, |g|) == 0 ==> width == 0)
    ensures ConsumerResult(Emit(callId, ids, g, width), callId, outputs)
         == Some(Generation(AllLogits(g, |g|), (Count(g, |g|), width), AllTokens(g)))
  {
    var lines := Emit(callId, ids, g, width);
    SelfCheckExact(callId, ids, g, width, outputs);
    ValidatorsAgree(lines, callId, ids, outputs);
    ConsumerValue(lines, callId, outputs);
    var c := ScanEmitted(callId, ids, g, width);
    assert lines[0] == Header(FORMAT, SCHEMA, callId, Bind(ids));
    assert c.tokens == AllTokens(g);
    BodyLogits(callId, ids, g, width);
  }
}
