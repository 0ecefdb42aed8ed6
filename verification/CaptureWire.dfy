/**
 The line protocol of a logit capture: a header, rows grouped by request, a trailer.
 */
module CaptureWire {
  /** A 32-bit logit, of which only finiteness matters. */
  datatype Value = Finite(value: real) | NonFinite

  datatype Binding = Binding(inputPosition: nat, requestId: nat)

  datatype Line =
    | Header(format: string, schema: nat, callId: string, requests: seq<Binding>)
    | Row(rowIndex: nat, inputPosition: nat, requestId: nat, token: nat, step: nat,
          dtype: string, width: nat, logits: seq<Value>)
    | Trailer(complete: bool, rowCount: nat, dtype: string, shape: (nat, nat))

  datatype Output = Output(requestId: nat, tokenIds: seq<nat>, finished: bool)

  const FORMAT := "vllm-oxide-internal-golden-jsonl-v1"
  const SCHEMA: nat := 1
  const DTYPE := "F32"

  /** One captured step of one request. */
  datatype Step = Step(token: nat, logits: seq<Value>)

  predicate AllFinite(logits: seq<Value>) {
    forall i :: 0 <= i < |logits| ==> logits[i].Finite?
  }

  function Tokens(group: seq<Step>): seq<nat> {
    seq(|group|, k requires 0 <= k < |group| => group[k].token)
  }

  function Bind(ids: seq<nat>): seq<Binding> {
    seq(|ids|, i requires 0 <= i < |ids| => Binding(i, ids[i]))
  }

  // -------------------------------------------------------- canonical form

  function RowLine(index: nat, position: nat, id: nat, step: nat, s: Step): Line {
    Row(index, position, id, s.token, step, DTYPE, |s.logits|, s.logits)
  }

  function GroupLines(start: nat, position: nat, id: nat, group: seq<Step>): seq<Line> {
    seq(|group|, k requires 0 <= k < |group| => RowLine(start + k, position, id, k, group[k]))
  }

  /** Number of rows of the first `n` requests. */
  function Count(groups: seq<seq<Step>>, n: nat): nat
    requires n <= |groups|
  {
    if n == 0 then 0 else Count(groups, n - 1) + |groups[n - 1]|
  }

  /** The rows of the first `n` requests, request by request, numbered consecutively. */
  function EmitRows(ids: seq<nat>, groups: seq<seq<Step>>, n: nat): (lines: seq<Line>)
    requires n <= |groups| == |ids|
    ensures |lines| == Count(groups, n)
  {
    if n == 0 then []
    else EmitRows(ids, groups, n - 1) + GroupLines(Count(groups, n - 1), n - 1, ids[n - 1], groups[n - 1])
  }

  /** All rows are finite and have the common positive width `width`. */
  ghost predicate Uniform(groups: seq<seq<Step>>, width: nat) {
    forall i, k :: 0 <= i < |groups| && 0 <= k < |groups[i]| ==>
      |groups[i][k].logits| == width > 0 && AllFinite(groups[i][k].logits)
  }

  /** The artifact of a session: `width` is the row width, or zero when there are no rows. */
  function Emit(callId: string, ids: seq<nat>, groups: seq<seq<Step>>, width: nat): seq<Line>
    requires |groups| == |ids|
  {
    [Header(FORMAT, SCHEMA, callId, Bind(ids))]
    + EmitRows(ids, groups, |groups|)
    + [Trailer(true, Count(groups, |groups|), DTYPE, (Count(groups, |groups|), width))]
  }

  /** `lines` is the artifact of these groups, and the groups produced these outputs. */
  ghost predicate Canonical(lines: seq<Line>, callId: string, ids: seq<nat>, outputs: seq<Output>,
                            groups: seq<seq<Step>>, width: nat) {
    && |ids| == |outputs| == |groups|
    && (forall i :: 0 <= i < |ids| ==>
          outputs[i].requestId == ids[i] && outputs[i].finished && Tokens(groups[i]) == outputs[i].tokenIds)
    && Uniform(groups, width)
    && (Count(groups, |groups|) == 0 ==> width == 0)
    && lines == Emit(callId, ids, groups, width)
  }

  // ---------------------------------------------------------------- lemmas

  lemma {:induction false} CountSame(a: seq<seq<Step>>, b: seq<seq<Step>>, n: nat)
    requires n <= |a| && n <= |b| && forall i :: 0 <= i < n ==> a[i] == b[i]
    ensures Count(a, n) == Count(b, n)
  {
    if n > 0 {
      CountSame(a, b, n - 1);
    }
  }

  lemma {:induction false} EmitSame(ids: seq<nat>, a: seq<seq<Step>>, b: seq<seq<Step>>, n: nat)
    requires n <= |a| == |b| == |ids| && forall i :: 0 <= i < n ==> a[i] == b[i]
    ensures EmitRows(ids, a, n) == EmitRows(ids, b, n)
  {
    if n > 0 {
      EmitSame(ids, a, b, n - 1);
      CountSame(a, b, n - 1);
    }
  }

  lemma {:induction false} TrailingEmpty(ids: seq<nat>, groups: seq<seq<Step>>, m: nat, n: nat)
    requires m <= n <= |groups| == |ids|
    requires forall i :: m <= i < n ==> groups[i] == []
    ensures EmitRows(ids, groups, n) == EmitRows(ids, groups, m) && Count(groups, n) == Count(groups, m)
  {
    if m < n {
      TrailingEmpty(ids, groups, m, n - 1);
    }
  }

  function Extend(groups: seq<seq<Step>>, position: nat, s: Step): seq<seq<Step>>
    requires position < |groups|
  {
    groups[position := groups[position] + [s]]
  }

  lemma GroupExtend(start: nat, position: nat, id: nat, group: seq<Step>, s: Step)
    ensures GroupLines(start, position, id, group + [s])
         == GroupLines(start, position, id, group) + [RowLine(start + |group|, position, id, |group|, s)]
  {
    var a := GroupLines(start, position, id, group + [s]);
    var b := GroupLines(start, position, id, group) + [RowLine(start + |group|, position, id, |group|, s)];
    assert |a| == |b|;
    forall k | 0 <= k < |a| ensures a[k] == b[k] {
    }
  }

  lemma EmitExtendLast(ids: seq<nat>, groups: seq<seq<Step>>, next: seq<seq<Step>>, position: nat, s: Step)
    requires position < |groups| == |ids| && next == Extend(groups, position, s)
    ensures Count(next, position + 1) == Count(groups, position + 1) + 1
    ensures EmitRows(ids, next, position + 1) == EmitRows(ids, groups, position + 1)
           + [RowLine(Count(groups, position + 1), position, ids[position], |groups[position]|, s)]
  {
    CountSame(groups, next, position);
    EmitSame(ids, groups, next, position);
    var start := Count(groups, position);
    GroupExtend(start, position, ids[position], groups[position], s);
    var before := EmitRows(ids, groups, position);
    var mine := GroupLines(start, position, ids[position], groups[position]);
    var row := RowLine(start + |groups[position]|, position, ids[position], |groups[position]|, s);
    assert EmitRows(ids, next, position + 1) == before + (mine + [row]);
    assert before + (mine + [row]) == before + mine + [row];
  }

  /** A row for the last non-empty request, or a later one, extends the emission at its end. */
  lemma EmitExtend(ids: seq<nat>, groups: seq<seq<Step>>, position: nat, s: Step)
    requires position < |groups| == |ids|
    requires forall i :: position < i < |groups| ==> groups[i] == []
    ensures var n := |groups|; var next := Extend(groups, position, s);
      && Count(next, n) == Count(groups, n) + 1
      && EmitRows(ids, next, n) == EmitRows(ids, groups, n)
           + [RowLine(Count(groups, n), position, ids[position], |groups[position]|, s)]
  {
    var next := Extend(groups, position, s);
    TrailingEmpty(ids, groups, position + 1, |groups|);
    TrailingEmpty(ids, next, position + 1, |groups|);
    EmitExtendLast(ids, groups, next, position, s);
  }
}
