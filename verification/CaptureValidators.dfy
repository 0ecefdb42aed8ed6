/**
 The two validators of a capture artifact.  The producer checks its own artifact
 against the session's bindings and compares tokens only at the end; the consumer
 takes the bindings from the artifact and compares every token as it is read.
 */
module CaptureValidators {
  import opened Options
  import opened CaptureWire

  // -------------------------------------------------------------- producer

  datatype Scan = Scan(
    steps: seq<nat>,
    tokens: seq<seq<nat>>,
    rowCount: nat,
    width: Option<nat>,
    last: Option<nat>,
    trailer: Option<Line>)

  predicate Sized(c: Scan, n: nat) { |c.steps| == n && |c.tokens| == n }

  function InitialScan(n: nat): (c: Scan)
    ensures Sized(c, n)
  {
    Scan(seq(n, _ => 0), seq(n, _ => []), 0, None, None, None)
  }

  function ProducerRow(c: Scan, row: Line, bindings: seq<Binding>): (r: Option<Scan>)
    requires Sized(c, |bindings|) && row.Row?
    ensures r.Some? ==> Sized(r.value, |bindings|)
  {
    var p := row.inputPosition;
    if c.trailer.Some? then None
    else if row.rowIndex != c.rowCount then None
    else if c.last.Some? && p < c.last.value then None
    else if p >= |bindings| then None
    else if row.requestId != bindings[p].requestId then None
    else if row.step != c.steps[p] then None
    else if row.dtype != DTYPE || row.width == 0 || row.width != |row.logits| || !AllFinite(row.logits) then None
    else if c.width.Some? && c.width.value != row.width then None
    else Some(Scan(c.steps[p := c.steps[p] + 1], c.tokens[p := c.tokens[p] + [row.token]], c.rowCount + 1,
                   Some(row.width), Some(p), None))
  }

  function ProducerLine(c: Scan, line: Line, bindings: seq<Binding>): (r: Option<Scan>)
    requires Sized(c, |bindings|)
    ensures r.Some? ==> Sized(r.value, |bindings|)
  {
    match line
    case Row(_, _, _, _, _, _, _, _) => ProducerRow(c, line, bindings)
    case Trailer(_, _, _, _) => if c.trailer.Some? then None else Some(c.(trailer := Some(line)))
    case Header(_, _, _, _) => None
  }

  function ProducerRun(c: Scan, lines: seq<Line>, bindings: seq<Binding>): (r: Option<Scan>)
    requires Sized(c, |bindings|)
    ensures r.Some? ==> Sized(r.value, |bindings|)
    decreases |lines|
  {
    if lines == [] then Some(c)
    else match ProducerLine(c, lines[0], bindings)
         case None => None
         case Some(d) => ProducerRun(d, lines[1..], bindings)
  }

  predicate TrailerOk(c: Scan) {
    var width := if c.width.Some? then c.width.value else 0;
    && c.trailer.Some? && c.trailer.value.Trailer?
    && c.trailer.value.complete && c.trailer.value.rowCount == c.rowCount && c.trailer.value.dtype == DTYPE
    && c.trailer.value.shape == (c.rowCount, width)
  }

  predicate OutputsMatch(bindings: seq<Binding>, outputs: seq<Output>) {
    && |outputs| == |bindings|
    && forall i :: 0 <= i < |bindings| ==> outputs[i].requestId == bindings[i].requestId && outputs[i].finished
  }

  predicate TokensMatch(tokens: seq<seq<nat>>, outputs: seq<Output>)
    requires |tokens| == |outputs|
  {
    forall i :: 0 <= i < |outputs| ==> tokens[i] == outputs[i].tokenIds
  }

  predicate ProducerAccepts(lines: seq<Line>, callId: string, bindings: seq<Binding>, outputs: seq<Output>) {
    && OutputsMatch(bindings, outputs)
    && lines != [] && lines[0] == Header(FORMAT, SCHEMA, callId, bindings)
    && match ProducerRun(InitialScan(|bindings|), lines[1..], bindings)
       case None => false
       case Some(c) => TrailerOk(c) && TokensMatch(c.tokens, outputs)
  }

  method ValidateArtifact(lines: seq<Line>, callId: string, bindings: seq<Binding>, outputs: seq<Output>)
    returns (ok: bool)
    ensures ok == ProducerAccepts(lines, callId, bindings, outputs)
  {
    if |outputs| != |bindings| {
      return false;
    }
    for i := 0 to |bindings|
      invariant forall k :: 0 <= k < i ==> outputs[k].requestId == bindings[k].requestId && outputs[k].finished
    {
      if bindings[i].requestId != outputs[i].requestId || !outputs[i].finished {
        return false;
      }
    }
    if lines == [] || lines[0] != Header(FORMAT, SCHEMA, callId, bindings) {
      return false;
    }
    var body := lines[1..];
    var c := InitialScan(|bindings|);
    for i := 0 to |body|
      invariant Sized(c, |bindings|)
      invariant ProducerRun(InitialScan(|bindings|), body, bindings) == ProducerRun(c, body[i..], bindings)
    {
      assert body[i..][0] == body[i] && body[i..][1..] == body[i + 1..];
      var next := ProducerLine(c, body[i], bindings);
      if next.None? {
        return false;
      }
      c := next.value;
    }
    assert body[|body|..] == [];
    if !TrailerOk(c) {
      return false;
    }
    for i := 0 to |outputs|
      invariant forall k :: 0 <= k < i ==> c.tokens[k] == outputs[k].tokenIds
    {
      if c.tokens[i] != outputs[i].tokenIds {
        return false;
      }
    }
    return true;
  }

  // -------------------------------------------------------------- consumer

  datatype Reading = Reading(
    steps: seq<nat>,
    tokens: seq<seq<nat>>,
    logits: seq<Value>,
    rowCount: nat,
    width: Option<nat>,
    last: Option<nat>,
    trailer: Option<Line>)

  datatype Generation = Generation(logits: seq<Value>, shape: (nat, nat), tokens: seq<seq<nat>>)

  predicate ReadingSized(c: Reading, n: nat) { |c.steps| == n && |c.tokens| == n }

  function InitialReading(n: nat): (c: Reading)
    ensures ReadingSized(c, n)
  {
    Reading(seq(n, _ => 0), seq(n, _ => []), [], 0, None, None, None)
  }

  function ConsumerRow(c: Reading, row: Line, bindings: seq<Binding>, outputs: seq<Output>): (r: Option<Reading>)
    requires ReadingSized(c, |bindings|) && |outputs| == |bindings| && row.Row?
    ensures r.Some? ==> ReadingSized(r.value, |bindings|)
  {
    var p := row.inputPosition;
    if c.trailer.Some? then None
    else if row.rowIndex != c.rowCount then None
    else if c.last.Some? && p < c.last.value then None
    else if p >= |bindings| then None
    else if row.requestId != bindings[p].requestId then None
    else if row.step != c.steps[p] then None
    else if row.step >= |outputs[p].tokenIds| then None
    else if row.token != outputs[p].tokenIds[row.step] then None
    else if row.dtype != DTYPE || row.width == 0 || row.width != |row.logits| || !AllFinite(row.logits) then None
    else if c.width.Some? && c.width.value != row.width then None
    else Some(Reading(c.steps[p := c.steps[p] + 1], c.tokens[p := c.tokens[p] + [row.token]],
                      c.logits + row.logits, c.rowCount + 1, Some(row.width), Some(p), None))
  }

  function ConsumerLine(c: Reading, line: Line, bindings: seq<Binding>, outputs: seq<Output>): (r: Option<Reading>)
    requires ReadingSized(c, |bindings|) && |outputs| == |bindings|
    ensures r.Some? ==> ReadingSized(r.value, |bindings|)
  {
    match line
    case Row(_, _, _, _, _, _, _, _) => ConsumerRow(c, line, bindings, outputs)
    case Trailer(_, _, _, _) => if c.trailer.Some? then None else Some(c.(trailer := Some(line)))
    case Header(_, _, _, _) => None
  }

  function ConsumerRun(c: Reading, lines: seq<Line>, bindings: seq<Binding>, outputs: seq<Output>): (r: Option<Reading>)
    requires ReadingSized(c, |bindings|) && |outputs| == |bindings|
    ensures r.Some? ==> ReadingSized(r.value, |bindings|)
    decreases |lines|
  {
    if lines == [] then Some(c)
    else match ConsumerLine(c, lines[0], bindings, outputs)
         case None => None
         case Some(d) => ConsumerRun(d, lines[1..], bindings, outputs)
  }

  predicate ReadingTrailerOk(c: Reading) {
    var width := if c.width.Some? then c.width.value else 0;
    && c.trailer.Some? && c.trailer.value.Trailer?
    && c.trailer.value.complete && c.trailer.value.rowCount == c.rowCount && c.trailer.value.dtype == DTYPE
    && c.trailer.value.shape == (c.rowCount, width)
    && |c.logits| == c.rowCount * width
  }

  /** The bindings an artifact declares must list the outputs in order, without repetition. */
  predicate BindingsOk(bindings: seq<Binding>, outputs: seq<Output>) {
    && |bindings| == |outputs|
    && (forall i :: 0 <= i < |bindings| ==>
          bindings[i] == Binding(i, outputs[i].requestId) && outputs[i].finished)
    && (forall i, j :: 0 <= i < j < |bindings| ==> bindings[i].requestId != bindings[j].requestId)
  }

  method ValidateBindings(bindings: seq<Binding>, outputs: seq<Output>) returns (ok: bool)
    ensures ok <==> BindingsOk(bindings, outputs)
  {
    if |bindings| != |outputs| {
      return false;
    }
    var seen: set<nat> := {};
    for i := 0 to |bindings|
      invariant seen == set k | 0 <= k < i :: bindings[k].requestId
      invariant forall k :: 0 <= k < i ==> bindings[k] == Binding(k, outputs[k].requestId) && outputs[k].finished
      invariant forall k, m :: 0 <= k < m < i ==> bindings[k].requestId != bindings[m].requestId
    {
      var b := bindings[i];
      if b.inputPosition != i || b.requestId != outputs[i].requestId || !outputs[i].finished || b.requestId in seen {
        return false;
      }
      seen := seen + {b.requestId};
    }
    return true;
  }

  function ConsumerResult(lines: seq<Line>, callId: string, outputs: seq<Output>): Option<Generation> {
    if lines == [] || !lines[0].Header? || lines[0].format != FORMAT || lines[0].schema != SCHEMA
       || lines[0].callId != callId || !BindingsOk(lines[0].requests, outputs) then None
    else
      var bindings := lines[0].requests;
      match ConsumerRun(InitialReading(|bindings|), lines[1..], bindings, outputs)
      case None => None
      case Some(c) =>
        if ReadingTrailerOk(c) && TokensMatch(c.tokens, outputs)
        then Some(Generation(c.logits, (c.rowCount, if c.width.Some? then c.width.value else 0), c.tokens))
        else None
  }

  method ReadAndValidateCapture(lines: seq<Line>, callId: string, outputs: seq<Output>)
    returns (r: Option<Generation>)
    ensures r == ConsumerResult(lines, callId, outputs)
  {
    if lines == [] || !lines[0].Header? {
      return None;
    }
    if lines[0].format != FORMAT || lines[0].schema != SCHEMA || lines[0].callId != callId {
      return None;
    }
    var bindings := lines[0].requests;
    var bound := ValidateBindings(bindings, outputs);
    if !bound {
      return None;
    }
    var body := lines[1..];
    var c := InitialReading(|bindings|);
    for i := 0 to |body|
      invariant ReadingSized(c, |bindings|)
      invariant ConsumerRun(InitialReading(|bindings|), body, bindings, outputs)
             == ConsumerRun(c, body[i..], bindings, outputs)
    {
      assert body[i..][0] == body[i] && body[i..][1..] == body[i + 1..];
      var next := ConsumerLine(c, body[i], bindings, outputs);
      if next.None? {
        return None;
      }
      c := next.value;
    }
    assert body[|body|..] == [];
    if !ReadingTrailerOk(c) {
      return None;
    }
    for i := 0 to |outputs|
      invariant forall k :: 0 <= k < i ==> c.tokens[k] == outputs[k].tokenIds
    {
      if c.tokens[i] != outputs[i].tokenIds {
        return None;
      }
    }
    return Some(Generation(c.logits, (c.rowCount, if c.width.Some? then c.width.value else 0), c.tokens));
  }
}
