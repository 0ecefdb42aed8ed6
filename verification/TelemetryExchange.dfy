/**
 Telemetry written by the producer and recomputed by the consumer.
 */
module TelemetryExchange {
  import opened Options
  import opened Sequences
  import opened Telemetry
  import opened TelemetryAudit

  datatype Record = Record(
    prefillTokens: nat, prefillNs: nat, prefillRate: real,
    decodeTokens: nat, decodeNs: nat, decodeRate: real,
    firsts: seq<(nat, nat)>, latencies: seq<(nat, nat)>, steps: seq<StepSample>)

  function Rate(tokens: nat, ns: nat): real
    requires ns > 0
  {
    tokens as real * 1000000000.0 / ns as real
  }

  /** Prefill and post-first decode samples are both present. */
  predicate HasSamples(a: Account) {
    a.prefillTokens > 0 && a.prefillNs > 0 && a.decodeTokens > 0 && a.decodeNs > 0
  }

  predicate AllStarted(ids: seq<nat>, first: map<nat, nat>) {
    forall i :: 0 <= i < |ids| ==> ids[i] in first
  }

  function Firsts(ids: seq<nat>, first: map<nat, nat>): seq<(nat, nat)>
    requires AllStarted(ids, first)
  {
    seq(|ids|, i requires 0 <= i < |ids| => (ids[i], first[ids[i]]))
  }

  function RecordOf(ids: seq<nat>, steps: seq<StepSample>, a: Account): Record
    requires AllStarted(ids, a.first) && HasSamples(a)
  {
    Record(a.prefillTokens, a.prefillNs, Rate(a.prefillTokens, a.prefillNs),
           a.decodeTokens, a.decodeNs, Rate(a.decodeTokens, a.decodeNs),
           Firsts(ids, a.first), a.latencies, steps)
  }

  ghost predicate Reportable(ids: seq<nat>, steps: seq<StepSample>) {
    && ids != [] && steps != [] && Distinct(ids)
    && Taken(ids, steps, |steps|).Some?
    && HasSamples(Taken(ids, steps, |steps|).value) && AllStarted(ids, Taken(ids, steps, |steps|).value.first)
  }

  ghost function Produced(ids: seq<nat>, steps: seq<StepSample>): Record
    requires Reportable(ids, steps)
  {
    RecordOf(ids, steps, Taken(ids, steps, |steps|).value)
  }

  method CollectFirsts(ids: seq<nat>, first: map<nat, nat>) returns (r: Option<seq<(nat, nat)>>)
    ensures r.Some? <==> AllStarted(ids, first)
    ensures r.Some? ==> r.value == Firsts(ids, first)
  {
    var firsts: seq<(nat, nat)> := [];
    for i := 0 to |ids|
      invariant |firsts| == i
      invariant forall k :: 0 <= k < i ==> ids[k] in first && firsts[k] == (ids[k], first[ids[k]])
    {
      if ids[i] !in first {
        return None;
      }
      firsts := firsts + [(ids[i], first[ids[i]])];
    }
    return Some(firsts);
  }

  method FromSamples(ids: seq<nat>, steps: seq<StepSample>) returns (r: Option<Record>)
    ensures r.Some? <==> Reportable(ids, steps)
    ensures r.Some? ==> r.value == Produced(ids, steps)
  {
    if ids == [] || steps == [] {
      return None;
    }
    DistinctCount(ids);
    if |ToSet(ids)| != |ids| {
      return None;
    }
    var taken := TakeSteps(ids, steps);
    if taken.None? {
      return None;
    }
    var a := taken.value;
    if !HasSamples(a) {
      return None;
    }
    var firsts := CollectFirsts(ids, a.first);
    if firsts.None? {
      return None;
    }
    return Some(Record(a.prefillTokens, a.prefillNs, Rate(a.prefillTokens, a.prefillNs),
                       a.decodeTokens, a.decodeNs, Rate(a.decodeTokens, a.decodeNs), firsts.value, a.latencies, steps));
  }

  // ---------------------------------------------------------------- meaning

  function PrefillTokens(steps: seq<StepSample>, n: nat): nat
    requires n <= |steps|
  {
    if n == 0 then 0 else PrefillTokens(steps, n - 1) + steps[n - 1].prefillTokens
  }

  function Duration(s: StepSample): nat { if s.started <= s.ended then s.ended - s.started else 0 }

  /** Time spent in steps that prefill. */
  function PrefillTime(steps: seq<StepSample>, n: nat): nat
    requires n <= |steps|
  {
    if n == 0 then 0
    else PrefillTime(steps, n - 1) + if steps[n - 1].prefillTokens > 0 then Duration(steps[n - 1]) else 0
  }

  /** Time spent in steps that emit a token after the first. */
  function DecodeTime(steps: seq<StepSample>, n: nat): nat
    requires n <= |steps|
  {
    if n == 0 then 0
    else DecodeTime(steps, n - 1) + if DecodesIn(steps[n - 1].emissions) then Duration(steps[n - 1]) else 0
  }

  lemma {:induction false} EmissionsKeepTotals(a: Account, es: seq<Emission>, n: nat)
    requires n <= |es| && EmittedAll(a, es, n).Some?
    ensures var b := EmittedAll(a, es, n).value;
      b.prefillTokens == a.prefillTokens && b.prefillNs == a.prefillNs && b.decodeNs == a.decodeNs
  {
    if n > 0 {
      EmissionsKeepTotals(a, es, n - 1);
    }
  }

  lemma {:induction false} TotalsAre(ids: seq<nat>, steps: seq<StepSample>, n: nat)
    requires n <= |steps| && Taken(ids, steps, n).Some?
    ensures var a := Taken(ids, steps, n).value;
      a.prefillTokens == PrefillTokens(steps, n) && a.prefillNs == PrefillTime(steps, n) && a.decodeNs == DecodeTime(steps, n)
  {
    if n > 0 {
      TotalsAre(ids, steps, n - 1);
      var a, s := Taken(ids, steps, n - 1).value, steps[n - 1];
      EmissionsKeepTotals(Opened(a, s), s.emissions, |s.emissions|);
    }
  }

  /** What an accepted telemetry record says about the emissions it came from. */
  ghost predicate Meaning(ids: seq<nat>, es: seq<Emission>, r: Record) {
    && r.decodeTokens == |es| - |ids| == |r.latencies|
    && |r.firsts| == |ids|
    && (forall i :: 0 <= i < |ids| ==> r.firsts[i].0 == ids[i] && FirstTime(es, ids[i]) == Some(r.firsts[i].1))
    && (forall i :: 0 <= i < |r.latencies| ==> r.latencies[i].1 > 0)
    && (forall i :: 0 <= i < |ids| ==>
          LastTime(es, ids[i]) == Some(r.firsts[i].1 + LatencySum(r.latencies, ids[i])))
  }

  lemma StartedAll(ids: seq<nat>, a: Account, es: seq<Emission>)
    requires Distinct(ids) && Tabled(ids, a, es) && AllStarted(ids, a.first) && Telescoped(a)
    ensures |a.first| == |ids|
  {
    DistinctCount(ids);
    assert a.first.Keys == ToSet(ids) by {
      forall id | id in a.first ensures id in ToSet(ids) {
        TimesExist(es, id);
      }
    }
  }

  lemma RequestMeans(ids: seq<nat>, a: Account, es: seq<Emission>, id: nat)
    requires Tabled(ids, a, es) && Telescoped(a) && id in a.first
    ensures FirstTime(es, id) == Some(a.first[id])
    ensures LastTime(es, id) == Some(a.first[id] + LatencySum(a.latencies, id))
  {
    TimesExist(es, id);
  }

  lemma AccountMeans(ids: seq<nat>, steps: seq<StepSample>, a: Account, es: seq<Emission>)
    requires Distinct(ids) && Inv(ids, a, es) && AllStarted(ids, a.first) && HasSamples(a)
    ensures Meaning(ids, es, RecordOf(ids, steps, a))
  {
    StartedAll(ids, a, es);
    forall i | 0 <= i < |ids|
      ensures FirstTime(es, ids[i]) == Some(a.first[ids[i]])
      ensures LastTime(es, ids[i]) == Some(a.first[ids[i]] + LatencySum(a.latencies, ids[i]))
    {
      RequestMeans(ids, a, es, ids[i]);
    }
  }

  /** Conservation and telescoping, for every accepted step list. */
  lemma ProducedMeans(ids: seq<nat>, steps: seq<StepSample>)
    requires Reportable(ids, steps)
    ensures Meaning(ids, Emissions(steps, |steps|), Produced(ids, steps))
    ensures var r := Produced(ids, steps); var n := |steps|;
      r.prefillTokens == PrefillTokens(steps, n) && r.prefillNs == PrefillTime(steps, n) && r.decodeNs == DecodeTime(steps, n)
  {
    var a, es := Taken(ids, steps, |steps|).value, Emissions(steps, |steps|);
    AccountMeans(ids, steps, a, es) by { TakenInv(ids, steps, |steps|); }
    TotalsAre(ids, steps, |steps|);
  }

  // --------------------------------------------------------------- consumer

  const TOKENS_PER_REQUEST: nat := 64

  /** Distance between one and the next double-precision number. */
  const EPSILON := 1.0 / 4503599627370496.0

  predicate Close(x: real, y: real) { -EPSILON <= x - y <= EPSILON }

  /** The telemetry of an artifact, with the phases as text. */
  datatype RawTelemetry = RawTelemetry(
    prefillTokens: nat, prefillNs: nat, prefillRate: real,
    decodeTokens: nat, decodeNs: nat, decodeRate: real,
    firsts: seq<(nat, nat)>, latencies: seq<(nat, nat)>, steps: seq<RawStep>)

  predicate Finished(b: Books) {
    forall id :: id in b.completionSteps ==> b.completionSteps[id] == TOKENS_PER_REQUEST
  }

  predicate HasTotals(b: Books) {
    b.prefillTokens > 0 && b.prefillNs > 0 && b.decodeTokens > 0 && b.decodeNs > 0
  }

  /** Every figure is recomputed from the steps; only the rates have a tolerance. */
  predicate Matches(ids: seq<nat>, b: Books, t: RawTelemetry)
    requires AllStarted(ids, b.timeToFirst) && HasTotals(b)
  {
    && b.prefillTokens == t.prefillTokens && b.prefillNs == t.prefillNs
    && b.decodeTokens == t.decodeTokens && b.decodeNs == t.decodeNs
    && Close(Rate(b.prefillTokens, b.prefillNs), t.prefillRate) && Close(Rate(b.decodeTokens, b.decodeNs), t.decodeRate)
    && t.firsts == Firsts(ids, b.timeToFirst) && t.latencies == b.latencies
  }

  ghost predicate ConsumerAccepts(ids: seq<nat>, requests: nat, t: RawTelemetry) {
    && |ids| == requests && Distinct(ids)
    && Audited(ids, t.steps, |t.steps|).Kept?
    && var b := Audited(ids, t.steps, |t.steps|).books;
       HasTotals(b) && Finished(b) && AllStarted(ids, b.timeToFirst) && Matches(ids, b, t)
  }

  method CountsFinished(b: Books) returns (ok: bool)
    ensures ok <==> Finished(b)
  {
    var rest := b.completionSteps.Keys;
    while rest != {}
      invariant rest <= b.completionSteps.Keys
      invariant forall id :: id in b.completionSteps && id !in rest ==> b.completionSteps[id] == TOKENS_PER_REQUEST
    {
      var id :| id in rest;
      if b.completionSteps[id] != TOKENS_PER_REQUEST {
        return false;
      }
      rest := rest - {id};
    }
    return true;
  }

  method ValidatePrivateTelemetry(ids: seq<nat>, requests: nat, t: RawTelemetry) returns (ok: bool)
    ensures ok <==> ConsumerAccepts(ids, requests, t)
  {
    DistinctCount(ids);
    if |ids| != requests || |ToSet(ids)| != requests {
      return false;
    }
    var audit := RunAudit(ids, t.steps);
    if audit.Refused? {
      return false;
    }
    var b := audit.books;
    var finished := CountsFinished(b);
    if !HasTotals(b) || !finished {
      return false;
    }
    if b.prefillTokens != t.prefillTokens || b.prefillNs != t.prefillNs
       || b.decodeTokens != t.decodeTokens || b.decodeNs != t.decodeNs {
      return false;
    }
    var firsts := CollectFirsts(ids, b.timeToFirst);
    if firsts.None? {
      return false;
    }
    return Close(Rate(b.prefillTokens, b.prefillNs), t.prefillRate)
        && Close(Rate(b.decodeTokens, b.decodeNs), t.decodeRate)
        && t.firsts == firsts.value && t.latencies == b.latencies;
  }

  // --------------------------------------------------------------- exchange

  function Text(phase: Phase): string {
    match phase
    case Prefill => "prefill"
    case Decode => "decode"
    case Mixed => "mixed"
  }

  function WrittenStep(s: StepSample): RawStep {
    RawStep(Text(s.phase), s.started, s.ended, s.prefillTokens, s.emissions)
  }

  function WrittenSteps(steps: seq<StepSample>): seq<RawStep> {
    seq(|steps|, i requires 0 <= i < |steps| => WrittenStep(steps[i]))
  }

  /** What the producer writes. */
  function Written(r: Record): RawTelemetry {
    RawTelemetry(r.prefillTokens, r.prefillNs, r.prefillRate, r.decodeTokens, r.decodeNs, r.decodeRate,
                 r.firsts, r.latencies, WrittenSteps(r.steps))
  }

  lemma StepsRoundTrip(steps: seq<StepSample>)
    ensures TypedAll(WrittenSteps(steps)) == steps && AllKnown(WrittenSteps(steps), |steps|)
  {
    forall i | 0 <= i < |steps| ensures Typed(WrittenStep(steps[i])) == steps[i] && KnownPhase(Text(steps[i].phase)) {
    }
  }

  lemma KnownStepsRoundTrip(steps: seq<RawStep>)
    requires AllKnown(steps, |steps|)
    ensures WrittenSteps(TypedAll(steps)) == steps
  {
    forall i | 0 <= i < |steps| ensures WrittenStep(Typed(steps[i])) == steps[i] {
      assert KnownPhase(steps[i].phase);
    }
  }

  /** The consumer recomputes the producer's account from the written steps. */
  lemma AuditOfWritten(ids: seq<nat>, steps: seq<StepSample>)
    requires Taken(ids, steps, |steps|).Some?
    ensures var r := Audited(ids, WrittenSteps(steps), |steps|);
      r.Kept? && View(r.books) == Taken(ids, steps, |steps|).value
  {
    StepsRoundTrip(steps);
    AuditReproduces(ids, WrittenSteps(steps), |steps|);
  }

  lemma CountsAre(ids: seq<nat>, steps: seq<StepSample>, a: Account)
    requires Taken(ids, steps, |steps|) == Some(a)
    ensures (forall id :: id in a.next ==> a.next[id] == TOKENS_PER_REQUEST)
       <==> forall i :: 0 <= i < |ids| ==> Count(Emissions(steps, |steps|), ids[i]) == TOKENS_PER_REQUEST
  {
    var es := Emissions(steps, |steps|);
    assert Tabled(ids, a, es) by { TakenInv(ids, steps, |steps|); }
    forall i | 0 <= i < |ids| ensures ids[i] in a.next && a.next[ids[i]] == Count(es, ids[i]) {
      assert ids[i] in ToSet(ids);
    }
    assert forall id :: id in a.next ==> exists i :: 0 <= i < |ids| && ids[i] == id;
  }

  /** The consumer accepts a produced record exactly when every request emitted the fixed number of tokens. */
  lemma ConsumerAcceptsProduced(ids: seq<nat>, steps: seq<StepSample>)
    requires Reportable(ids, steps)
    ensures ConsumerAccepts(ids, |ids|, Written(Produced(ids, steps)))
       <==> forall i :: 0 <= i < |ids| ==> Count(Emissions(steps, |steps|), ids[i]) == TOKENS_PER_REQUEST
  {
    AuditOfWritten(ids, steps);
    CountsAre(ids, steps, Taken(ids, steps, |steps|).value);
  }

  /** Conversely, whatever the consumer accepts is, up to rounding of the rates, what the producer writes. */
  lemma AcceptedWasProducible(ids: seq<nat>, requests: nat, t: RawTelemetry)
    requires ConsumerAccepts(ids, requests, t)
    ensures Reportable(ids, TypedAll(t.steps))
    ensures var r := Produced(ids, TypedAll(t.steps));
      t == Written(r).(prefillRate := t.prefillRate, decodeRate := t.decodeRate)
      && Close(r.prefillRate, t.prefillRate) && Close(r.decodeRate, t.decodeRate)
  {
    var steps, n := TypedAll(t.steps), |t.steps|;
    AuditReproduces(ids, t.steps, n);
    assert AllKnown(t.steps, n) && Taken(ids, steps, n) == Some(View(Audited(ids, t.steps, n).books));
    KnownStepsRoundTrip(t.steps);
    if ids == [] {
      TakenInv(ids, steps, n);
      NoRequests(ids, Taken(ids, steps, n).value, Emissions(steps, n));
    }
  }

  lemma NoRequests(ids: seq<nat>, a: Account, es: seq<Emission>)
    requires ids == [] && Inv(ids, a, es)
    ensures a.decodeTokens == 0
  {
    assert a.next.Keys == {} && a.last.Keys == {};
    if a.latencies != [] {
      LastCounts(a.latencies);
    }
  }

  lemma LastCounts(ls: seq<(nat, nat)>)
    requires ls != []
    ensures LatencySum(ls, ls[|ls| - 1].0) >= ls[|ls| - 1].1
  {
  }
}
