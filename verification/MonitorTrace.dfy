/**
 The record of one direct NVML memory measurement: how a completed query is
 retained, and how the retained samples become accepted evidence.
 Times are nanoseconds on one monotone clock.
 */
module MonitorTrace {
  import opened Options
  import opened Numbers

  const INTERVAL: nat := 5_000_000
  const LIMIT: nat := 50_000_000
  const NS_PER_MS: nat := 1_000_000
  const BYTES_PER_MIB: nat := 1024 * 1024
  const U64: nat := 0x1_0000_0000_0000_0000

  datatype Result<+T> = Ok(value: T) | Err(error: Failure)

  datatype Failure =
    | FactoryFailed | InitializeFailed | SenderGone | StorageExhausted | PendingMissing
    | Nonmonotonic | BadInterval | MissingSpan | SpanTooLong | MissingCode | BadCode
    | MissingBytes | BadAccounting | MissingObservation | ElapsedOverflow | ReceiverGone
    | WorkerPanicked | BaselineMissing | BadPolling | Interrupted | ForeignProcess
    | TooFewSamples | SampleGap

  datatype Memory = Memory(total: nat, free: nat, used: nat)

  datatype RawSample = RawSample(
    enter: nat,
    returned: Option<nat>,
    span: Option<nat>,
    observed: Option<nat>,
    code: Option<int>,
    bytes: Option<Memory>,
    final: bool)

  datatype MemorySample = MemorySample(elapsedMs: nat, usedMib: nat)

  function ValidateMemory(code: int, memory: Option<Memory>): Result<Memory> {
    if code != 0 then Err(BadCode)
    else if memory.None? then Err(MissingBytes)
    else if memory.value.total == 0 || memory.value.free + memory.value.used != memory.value.total
    then Err(BadAccounting)
    else Ok(memory.value)
  }

  /** A completion gap, rounded up to whole milliseconds, if it is positive and within the limit. */
  function ObservedInterval(gap: nat): Result<nat> {
    if gap >= U64 || gap == 0 || gap > LIMIT then Err(BadInterval)
    else Ok((gap + NS_PER_MS - 1) / NS_PER_MS)
  }

  datatype Samples = Samples(
    raw: seq<RawSample>,
    projected: seq<MemorySample>,
    baseline: Option<nat>,
    maximumGap: nat)

  /** The record after one completed query, and the reason for rejecting it, if any. */
  function Retain(t: Samples, sample: RawSample): (Samples, Option<Failure>) {
    var last := if t.raw == [] then None else t.raw[|t.raw| - 1].observed;
    var pushed := t.(raw := t.raw + [sample]);
    if last.Some? && sample.observed.Some? then
      if sample.observed.value < last.value then (pushed, Some(Nonmonotonic))
      else
        var gap := sample.observed.value - last.value;
        var widened := pushed.(maximumGap := Max(t.maximumGap, gap));
        if ObservedInterval(gap).Err? then (widened, Some(BadInterval)) else Project(widened, sample)
    else Project(pushed, sample)
  }

  function Project(t: Samples, sample: RawSample): (Samples, Option<Failure>) {
    if sample.span.None? then (t, Some(MissingSpan))
    else if sample.span.value > LIMIT then (t, Some(SpanTooLong))
    else if sample.code.None? then (t, Some(MissingCode))
    else
      var memory := ValidateMemory(sample.code.value, sample.bytes);
      if memory.Err? then (t, Some(memory.error))
      else if sample.observed.None? then (t, Some(MissingObservation))
      else
        var observed := sample.observed.value;
        var baseline := if t.baseline.Some? then t.baseline.value else observed;
        var anchored := t.(baseline := Some(baseline));
        if observed < baseline then (anchored, Some(Nonmonotonic))
        else if (observed - baseline) / NS_PER_MS >= U64 then (anchored, Some(ElapsedOverflow))
        else
          var projection := MemorySample((observed - baseline) / NS_PER_MS, memory.value.used / BYTES_PER_MIB);
          (anchored.(projected := t.projected + [projection]), None)
  }

  /** The growing record behind the snapshot mutex. */
  class TraceStore {
    var raw: seq<RawSample>
    var projected: seq<MemorySample>
    var baseline: Option<nat>
    var maximumGap: nat

    constructor ()
      ensures View() == Samples([], [], None, 0)
    {
      raw, projected, baseline, maximumGap := [], [], None, 0;
    }

    ghost function View(): Samples
      reads this
    {
      Samples(raw, projected, baseline, maximumGap)
    }

    /** Pushes the sample first, so that a rejected sample stays on record. */
    method RetainSample(sample: RawSample) returns (failure: Option<Failure>)
      modifies this
      ensures (View(), failure) == Retain(old(View()), sample)
    {
      var last := if raw == [] then None else raw[|raw| - 1].observed;
      raw := raw + [sample];
      if last.Some? && sample.observed.Some? {
        if sample.observed.value < last.value {
          return Some(Nonmonotonic);
        }
        var gap := sample.observed.value - last.value;
        maximumGap := Max(maximumGap, gap);
        if ObservedInterval(gap).Err? {
          return Some(BadInterval);
        }
      }
      if sample.span.None? {
        return Some(MissingSpan);
      }
      if sample.span.value > LIMIT {
        return Some(SpanTooLong);
      }
      if sample.code.None? {
        return Some(MissingCode);
      }
      var memory := ValidateMemory(sample.code.value, sample.bytes);
      if memory.Err? {
        return Some(memory.error);
      }
      if sample.observed.None? {
        return Some(MissingObservation);
      }
      var observed := sample.observed.value;
      if baseline.None? {
        baseline := Some(observed);
      }
      if observed < baseline.value {
        return Some(Nonmonotonic);
      }
      if (observed - baseline.value) / NS_PER_MS >= U64 {
        return Some(ElapsedOverflow);
      }
      projected := projected + [MemorySample((observed - baseline.value) / NS_PER_MS, memory.value.used / BYTES_PER_MIB)];
      return None;
    }
  }

  // --------------------------------------------------------- sound records

  /** A completed query whose answer was accepted. */
  ghost predicate Sound(r: RawSample) {
    && r.returned.Some? && r.observed.Some? && r.span.Some? && r.code == Some(0) && r.bytes.Some?
    && r.enter <= r.returned.value <= r.observed.value
    && r.span.value == r.returned.value - r.enter <= LIMIT
    && ValidateMemory(0, r.bytes).Ok?
  }

  /** Sampled on the schedule "previous observation + 5 ms", never more than 50 ms later. */
  ghost predicate Follows(p: RawSample, r: RawSample) {
    && p.observed.Some? && r.observed.Some?
    && p.observed.value + INTERVAL <= r.enter <= r.observed.value
    && r.observed.value - p.observed.value <= LIMIT
  }

  ghost predicate IsProjection(raw: seq<RawSample>, i: nat, m: MemorySample)
    requires i < |raw| && raw[0].observed.Some? && raw[i].observed.Some? && raw[i].bytes.Some?
  {
    && raw[0].observed.value <= raw[i].observed.value
    && m.elapsedMs == (raw[i].observed.value - raw[0].observed.value) / NS_PER_MS
    && m.usedMib == raw[i].bytes.value.used / BYTES_PER_MIB
  }

  ghost predicate AllSound(raw: seq<RawSample>) { forall i :: 0 <= i < |raw| ==> Sound(raw[i]) }

  ghost predicate OnSchedule(raw: seq<RawSample>) { forall i :: 0 < i < |raw| ==> Follows(raw[i - 1], raw[i]) }

  ghost predicate GapsWithin(raw: seq<RawSample>, gap: nat) {
    forall i :: 0 < i < |raw| && Follows(raw[i - 1], raw[i]) ==> raw[i].observed.value - raw[i - 1].observed.value <= gap
  }

  ghost predicate AllProjected(raw: seq<RawSample>, projected: seq<MemorySample>)
    requires AllSound(raw)
  {
    |projected| == |raw| && forall i :: 0 <= i < |raw| ==> IsProjection(raw, i, projected[i])
  }

  ghost predicate GoodSamples(t: Samples) {
    && AllSound(t.raw) && OnSchedule(t.raw) && GapsWithin(t.raw, t.maximumGap) && AllProjected(t.raw, t.projected)
    && t.maximumGap <= LIMIT
    && (|t.raw| >= 2 ==> t.maximumGap > 0)
    && t.baseline == (if t.raw == [] then None else t.raw[0].observed)
  }

  /** What a retained sample did to the record, when there was no failure. */
  lemma RetainEffect(t: Samples, sample: RawSample)
    requires GoodSamples(t)
    requires sample.returned.Some? && sample.span == Some(sample.returned.value - sample.enter)
    requires sample.enter <= sample.returned.value
    requires sample.observed.Some? ==> sample.returned.value <= sample.observed.value
    requires Retain(t, sample).1.None?
    ensures Sound(sample)
    ensures var r := Retain(t, sample).0;
      && r.raw == t.raw + [sample] && |r.projected| == |t.raw| + 1 && r.projected[..|t.raw|] == t.projected
      && r.baseline == (if t.raw == [] then sample.observed else t.baseline)
      && IsProjection(r.raw, |t.raw|, r.projected[|t.raw|])
      && (t.raw == [] ==> r.maximumGap == t.maximumGap)
      && (t.raw != [] ==>
            var gap := sample.observed.value - t.raw[|t.raw| - 1].observed.value;
            0 <= gap <= LIMIT && r.maximumGap == Max(t.maximumGap, gap))
  {
  }

  lemma AppendSchedule(raw: seq<RawSample>, sample: RawSample, before: nat, after: nat)
    requires AllSound(raw) && OnSchedule(raw) && GapsWithin(raw, before) && before <= after && Sound(sample)
    requires raw != [] ==> Follows(raw[|raw| - 1], sample)
    requires raw != [] ==> sample.observed.value - raw[|raw| - 1].observed.value <= after
    ensures AllSound(raw + [sample]) && OnSchedule(raw + [sample]) && GapsWithin(raw + [sample], after)
  {
  }

  lemma AppendProjection(raw: seq<RawSample>, sample: RawSample, projected: seq<MemorySample>, m: MemorySample)
    requires AllSound(raw) && AllProjected(raw, projected) && Sound(sample) && AllSound(raw + [sample])
    requires IsProjection(raw + [sample], |raw|, m)
    ensures AllProjected(raw + [sample], projected + [m])
  {
    var all := raw + [sample];
    forall i | 0 <= i < |raw| ensures IsProjection(all, i, projected[i]) {
      ProjectionKept(raw, all, i, projected[i]);
    }
  }

  lemma ProjectionKept(a: seq<RawSample>, b: seq<RawSample>, i: nat, m: MemorySample)
    requires i < |a| <= |b| && a[0] == b[0] && a[i] == b[i]
    requires a[0].observed.Some? && a[i].observed.Some? && a[i].bytes.Some? && IsProjection(a, i, m)
    ensures IsProjection(b, i, m)
  {
  }

  /** Retaining an on-schedule sample without a failure keeps the record good. */
  lemma RetainKeepsGood(t: Samples, sample: RawSample)
    requires GoodSamples(t)
    requires sample.returned.Some? && sample.span == Some(sample.returned.value - sample.enter)
    requires sample.enter <= sample.returned.value
    requires sample.observed.Some? ==> sample.returned.value <= sample.observed.value
    requires t.raw != [] ==> t.raw[|t.raw| - 1].observed.value + INTERVAL <= sample.enter
    requires Retain(t, sample).1.None?
    ensures GoodSamples(Retain(t, sample).0)
    ensures Retain(t, sample).0.raw == t.raw + [sample]
  {
    RetainEffect(t, sample);
    var r := Retain(t, sample).0;
    AppendSchedule(t.raw, sample, t.maximumGap, r.maximumGap);
    AppendProjection(t.raw, sample, t.projected, r.projected[|t.raw|]);
    assert r.projected == t.projected + [r.projected[|t.raw|]];
  }

  /** After `i` further samples at least `i` schedule intervals have passed. */
  lemma {:induction false} ScheduleSpan(t: Samples, i: nat)
    requires GoodSamples(t) && i < |t.raw|
    ensures t.raw[i].observed.value >= t.raw[0].observed.value + i * INTERVAL
  {
    if i > 0 {
      ScheduleSpan(t, i - 1);
      assert Follows(t.raw[i - 1], t.raw[i]);
    }
  }

  // ------------------------------------------------------------- evidence

  datatype Evidence = Evidence(
    pollingIntervalMs: nat,
    sampleCount: nat,
    baselineMib: nat,
    peakMib: nat,
    deltaMib: nat,
    samples: seq<MemorySample>)

  function Peak(samples: seq<MemorySample>): (p: nat)
    requires samples != []
    ensures forall i :: 0 <= i < |samples| ==> samples[i].usedMib <= p
    ensures exists i :: 0 <= i < |samples| && samples[i].usedMib == p
  {
    if |samples| == 1 then samples[0].usedMib
    else
      var rest := Peak(samples[1..]);
      assert forall i :: 0 < i < |samples| ==> samples[i] == samples[1..][i - 1];
      var p := Max(samples[0].usedMib, rest);
      assert exists i :: 0 <= i < |samples| && samples[i].usedMib == p by {
        var j :| 0 <= j < |samples[1..]| && samples[1..][j].usedMib == rest;
        assert samples[j + 1].usedMib == rest;
        assert samples[0].usedMib == p || samples[j + 1].usedMib == p;
      }
      p
  }

  predicate StepsWithin(samples: seq<MemorySample>, interval: nat) {
    forall i :: 0 < i < |samples| ==>
      samples[i - 1].elapsedMs < samples[i].elapsedMs <= samples[i - 1].elapsedMs + interval
  }

  function Validate(interval: nat, interrupted: bool, others: seq<nat>, samples: seq<MemorySample>): Result<Evidence> {
    if interval == 0 || interval > 50 then Err(BadPolling)
    else if interrupted then Err(Interrupted)
    else if others != [] then Err(ForeignProcess)
    else if |samples| < 2 || samples[0].elapsedMs != 0 then Err(TooFewSamples)
    else if !StepsWithin(samples, interval) then Err(SampleGap)
    else
      var peak := Peak(samples);
      Ok(Evidence(interval, |samples|, samples[0].usedMib, peak,
                  if peak < samples[0].usedMib then 0 else peak - samples[0].usedMib, samples))
  }

  /** Rounding elapsed times down never widens a gap beyond the gap rounded up. */
  lemma FloorGap(a: nat, b: nat, bound: nat)
    requires a + INTERVAL <= b && b - a <= bound
    ensures a / NS_PER_MS < b / NS_PER_MS <= a / NS_PER_MS + (bound + NS_PER_MS - 1) / NS_PER_MS
  {
    var up := (bound + NS_PER_MS - 1) / NS_PER_MS;
    assert bound <= up * NS_PER_MS;
    assert b <= a + up * NS_PER_MS;
    assert (a + up * NS_PER_MS) / NS_PER_MS == a / NS_PER_MS + up;
  }

  lemma ProjectedSteps(t: Samples)
    requires GoodSamples(t) && |t.raw| >= 2
    ensures StepsWithin(t.projected, (t.maximumGap + NS_PER_MS - 1) / NS_PER_MS)
  {
    var up := (t.maximumGap + NS_PER_MS - 1) / NS_PER_MS;
    forall i | 0 < i < |t.projected|
      ensures t.projected[i - 1].elapsedMs < t.projected[i].elapsedMs <= t.projected[i - 1].elapsedMs + up
    {
      var base := t.raw[0].observed.value;
      assert IsProjection(t.raw, i - 1, t.projected[i - 1]) && IsProjection(t.raw, i, t.projected[i]);
      assert Follows(t.raw[i - 1], t.raw[i]);
      FloorGap(t.raw[i - 1].observed.value - base, t.raw[i].observed.value - base, t.maximumGap);
    }
  }

  /** Every good record of two or more samples passes the interval rule and the evidence check. */
  lemma GoodSamplesValidate(t: Samples)
    requires GoodSamples(t) && |t.raw| >= 2
    ensures ObservedInterval(t.maximumGap).Ok?
    ensures Validate(ObservedInterval(t.maximumGap).value, false, [], t.projected).Ok?
  {
    ProjectedSteps(t);
    assert IsProjection(t.raw, 0, t.projected[0]);
  }
}
