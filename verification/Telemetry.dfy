/**
 Benchmark telemetry: one pass over synchronized step samples yields token counts,
 durations, first-token times and inter-token latencies.  This is the producer's pass.
 */
module Telemetry {
  import opened Options
  import opened Sequences

  datatype Phase = Prefill | Decode | Mixed
  datatype Emission = Emission(requestId: nat, completionStep: nat, sampledAt: nat)
  datatype StepSample = StepSample(phase: Phase, started: nat, ended: nat, prefillTokens: nat, emissions: seq<Emission>)

  /** Largest value of the 64-bit counters. */
  const LIMIT: nat := 0xFFFF_FFFF_FFFF_FFFF

  /** What the pass has accumulated. */
  datatype Account = Account(
    previousEnd: nat, next: map<nat, nat>, last: map<nat, nat>, first: map<nat, nat>, latencies: seq<(nat, nat)>,
    prefillTokens: nat, prefillNs: nat, decodeTokens: nat, decodeNs: nat)

  function Start(ids: seq<nat>): Account {
    Account(0, map id | id in ids :: 0, map[], map[], [], 0, 0, 0, 0)
  }

  function EmittedIds(es: seq<Emission>): seq<nat> {
    seq(|es|, i requires 0 <= i < |es| => es[i].requestId)
  }

  // ------------------------------------------------------------- one step

  ghost predicate Synchronized(a: Account, s: StepSample) {
    && Distinct(EmittedIds(s.emissions))
    && a.previousEnd <= s.started < s.ended
    && (forall i :: 0 <= i < |s.emissions| ==> s.emissions[i].sampledAt == s.ended)
    && (s.prefillTokens > 0 ==> s.phase != Decode)
  }

  predicate DecodesIn(es: seq<Emission>) {
    exists i :: 0 <= i < |es| && es[i].completionStep > 0
  }

  /** The step's own tokens and duration. */
  function Opened(a: Account, s: StepSample): Account
    requires s.started <= s.ended
  {
    var duration := s.ended - s.started;
    a.(previousEnd := s.ended,
       prefillTokens := a.prefillTokens + s.prefillTokens,
       prefillNs := a.prefillNs + (if s.prefillTokens > 0 then duration else 0),
       decodeNs := a.decodeNs + (if DecodesIn(s.emissions) then duration else 0))
  }

  predicate Expected(a: Account, e: Emission) {
    e.requestId in a.next && e.completionStep == a.next[e.requestId]
  }

  function Latency(a: Account, e: Emission): nat {
    if e.requestId in a.last && a.last[e.requestId] <= e.sampledAt then e.sampledAt - a.last[e.requestId] else 0
  }

  function Emitted(a: Account, e: Emission): Account
    requires Expected(a, e)
  {
    var id := e.requestId;
    var b := a.(next := a.next[id := a.next[id] + 1], last := a.last[id := e.sampledAt]);
    if e.completionStep == 0 then b.(first := a.first[id := e.sampledAt])
    else b.(decodeTokens := a.decodeTokens + 1, latencies := a.latencies + [(id, Latency(a, e))])
  }

  function EmittedAll(a: Account, es: seq<Emission>, n: nat): Option<Account>
    requires n <= |es|
  {
    if n == 0 then Some(a)
    else match EmittedAll(a, es, n - 1)
      case None => None
      case Some(b) => if Expected(b, es[n - 1]) then Some(Emitted(b, es[n - 1])) else None
  }

  /** A checked addition of the step overflows. */
  predicate Overflows(a: Account, s: StepSample)
    requires s.started <= s.ended
  {
    var duration := s.ended - s.started;
    || (s.prefillTokens > 0 && (a.prefillTokens + s.prefillTokens > LIMIT || a.prefillNs + duration > LIMIT))
    || (DecodesIn(s.emissions) && a.decodeNs + duration > LIMIT)
  }

  ghost function TakenStep(a: Account, s: StepSample): Option<Account> {
    if !Synchronized(a, s) || Overflows(a, s) then None
    else EmittedAll(Opened(a, s), s.emissions, |s.emissions|)
  }

  ghost function Taken(ids: seq<nat>, steps: seq<StepSample>, n: nat): Option<Account>
    requires n <= |steps|
  {
    if n == 0 then Some(Start(ids))
    else match Taken(ids, steps, n - 1)
      case None => None
      case Some(a) => TakenStep(a, steps[n - 1])
  }

  // -------------------------------------------------- what it should mean

  /** All emissions of the first `n` steps, in order. */
  function Emissions(steps: seq<StepSample>, n: nat): seq<Emission>
    requires n <= |steps|
  {
    if n == 0 then [] else Emissions(steps, n - 1) + steps[n - 1].emissions
  }

  function Count(es: seq<Emission>, id: nat): nat {
    if es == [] then 0
    else Count(es[..|es| - 1], id) + if es[|es| - 1].requestId == id then 1 else 0
  }

  function LastTime(es: seq<Emission>, id: nat): Option<nat> {
    if es == [] then None
    else if es[|es| - 1].requestId == id then Some(es[|es| - 1].sampledAt)
    else LastTime(es[..|es| - 1], id)
  }

  function FirstTime(es: seq<Emission>, id: nat): Option<nat> {
    if es == [] then None
    else
      var before := FirstTime(es[..|es| - 1], id);
      if before.None? && es[|es| - 1].requestId == id then Some(es[|es| - 1].sampledAt) else before
  }

  function LatencySum(ls: seq<(nat, nat)>, id: nat): nat {
    if ls == [] then 0
    else LatencySum(ls[..|ls| - 1], id) + if ls[|ls| - 1].0 == id then ls[|ls| - 1].1 else 0
  }

  lemma Extend(es: seq<Emission>, e: Emission, id: nat)
    ensures Count(es + [e], id) == Count(es, id) + if e.requestId == id then 1 else 0
    ensures LastTime(es + [e], id) == if e.requestId == id then Some(e.sampledAt) else LastTime(es, id)
    ensures FirstTime(es + [e], id)
         == if FirstTime(es, id).None? && e.requestId == id then Some(e.sampledAt) else FirstTime(es, id)
  {
    assert (es + [e])[..|es|] == es;
  }

  lemma ExtendSum(ls: seq<(nat, nat)>, l: (nat, nat), id: nat)
    ensures LatencySum(ls + [l], id) == LatencySum(ls, id) + if l.0 == id then l.1 else 0
  {
    assert (ls + [l])[..|ls|] == ls;
  }

  lemma {:induction false} TimesExist(es: seq<Emission>, id: nat)
    ensures Count(es, id) > 0 <==> LastTime(es, id).Some?
    ensures Count(es, id) > 0 <==> FirstTime(es, id).Some?
  {
    if es != [] {
      TimesExist(es[..|es| - 1], id);
    }
  }

  // ------------------------------------------------------------- invariant

  /** The per-request tables are those of the emissions so far. */
  ghost predicate Tabled(ids: seq<nat>, a: Account, es: seq<Emission>) {
    && a.next.Keys == ToSet(ids) && a.last.Keys <= a.next.Keys
    && (forall id :: id in a.next ==> a.next[id] == Count(es, id))
    && (forall id :: id in a.last <==> LastTime(es, id).Some?)
    && (forall id :: id in a.last ==> a.last[id] == LastTime(es, id).value)
    && (forall id :: id in a.first <==> FirstTime(es, id).Some?)
    && (forall id :: id in a.first ==> a.first[id] == FirstTime(es, id).value)
  }

  /** The latencies of a request add up to the time from its first to its last sample. */
  ghost predicate Telescoped(a: Account) {
    && (forall i :: 0 <= i < |a.latencies| ==> a.latencies[i].1 > 0)
    && (forall id :: id in a.last ==> id in a.first && a.first[id] + LatencySum(a.latencies, id) == a.last[id])
    && (forall id :: id !in a.last ==> LatencySum(a.latencies, id) == 0)
  }

  /** Every emission is a first token or has a latency. */
  ghost predicate Conserved(a: Account, es: seq<Emission>) {
    a.decodeTokens == |a.latencies| && a.decodeTokens + |a.first| == |es|
  }

  /** Steps do not overlap, so their durations fit before the last end. */
  ghost predicate Disjoint(a: Account) {
    a.prefillNs <= a.previousEnd && a.decodeNs <= a.previousEnd
  }

  ghost predicate Inv(ids: seq<nat>, a: Account, es: seq<Emission>) {
    Tabled(ids, a, es) && Telescoped(a) && Conserved(a, es) && Disjoint(a)
  }

  lemma StartInv(ids: seq<nat>)
    ensures Inv(ids, Start(ids), [])
  {
  }

  lemma EmitTabled(ids: seq<nat>, a: Account, es: seq<Emission>, e: Emission)
    requires Tabled(ids, a, es) && Expected(a, e)
    ensures Tabled(ids, Emitted(a, e), es + [e])
  {
    var b := Emitted(a, e);
    TimesExist(es, e.requestId);
    forall id
      ensures id in b.next ==> b.next[id] == Count(es + [e], id)
      ensures id in b.last <==> LastTime(es + [e], id).Some?
      ensures id in b.last ==> b.last[id] == LastTime(es + [e], id).value
      ensures id in b.first <==> FirstTime(es + [e], id).Some?
      ensures id in b.first ==> b.first[id] == FirstTime(es + [e], id).value
    {
      Extend(es, e, id);
    }
  }

  lemma EmitTelescoped(ids: seq<nat>, a: Account, es: seq<Emission>, e: Emission)
    requires Tabled(ids, a, es) && Telescoped(a) && Expected(a, e)
    requires e.requestId in a.last ==> a.last[e.requestId] < e.sampledAt
    ensures Telescoped(Emitted(a, e))
  {
    var b := Emitted(a, e);
    TimesExist(es, e.requestId);
    forall id ensures LatencySum(b.latencies, id) == LatencySum(a.latencies, id)
        + if e.completionStep > 0 && id == e.requestId then Latency(a, e) else 0
    {
      if e.completionStep > 0 {
        ExtendSum(a.latencies, (e.requestId, Latency(a, e)), id);
      }
    }
  }

  lemma EmitConserved(ids: seq<nat>, a: Account, es: seq<Emission>, e: Emission)
    requires Tabled(ids, a, es) && Conserved(a, es) && Expected(a, e)
    ensures Conserved(Emitted(a, e), es + [e])
  {
    TimesExist(es, e.requestId);
    if e.completionStep == 0 {
      NewKey(a.first, e.requestId, e.sampledAt);
    }
  }

  lemma NewKey(m: map<nat, nat>, k: nat, v: nat)
    requires k !in m
    ensures |m[k := v]| == |m| + 1
  {
    assert m[k := v].Keys == m.Keys + {k};
    assert |m[k := v]| == |m[k := v].Keys|;
  }

  /** Requests that are still to emit in this step were last sampled before it began. */
  ghost predicate Fresh(a: Account, s: StepSample, n: nat)
    requires n <= |s.emissions|
  {
    && (forall id :: id in a.last ==> a.last[id] <= s.ended)
    && (forall i :: n <= i < |s.emissions| && s.emissions[i].requestId in a.last ==>
          a.last[s.emissions[i].requestId] <= s.started)
  }

  ghost predicate Past(a: Account) { forall id :: id in a.last ==> a.last[id] <= a.previousEnd }

  lemma EmitFresh(a: Account, s: StepSample, n: nat)
    requires n < |s.emissions| && Fresh(a, s, n) && Expected(a, s.emissions[n])
    requires Distinct(EmittedIds(s.emissions)) && s.emissions[n].sampledAt == s.ended
    ensures Fresh(Emitted(a, s.emissions[n]), s, n + 1)
  {
    forall i | n < i < |s.emissions| ensures s.emissions[i].requestId != s.emissions[n].requestId {
      assert EmittedIds(s.emissions)[i] != EmittedIds(s.emissions)[n];
    }
  }

  /** The emissions seen after `n` emissions of a step. */
  function Seen(es: seq<Emission>, s: StepSample, n: nat): seq<Emission>
    requires n <= |s.emissions|
  {
    es + s.emissions[..n]
  }

  lemma SeenNext(es: seq<Emission>, s: StepSample, n: nat)
    requires n < |s.emissions|
    ensures Seen(es, s, n + 1) == Seen(es, s, n) + [s.emissions[n]]
  {
  }

  /** The invariant within a step, after `n` of its emissions. */
  ghost predicate StepInv(ids: seq<nat>, a: Account, seen: seq<Emission>, s: StepSample, n: nat)
    requires n <= |s.emissions|
  {
    Inv(ids, a, seen) && Fresh(a, s, n) && a.previousEnd == s.ended
  }

  lemma OpenInv(ids: seq<nat>, a: Account, es: seq<Emission>, s: StepSample)
    requires Inv(ids, a, es) && Past(a) && Synchronized(a, s)
    ensures StepInv(ids, Opened(a, s), es, s, 0)
  {
  }

  /** A later token has a previous sample, and that one lies before the step. */
  lemma HasPrevious(ids: seq<nat>, a: Account, seen: seq<Emission>, s: StepSample, n: nat)
    requires n < |s.emissions| && StepInv(ids, a, seen, s, n) && Expected(a, s.emissions[n]) && s.started < s.ended
    ensures s.emissions[n].completionStep > 0 ==> s.emissions[n].requestId in a.last
    ensures s.emissions[n].requestId in a.last ==> a.last[s.emissions[n].requestId] < s.ended
  {
    TimesExist(seen, s.emissions[n].requestId);
  }

  lemma EmitInv(ids: seq<nat>, a: Account, seen: seq<Emission>, s: StepSample, n: nat)
    requires n < |s.emissions| && StepInv(ids, a, seen, s, n) && Expected(a, s.emissions[n])
    requires Distinct(EmittedIds(s.emissions)) && s.emissions[n].sampledAt == s.ended > s.started
    ensures StepInv(ids, Emitted(a, s.emissions[n]), seen + [s.emissions[n]], s, n + 1)
  {
    HasPrevious(ids, a, seen, s, n);
    EmitKeepsBooks(ids, a, seen, s.emissions[n]);
    EmitFresh(a, s, n);
  }

  lemma EmitNext(ids: seq<nat>, a: Account, es: seq<Emission>, s: StepSample, n: nat)
    requires n < |s.emissions| && StepInv(ids, a, Seen(es, s, n), s, n) && Expected(a, s.emissions[n])
    requires Distinct(EmittedIds(s.emissions)) && s.emissions[n].sampledAt == s.ended > s.started
    ensures StepInv(ids, Emitted(a, s.emissions[n]), Seen(es, s, n + 1), s, n + 1)
  {
    EmitInv(ids, a, Seen(es, s, n), s, n);
    SeenNext(es, s, n);
  }

  lemma EmitKeepsBooks(ids: seq<nat>, a: Account, es: seq<Emission>, e: Emission)
    requires Inv(ids, a, es) && Expected(a, e)
    requires e.requestId in a.last ==> a.last[e.requestId] < e.sampledAt
    ensures Inv(ids, Emitted(a, e), es + [e])
  {
    EmitTabled(ids, a, es, e);
    EmitTelescoped(ids, a, es, e);
    EmitConserved(ids, a, es, e);
  }

  // -------------------------------------------------------------- the pass

  method CheckStep(a: Account, s: StepSample) returns (ok: bool)
    ensures ok <==> Synchronized(a, s)
  {
    DistinctCount(EmittedIds(s.emissions));
    if |ToSet(EmittedIds(s.emissions))| != |s.emissions| {
      return false;
    }
    return a.previousEnd <= s.started && s.started < s.ended
        && (forall i :: 0 <= i < |s.emissions| ==> s.emissions[i].sampledAt == s.ended)
        && (s.prefillTokens > 0 ==> s.phase != Decode);
  }

  /** One emission; the previous sample of a later token is looked up without a check. */
  method TakeEmission(a: Account, e: Emission) returns (b: Account)
    requires Expected(a, e)
    requires e.completionStep > 0 ==> e.requestId in a.last && a.last[e.requestId] <= e.sampledAt
    ensures b == Emitted(a, e)
  {
    var id := e.requestId;
    var next, last := a.next[id := a.next[id] + 1], a.last[id := e.sampledAt];
    if e.completionStep == 0 {
      b := a.(next := next, last := last, first := a.first[id := e.sampledAt]);
    } else {
      var previous := a.last[id];
      b := a.(next := next, last := last, decodeTokens := a.decodeTokens + 1,
              latencies := a.latencies + [(id, e.sampledAt - previous)]);
    }
  }

  /** The emissions of one step; every look-up of a previous sample succeeds. */
  method TakeEmissions(ids: seq<nat>, a: Account, s: StepSample, ghost es: seq<Emission>) returns (r: Option<Account>)
    requires StepInv(ids, a, es, s, 0) && Distinct(EmittedIds(s.emissions)) && s.started < s.ended
    requires forall i :: 0 <= i < |s.emissions| ==> s.emissions[i].sampledAt == s.ended
    ensures r == EmittedAll(a, s.emissions, |s.emissions|)
    ensures r.Some? ==> StepInv(ids, r.value, Seen(es, s, |s.emissions|), s, |s.emissions|)
  {
    var b := a;
    assert Seen(es, s, 0) == es;
    for n := 0 to |s.emissions|
      invariant StepInv(ids, b, Seen(es, s, n), s, n) && EmittedAll(a, s.emissions, n) == Some(b)
    {
      if !Expected(b, s.emissions[n]) {
        NeverRecovers(a, s.emissions, n + 1, |s.emissions|);
        return None;
      }
      HasPrevious(ids, b, Seen(es, s, n), s, n);
      EmitNext(ids, b, es, s, n);
      b := TakeEmission(b, s.emissions[n]);
    }
    return Some(b);
  }

  lemma {:induction false} NeverRecovers(a: Account, es: seq<Emission>, m: nat, n: nat)
    requires m <= n <= |es| && EmittedAll(a, es, m).None?
    ensures EmittedAll(a, es, n).None?
  {
    if m < n {
      NeverRecovers(a, es, m, n - 1);
    }
  }

  lemma {:induction false} StaysRejected(ids: seq<nat>, steps: seq<StepSample>, m: nat, n: nat)
    requires m <= n <= |steps| && Taken(ids, steps, m).None?
    ensures Taken(ids, steps, n).None?
  {
    if m < n {
      StaysRejected(ids, steps, m, n - 1);
    }
  }

  /** The step's tokens and duration, with the overflow checks of the counters. */
  method OpenStep(a: Account, s: StepSample) returns (r: Option<Account>)
    requires s.started < s.ended
    ensures r == if Overflows(a, s) then None else Some(Opened(a, s))
  {
    var duration, b := s.ended - s.started, a.(previousEnd := s.ended);
    if s.prefillTokens > 0 {
      if a.prefillTokens + s.prefillTokens > LIMIT || a.prefillNs + duration > LIMIT {
        return None;
      }
      b := b.(prefillTokens := a.prefillTokens + s.prefillTokens, prefillNs := a.prefillNs + duration);
    }
    if DecodesIn(s.emissions) {
      if a.decodeNs + duration > LIMIT {
        return None;
      }
      b := b.(decodeNs := a.decodeNs + duration);
    }
    return Some(b);
  }

  method TakeStep(ids: seq<nat>, a: Account, s: StepSample, ghost es: seq<Emission>) returns (r: Option<Account>)
    requires Inv(ids, a, es) && Past(a)
    ensures r == TakenStep(a, s)
    ensures r.Some? ==> Inv(ids, r.value, es + s.emissions) && Past(r.value)
  {
    var ok := CheckStep(a, s);
    if !ok {
      return None;
    }
    var begun := OpenStep(a, s);
    if begun.None? {
      return None;
    }
    OpenInv(ids, a, es, s);
    r := TakeEmissions(ids, begun.value, s, es);
    if r.Some? {
      CloseInv(ids, r.value, es, s);
    }
  }

  lemma CloseInv(ids: seq<nat>, a: Account, es: seq<Emission>, s: StepSample)
    requires StepInv(ids, a, Seen(es, s, |s.emissions|), s, |s.emissions|)
    ensures Inv(ids, a, es + s.emissions) && Past(a)
  {
    assert s.emissions[..|s.emissions|] == s.emissions;
  }

  /** The account after `n` steps. */
  ghost predicate Balanced(ids: seq<nat>, steps: seq<StepSample>, n: nat, a: Account)
    requires n <= |steps|
  {
    Taken(ids, steps, n) == Some(a) && Inv(ids, a, Emissions(steps, n)) && Past(a)
  }

  lemma StartBalanced(ids: seq<nat>, steps: seq<StepSample>)
    ensures Balanced(ids, steps, 0, Start(ids))
  {
    StartInv(ids);
  }

  method TakeNext(ids: seq<nat>, steps: seq<StepSample>, n: nat, a: Account) returns (r: Option<Account>)
    requires n < |steps| && Taken(ids, steps, n) == Some(a)
    ensures r == Taken(ids, steps, n + 1)
  {
    TakenInv(ids, steps, n);
    r := TakeStep(ids, a, steps[n], Emissions(steps, n));
  }

  /** The whole pass. */
  method TakeSteps(ids: seq<nat>, steps: seq<StepSample>) returns (r: Option<Account>)
    ensures r == Taken(ids, steps, |steps|)
  {
    r := Some(Start(ids));
    for n := 0 to |steps|
      invariant r.Some? && r == Taken(ids, steps, n)
    {
      r := TakeNext(ids, steps, n, r.value);
      if r.None? {
        StaysRejected(ids, steps, n + 1, |steps|);
        return;
      }
    }
  }

  /** Every accepted step list keeps the books: the invariant holds of its account. */
  lemma {:induction false} TakenInv(ids: seq<nat>, steps: seq<StepSample>, n: nat)
    requires n <= |steps| && Taken(ids, steps, n).Some?
    ensures Balanced(ids, steps, n, Taken(ids, steps, n).value)
  {
    if n == 0 {
      StartBalanced(ids, steps);
    } else {
      TakenInv(ids, steps, n - 1);
      var a, s, es := Taken(ids, steps, n - 1).value, steps[n - 1], Emissions(steps, n - 1);
      OpenInv(ids, a, es, s);
      EmittedInv(ids, Opened(a, s), es, s, |s.emissions|);
      CloseInv(ids, Taken(ids, steps, n).value, es, s);
    }
  }

  lemma {:induction false} EmittedInv(ids: seq<nat>, a: Account, es: seq<Emission>, s: StepSample, n: nat)
    requires n <= |s.emissions| && StepInv(ids, a, es, s, 0) && EmittedAll(a, s.emissions, n).Some?
    requires Distinct(EmittedIds(s.emissions)) && s.started < s.ended
    requires forall i :: 0 <= i < |s.emissions| ==> s.emissions[i].sampledAt == s.ended
    ensures StepInv(ids, EmittedAll(a, s.emissions, n).value, Seen(es, s, n), s, n)
  {
    if n == 0 {
      assert Seen(es, s, 0) == es;
    } else {
      EmittedStep(a, s.emissions, n);
      EmittedInv(ids, a, es, s, n - 1);
      EmitNext(ids, EmittedAll(a, s.emissions, n - 1).value, es, s, n - 1);
    }
  }

  lemma EmittedStep(a: Account, es: seq<Emission>, n: nat)
    requires 0 < n <= |es| && EmittedAll(a, es, n).Some?
    ensures EmittedAll(a, es, n - 1).Some? && Expected(EmittedAll(a, es, n - 1).value, es[n - 1])
    ensures EmittedAll(a, es, n).value == Emitted(EmittedAll(a, es, n - 1).value, es[n - 1])
  {
  }

  /** The duration checks never fire: disjoint steps cannot last longer than the clock's range. */
  lemma OnlyTokensOverflow(ids: seq<nat>, steps: seq<StepSample>, n: nat)
    requires n < |steps| && Taken(ids, steps, n).Some?
    requires Synchronized(Taken(ids, steps, n).value, steps[n]) && steps[n].ended <= LIMIT
    ensures var a := Taken(ids, steps, n).value;
      Overflows(a, steps[n]) <==> steps[n].prefillTokens > 0 && a.prefillTokens + steps[n].prefillTokens > LIMIT
  {
    TakenInv(ids, steps, n);
  }
}
