/**
 The consumer's own pass over the steps of a telemetry artifact.  It reads phases as text, looks
 up every previous sample with a check, and keeps its own tables; it is proved to end with the
 figures of the producer's pass and never to miss a sample.
 */
module TelemetryAudit {
  import opened Options
  import opened Sequences
  import opened Telemetry

  datatype RawStep = RawStep(phase: string, started: nat, ended: nat, prefillTokens: nat, emissions: seq<Emission>)

  datatype Books = Books(
    completionSteps: map<nat, nat>, lastSampledAt: map<nat, nat>, timeToFirst: map<nat, nat>,
    latencies: seq<(nat, nat)>, previousEnd: nat,
    prefillTokens: nat, prefillNs: nat, decodeTokens: nat, decodeNs: nat)

  datatype Refusal =
    | RepeatedRequest | InvalidStep | PrefillInDecode | TokenOverflow | PrefillOverflow | DecodeOverflow
    | UnknownRequest | OutOfOrder | MissingPrevious | Underflow

  datatype Audit = Kept(books: Books) | Refused(why: Refusal)

  function Blank(ids: seq<nat>): Books {
    Books(map id | id in ids :: 0, map[], map[], [], 0, 0, 0, 0, 0)
  }

  // ------------------------------------------------------------ emissions

  /** One emission.  The subtraction of times would trap if the previous sample were later. */
  function AuditEmission(b: Books, e: Emission): Audit {
    var id := e.requestId;
    if id !in b.completionSteps then Refused(UnknownRequest)
    else if e.completionStep != b.completionSteps[id] then Refused(OutOfOrder)
    else
      var c := b.(completionSteps := b.completionSteps[id := b.completionSteps[id] + 1],
                  lastSampledAt := b.lastSampledAt[id := e.sampledAt]);
      if e.completionStep == 0 then Kept(c.(timeToFirst := b.timeToFirst[id := e.sampledAt]))
      else if id !in b.lastSampledAt then Refused(MissingPrevious)
      else if e.sampledAt < b.lastSampledAt[id] then Refused(Underflow)
      else Kept(c.(decodeTokens := b.decodeTokens + 1,
                   latencies := b.latencies + [(id, e.sampledAt - b.lastSampledAt[id])]))
  }

  function AuditEmissions(b: Books, es: seq<Emission>, n: nat): Audit
    requires n <= |es|
  {
    if n == 0 then Kept(b)
    else match AuditEmissions(b, es, n - 1)
      case Refused(why) => Refused(why)
      case Kept(c) => AuditEmission(c, es[n - 1])
  }

  // ---------------------------------------------------------------- steps

  predicate KnownPhase(phase: string) { phase == "prefill" || phase == "decode" || phase == "mixed" }

  predicate ValidStep(b: Books, s: RawStep) {
    && KnownPhase(s.phase) && b.previousEnd <= s.started < s.ended
    && (forall i :: 0 <= i < |s.emissions| ==> s.emissions[i].sampledAt == s.ended)
  }

  /** The prefill tokens and time of a step. */
  function AuditPrefill(b: Books, s: RawStep): Audit
    requires s.started <= s.ended
  {
    var duration := s.ended - s.started;
    if s.prefillTokens == 0 then Kept(b)
    else if s.phase == "decode" then Refused(PrefillInDecode)
    else if b.prefillTokens + s.prefillTokens > LIMIT then Refused(TokenOverflow)
    else if b.prefillNs + duration > LIMIT then Refused(PrefillOverflow)
    else Kept(b.(prefillTokens := b.prefillTokens + s.prefillTokens, prefillNs := b.prefillNs + duration))
  }

  function AuditDecode(b: Books, s: RawStep): Audit
    requires s.started <= s.ended
  {
    var duration := s.ended - s.started;
    if !DecodesIn(s.emissions) then Kept(b)
    else if b.decodeNs + duration > LIMIT then Refused(DecodeOverflow)
    else Kept(b.(decodeNs := b.decodeNs + duration))
  }

  /** The checks and totals of a step, before its emissions. */
  function AuditTotals(b: Books, s: RawStep): Audit {
    if |ToSet(EmittedIds(s.emissions))| != |s.emissions| then Refused(RepeatedRequest)
    else if !ValidStep(b, s) then Refused(InvalidStep)
    else match AuditPrefill(b.(previousEnd := s.ended), s)
      case Refused(why) => Refused(why)
      case Kept(c) => AuditDecode(c, s)
  }

  function AuditStep(b: Books, s: RawStep): Audit {
    match AuditTotals(b, s)
    case Refused(why) => Refused(why)
    case Kept(c) => AuditEmissions(c, s.emissions, |s.emissions|)
  }

  function Audited(ids: seq<nat>, steps: seq<RawStep>, n: nat): Audit
    requires n <= |steps|
  {
    if n == 0 then Kept(Blank(ids))
    else match Audited(ids, steps, n - 1)
      case Refused(why) => Refused(why)
      case Kept(b) => AuditStep(b, steps[n - 1])
  }

  // ---------------------------------------------------------------- loops

  lemma {:induction false} EmissionStaysRefused(b: Books, es: seq<Emission>, m: nat, n: nat)
    requires m <= n <= |es| && AuditEmissions(b, es, m).Refused?
    ensures AuditEmissions(b, es, n) == AuditEmissions(b, es, m)
  {
    if m < n {
      EmissionStaysRefused(b, es, m, n - 1);
    }
  }

  lemma {:induction false} StepStaysRefused(ids: seq<nat>, steps: seq<RawStep>, m: nat, n: nat)
    requires m <= n <= |steps| && Audited(ids, steps, m).Refused?
    ensures Audited(ids, steps, n) == Audited(ids, steps, m)
  {
    if m < n {
      StepStaysRefused(ids, steps, m, n - 1);
    }
  }

  method RunEmissions(b: Books, es: seq<Emission>) returns (r: Audit)
    ensures r == AuditEmissions(b, es, |es|)
  {
    r := Kept(b);
    for i := 0 to |es|
      invariant r.Kept? && r == AuditEmissions(b, es, i)
    {
      r := AuditEmission(r.books, es[i]);
      if r.Refused? {
        EmissionStaysRefused(b, es, i + 1, |es|);
        return;
      }
    }
  }

  /** The loop of the consumer. */
  method RunAudit(ids: seq<nat>, steps: seq<RawStep>) returns (r: Audit)
    ensures r == Audited(ids, steps, |steps|)
  {
    r := Kept(Blank(ids));
    for n := 0 to |steps|
      invariant r.Kept? && r == Audited(ids, steps, n)
    {
      r := AuditTotals(r.books, steps[n]);
      if r.Kept? {
        r := RunEmissions(r.books, steps[n].emissions);
      }
      if r.Refused? {
        StepStaysRefused(ids, steps, n + 1, |steps|);
        return;
      }
    }
  }

  // ------------------------------------------------------------- lockstep

  /** The producer's phase behind a text; an unknown text is refused before its phase matters. */
  function PhaseOf(text: string): Phase {
    if text == "decode" then Decode else if text == "mixed" then Mixed else Prefill
  }

  function Typed(s: RawStep): StepSample {
    StepSample(PhaseOf(s.phase), s.started, s.ended, s.prefillTokens, s.emissions)
  }

  function TypedAll(steps: seq<RawStep>): (r: seq<StepSample>)
    ensures |r| == |steps|
  {
    seq(|steps|, i requires 0 <= i < |steps| => Typed(steps[i]))
  }

  predicate AllKnown(steps: seq<RawStep>, n: nat)
    requires n <= |steps|
  {
    forall i :: 0 <= i < n ==> KnownPhase(steps[i].phase)
  }

  /** The same figures, in the producer's account. */
  function View(b: Books): Account {
    Account(b.previousEnd, b.completionSteps, b.lastSampledAt, b.timeToFirst, b.latencies,
            b.prefillTokens, b.prefillNs, b.decodeTokens, b.decodeNs)
  }

  /** The refusals that the checks before them rule out. */
  predicate Dead(why: Refusal) { why == MissingPrevious || why == Underflow }

  /** The audit keeps what the producer's pass accepts, with the same figures. */
  ghost predicate Agrees(r: Audit, q: Option<Account>) {
    match r
    case Kept(b) => q == Some(View(b))
    case Refused(why) => q.None? && !Dead(why)
  }

  /** If the emission is in order and not a first token, its request was sampled before. */
  predicate PreviousKnown(a: Account, e: Emission) {
    Expected(a, e) && e.completionStep > 0 ==> e.requestId in a.last && a.last[e.requestId] <= e.sampledAt
  }

  /** That is so at every emission the pass gets to. */
  ghost predicate AlwaysKnown(a: Account, es: seq<Emission>) {
    forall k :: 0 <= k < |es| && EmittedAll(a, es, k).Some? ==> PreviousKnown(EmittedAll(a, es, k).value, es[k])
  }

  lemma EmissionAgrees(b: Books, e: Emission)
    requires PreviousKnown(View(b), e)
    ensures Agrees(AuditEmission(b, e), if Expected(View(b), e) then Some(Emitted(View(b), e)) else None)
  {
  }

  lemma {:induction false} EmissionsAgree(b: Books, es: seq<Emission>, n: nat)
    requires n <= |es| && AlwaysKnown(View(b), es)
    ensures Agrees(AuditEmissions(b, es, n), EmittedAll(View(b), es, n))
  {
    if n > 0 {
      EmissionsAgree(b, es, n - 1);
      var r := AuditEmissions(b, es, n - 1);
      if r.Kept? {
        EmissionAgrees(r.books, es[n - 1]);
      }
    }
  }

  /** The invariant of the pass: no look-up within a step can miss. */
  lemma StepAlwaysKnown(ids: seq<nat>, a: Account, es: seq<Emission>, s: StepSample)
    requires StepInv(ids, a, es, s, 0) && Distinct(EmittedIds(s.emissions)) && s.started < s.ended
    requires forall i :: 0 <= i < |s.emissions| ==> s.emissions[i].sampledAt == s.ended
    ensures AlwaysKnown(a, s.emissions)
  {
    forall k | 0 <= k < |s.emissions| && EmittedAll(a, s.emissions, k).Some?
      ensures PreviousKnown(EmittedAll(a, s.emissions, k).value, s.emissions[k])
    {
      EmittedInv(ids, a, es, s, k);
      var c := EmittedAll(a, s.emissions, k).value;
      if Expected(c, s.emissions[k]) {
        HasPrevious(ids, c, Seen(es, s, k), s, k);
      }
    }
  }

  /** The consumer's checks and totals are those of the producer, apart from the phase text. */
  lemma TotalsAgree(b: Books, s: RawStep)
    ensures var r := AuditTotals(b, s);
      && (r.Kept? <==> KnownPhase(s.phase) && Synchronized(View(b), Typed(s)) && !Overflows(View(b), Typed(s)))
      && (r.Kept? ==> View(r.books) == Opened(View(b), Typed(s)))
      && (r.Refused? ==> !Dead(r.why))
  {
    DistinctCount(EmittedIds(s.emissions));
  }

  lemma StepAgrees(ids: seq<nat>, b: Books, es: seq<Emission>, s: RawStep)
    requires Inv(ids, View(b), es) && Past(View(b))
    ensures Agrees(AuditStep(b, s), if KnownPhase(s.phase) then TakenStep(View(b), Typed(s)) else None)
  {
    TotalsAgree(b, s);
    var r := AuditTotals(b, s);
    if r.Kept? {
      OpenInv(ids, View(b), es, Typed(s));
      StepAlwaysKnown(ids, View(r.books), es, Typed(s));
      EmissionsAgree(r.books, s.emissions, |s.emissions|);
    }
  }

  /**
   For every step list, the consumer's pass ends with exactly the producer's figures, or both
   refuse; it never finds a previous sample missing or later.
   */
  lemma {:induction false} AuditReproduces(ids: seq<nat>, steps: seq<RawStep>, n: nat)
    requires n <= |steps|
    ensures Agrees(Audited(ids, steps, n), if AllKnown(steps, n) then Taken(ids, TypedAll(steps), n) else None)
  {
    if n > 0 {
      AuditReproduces(ids, steps, n - 1);
      assert AllKnown(steps, n) <==> AllKnown(steps, n - 1) && KnownPhase(steps[n - 1].phase);
      var r, typed, s := Audited(ids, steps, n - 1), TypedAll(steps), steps[n - 1];
      if r.Kept? {
        assert Inv(ids, View(r.books), Emissions(typed, n - 1)) && Past(View(r.books)) by {
          TakenInv(ids, typed, n - 1);
        }
        assert Agrees(AuditStep(r.books, s), if KnownPhase(s.phase) then TakenStep(View(r.books), Typed(s)) else None) by {
          StepAgrees(ids, r.books, Emissions(typed, n - 1), s);
        }
        assert Taken(ids, typed, n) == TakenStep(View(r.books), Typed(s));
      }
    }
  }
}
