/**
 Safety of the monitor protocol over every interleaving of parent and worker.
 */
module MonitorSafety {
  import opened Options
  import opened MonitorTrace
  import opened MonitorProtocol

  // ------------------------------------------------------------ invariants

  ghost predicate Before(x: Option<nat>, now: nat) { x.Some? ==> x.value <= now }

  /** The stop channel carries the parent's clock reading, and nothing before it was taken. */
  ghost predicate Channels(s: State) {
    && Before(s.owner.requested, s.now)
    && (s.wire.stop.Some? ==> s.wire.stop == s.owner.requested)
    && (s.work.received.Some? ==> s.work.received == s.owner.requested)
    && (s.owner.at.AwaitingBaseline? || s.owner.at.Measuring? || s.owner.at.Stopping? <==> s.owner.requested.None?)
    && (s.owner.joined ==> s.owner.at.Joined?)
    && (s.owner.joined && !s.owner.failed ==> s.work.at.Done?)
  }

  /** The parent measures only after a first, non-final sample was announced. */
  ghost predicate Handshake(s: State) {
    && (s.work.readySent ==> s.trace.samples.raw != [])
    && (s.wire.ready.BaselineReady? ==> s.work.readySent)
    && (!s.wire.receiverAlive ==> s.work.readySent)
    && (!s.owner.at.AwaitingBaseline? && !s.owner.failed ==> s.work.readySent)
    && (s.trace.samples.raw != [] && s.trace.samples.raw[0].final ==> s.owner.failed)
  }

  /** No failure has been met so far. */
  ghost predicate Clean(s: State) {
    && (s.work.at.LeavingLoop? ==> s.work.at.failure.None?)
    && s.trace.primaryError.None?
  }

  /** The loop ended with a recorded final query, or has not ended. */
  ghost predicate LoopEnded(s: State) {
    s.work.at.LeavingLoop? || s.work.at.Closing? || s.work.at.InClose? || s.work.at.Reporting? || s.work.at.Done?
  }

  function Last(s: State): RawSample
    requires s.trace.samples.raw != []
  {
    s.trace.samples.raw[|s.trace.samples.raw| - 1]
  }

  function Completed(s: State): Samples {
    if s.work.at.InCall() && s.trace.samples.raw != []
    then s.trace.samples.(raw := s.trace.samples.raw[..|s.trace.samples.raw| - 1]) else s.trace.samples
  }

  /** The open record of the query under way, entered on schedule. */
  ghost predicate OpenCall(s: State, enter: nat, final: bool) {
    && s.trace.samples.raw != []
    && Last(s).enter == enter <= s.now && Last(s).final == final
    && s.trace.finishRequested == s.work.received
    && (final <==> s.work.received.Some?)
    && (final ==> s.work.received.value <= enter)
    && (|s.trace.samples.raw| >= 2 ==>
          s.trace.samples.raw[|s.trace.samples.raw| - 2].observed.Some?
          && s.trace.samples.raw[|s.trace.samples.raw| - 2].observed.value + INTERVAL <= enter)
  }

  ghost predicate FinalRecorded(s: State) {
    && s.trace.samples.raw != [] && Last(s).final
    && s.trace.finalEnter == Some(Last(s).enter) && s.trace.finalObserved == Last(s).observed
    && s.trace.finishRequested == s.work.received && s.work.received.Some?
    && s.work.received.value <= Last(s).enter
  }

  ghost predicate WorkerPoint(s: State) {
    match s.work.at
    case Opening => s.trace.samples.raw == [] && s.work.received.None?
    case Initializing => s.trace.samples.raw == [] && s.work.received.None?
    case Querying(enter, final) => OpenCall(s, enter, final)
    case Observing(enter, final, returned, _, _) => OpenCall(s, enter, final) && enter <= returned <= s.now
    case Recording(r) =>
      && OpenCall(s, r.enter, r.final)
      && r.returned.Some? && r.enter <= r.returned.value && r.span == Some(r.returned.value - r.enter)
      && (r.observed.Some? ==> r.returned.value <= r.observed.value <= s.now)
    case Announcing(final, observed) =>
      && s.trace.samples.raw != [] && Last(s).observed == observed && Last(s).final == final
      && (final ==> FinalRecorded(s))
    case LeavingLoop(failure) => failure.None? ==> FinalRecorded(s)
    case Closing => s.trace.primaryError.None? ==> FinalRecorded(s)
    case InClose => s.trace.primaryError.None? ==> FinalRecorded(s)
    case Reporting => s.trace.primaryError.None? ==> FinalRecorded(s)
    case Done => s.trace.primaryError.None? ==> FinalRecorded(s)
    case _ =>
      && (s.trace.samples.raw != [] ==> Last(s).observed.Some? && s.work.next == Last(s).observed.value + INTERVAL)
      && (s.trace.samples.raw != [] ==> !Last(s).final)
      && (s.work.at.Polling? || s.work.at.Entering? ==> s.now >= s.work.next)
  }

  ghost predicate GoodUpTo(t: Samples, now: nat) {
    GoodSamples(t) && (t.raw != [] ==> t.raw[|t.raw| - 1].observed.value <= now)
  }

  ghost predicate Errors(s: State) {
    && (!LoopEnded(s) ==> s.trace.primaryError.None?)
    && (s.work.at.LeavingLoop? ==> s.trace.primaryError.None?)
  }

  ghost predicate Records(s: State) {
    Clean(s) ==> GoodUpTo(Completed(s), s.now)
  }

  /** Only the last record can be open, and only the last can be the final one. */
  ghost predicate OnlyLastOpen(s: State) {
    && (forall i :: 0 <= i < |s.trace.samples.raw| - 1 ==> s.trace.samples.raw[i].returned.Some? && !s.trace.samples.raw[i].final)
    && (!s.work.at.InCall() && !LoopEnded(s) && s.trace.samples.raw != [] ==> Last(s).returned.Some?)
    && |s.trace.samples.raw| <= s.sampleLimit
  }

  ghost predicate Exhausted(s: State) {
    s.trace.primaryError == Some(StorageExhausted) || s.work.at == LeavingLoop(Some(StorageExhausted))
  }

  ghost predicate Exhaustion(s: State) {
    Exhausted(s) ==>
      s.sampleLimit == 0
      || (s.trace.samples.baseline.Some? && s.now >= s.trace.samples.baseline.value + s.sampleLimit * INTERVAL)
  }

  /** Every provider call is a recorded query, except one close at the very end. */
  ghost predicate Calls(s: State) {
    && (forall i :: 0 <= i < |s.trace.calls| - 1 ==> s.trace.calls[i] == Query)
    && (s.work.at.InClose? || s.work.at.Reporting? || (s.work.at.Done? && s.trace.primaryError != Some(FactoryFailed)) ==>
          |s.trace.calls| == |s.trace.samples.raw| + 1 && s.trace.calls[|s.trace.calls| - 1] == Close)
    && (!(s.work.at.InClose? || s.work.at.Reporting? || s.work.at.Done?) ==>
          |s.trace.calls| == |s.trace.samples.raw| && (s.trace.calls != [] ==> s.trace.calls[|s.trace.calls| - 1] == Query))
    && (s.trace.shutdownCompleted ==> s.work.at.Reporting? || s.work.at.Done?)
    && (s.work.at.Done? && s.trace.primaryError == Some(FactoryFailed) ==> !s.trace.shutdownCompleted)
    && (s.work.at.LeavingLoop? ==> s.work.at.failure != Some(FactoryFailed))
    && (s.work.at.Closing? || s.work.at.InClose? || s.work.at.Reporting? ==> s.trace.primaryError != Some(FactoryFailed))
  }

  ghost predicate Inv(s: State) {
    && Channels(s) && Handshake(s) && Errors(s) && WorkerPoint(s)
    && Records(s) && OnlyLastOpen(s) && Exhaustion(s) && Calls(s)
  }

  // ---------------------------------------------------------- preservation

  lemma StartInv(now: nat, limit: nat)
    ensures Inv(Start(now, limit))
  {
  }

  // The parent and the clock leave the worker and the record alone.

  ghost predicate SameWork(s: State, t: State) {
    t.work == s.work && t.trace == s.trace && t.sampleLimit == s.sampleLimit && s.now <= t.now
  }

  lemma SameWorkKeepsCall(s: State, t: State, enter: nat, final: bool)
    requires SameWork(s, t) && OpenCall(s, enter, final)
    ensures OpenCall(t, enter, final)
  {
  }

  lemma SameWorkKeepsPoint(s: State, t: State)
    requires SameWork(s, t) && WorkerPoint(s)
    ensures WorkerPoint(t)
  {
    match s.work.at {
      case Querying(enter, final) => SameWorkKeepsCall(s, t, enter, final);
      case Observing(enter, final, _, _, _) => SameWorkKeepsCall(s, t, enter, final);
      case Recording(r) => SameWorkKeepsCall(s, t, r.enter, r.final);
      case _ =>
    }
  }

  lemma SameWorkKeepsRecords(s: State, t: State)
    requires SameWork(s, t) && Records(s)
    ensures Records(t)
  {
    assert Completed(t) == Completed(s);
  }

  lemma SameWorkKeepsRest(s: State, t: State)
    requires SameWork(s, t)
    requires Errors(s) && OnlyLastOpen(s) && Exhaustion(s) && Calls(s)
    ensures Errors(t) && OnlyLastOpen(t) && Exhaustion(t) && Calls(t)
  {
  }

  lemma ParentKeepsChannels(s: State, a: Action)
    requires Channels(s) && Handshake(s) && ParentEnabled(s, a)
    ensures Channels(ParentStep(s, a)) && Handshake(ParentStep(s, a)) && SameWork(s, ParentStep(s, a))
  {
  }

  lemma ParentKeepsInv(s: State, a: Action)
    requires Inv(s) && ParentEnabled(s, a)
    ensures Inv(ParentStep(s, a))
  {
    var t := ParentStep(s, a);
    ParentKeepsChannels(s, a);
    SameWorkKeepsPoint(s, t);
    SameWorkKeepsRecords(s, t);
    SameWorkKeepsRest(s, t);
  }

  lemma TickKeepsInv(s: State, elapsed: nat)
    requires Inv(s)
    ensures Inv(Step(s, Tick(elapsed)))
  {
    var t := Step(s, Tick(elapsed));
    SameWorkKeepsPoint(s, t);
    SameWorkKeepsRecords(s, t);
    SameWorkKeepsRest(s, t);
  }

  // Entering a query.

  lemma EnterKeepsHandshake(s: State)
    requires Channels(s) && Handshake(s) && s.work.at.Entering?
    ensures Channels(EnterStep(s)) && Handshake(EnterStep(s))
  {
  }

  lemma EnterKeepsPoint(s: State)
    requires Channels(s) && WorkerPoint(s) && s.work.at.Entering?
    ensures WorkerPoint(EnterStep(s))
  {
    var t := EnterStep(s);
    if t.work.at.Querying? {
      assert OpenCall(t, s.now, t.work.at.final);
    }
  }

  lemma EnterKeepsRecords(s: State)
    requires Records(s) && Errors(s) && WorkerPoint(s) && s.work.at.Entering?
    ensures Records(EnterStep(s)) && Errors(EnterStep(s))
  {
    var t := EnterStep(s);
    if t.work.at.Querying? {
      EnterCompletes(s);
      SameCompleted(s, t);
    }
  }

  lemma EnterCompletes(s: State)
    requires s.work.at.Entering? && EnterStep(s).work.at.Querying?
    ensures Completed(EnterStep(s)) == Completed(s)
  {
    assert EnterStep(s).trace.samples.raw[..|s.trace.samples.raw|] == s.trace.samples.raw;
  }

  lemma SameCompleted(s: State, t: State)
    requires Records(s) && t.now == s.now && (Clean(t) ==> Clean(s) && Completed(t) == Completed(s))
    ensures Records(t)
  {
  }

  lemma EnterKeepsExhaustion(s: State)
    requires Records(s) && Errors(s) && WorkerPoint(s) && Exhaustion(s) && s.work.at.Entering?
    ensures Exhaustion(EnterStep(s))
  {
    var n := |s.trace.samples.raw|;
    if n == s.sampleLimit && n > 0 {
      assert Completed(s) == s.trace.samples;
      ScheduleSpan(s.trace.samples, n - 1);
    }
  }

  lemma EnterKeepsRest(s: State)
    requires OnlyLastOpen(s) && Calls(s) && WorkerPoint(s) && s.work.at.Entering?
    ensures OnlyLastOpen(EnterStep(s)) && Calls(EnterStep(s))
  {
  }

  // Recording a completed query.

  lemma RetainShape(t: Samples, sample: RawSample)
    ensures Retain(t, sample).0.raw == t.raw + [sample]
    ensures Retain(t, sample).1 != Some(StorageExhausted)
    ensures Retain(t, sample).1 != Some(FactoryFailed)
  {
  }

  lemma RecordShape(s: State)
    requires WorkerPoint(s) && s.work.at.Recording?
    ensures RecordStep(s).trace.samples.raw == s.trace.samples.raw[..|s.trace.samples.raw| - 1] + [s.work.at.sample]
    ensures match RecordStep(s).work.at
            case LeavingLoop(e) => e.Some? && e != Some(StorageExhausted) && e != Some(FactoryFailed)
            case Announcing(_, _) => true
            case _ => false
  {
    RetainShape(s.trace.samples.(raw := s.trace.samples.raw[..|s.trace.samples.raw| - 1]), s.work.at.sample);
  }

  lemma RecordKeepsHandshake(s: State)
    requires Channels(s) && Handshake(s) && WorkerPoint(s) && s.work.at.Recording?
    ensures Channels(RecordStep(s)) && Handshake(RecordStep(s))
  {
    RecordShape(s);
  }

  lemma RecordKeepsPoint(s: State)
    requires WorkerPoint(s) && s.work.at.Recording?
    ensures WorkerPoint(RecordStep(s))
  {
    RecordShape(s);
  }

  lemma RecordKeepsRecords(s: State)
    requires Records(s) && Errors(s) && WorkerPoint(s) && s.work.at.Recording?
    ensures Records(RecordStep(s)) && Errors(RecordStep(s))
  {
    var t := RecordStep(s);
    var popped := s.trace.samples.(raw := s.trace.samples.raw[..|s.trace.samples.raw| - 1]);
    assert Completed(s) == popped;
    RecordShape(s);
    if t.work.at.Announcing? {
      RetainKeepsGood(popped, s.work.at.sample);
      assert Completed(t) == t.trace.samples == Retain(popped, s.work.at.sample).0;
    }
  }

  lemma RecordKeepsRest(s: State)
    requires OnlyLastOpen(s) && Calls(s) && Exhaustion(s) && Errors(s) && WorkerPoint(s) && s.work.at.Recording?
    ensures OnlyLastOpen(RecordStep(s)) && Calls(RecordStep(s)) && Exhaustion(RecordStep(s))
  {
    RecordShape(s);
  }

  // The remaining worker steps do not touch the samples.

  ghost predicate Quiet(s: State, a: Action) {
    WorkerEnabled(s, a) && !a.EnterQuery? && !a.Record?
  }

  lemma QuietKeepsChannels(s: State, a: Action)
    requires Channels(s) && Quiet(s, a)
    ensures Channels(WorkerStep(s, a))
  {
  }

  lemma QuietKeepsHandshake(s: State, a: Action)
    requires Handshake(s) && WorkerPoint(s) && Quiet(s, a)
    ensures Handshake(WorkerStep(s, a))
  {
  }

  ghost predicate CallAction(a: Action) { a.QueryReturned? || a.Observe? }

  ghost predicate WaitAction(a: Action) {
    a.ReceiveStop? || a.WaitTimedOut? || a.WaitSkipped? || a.WakeUp? || a.PollStop? || a.StopDisconnected?
  }

  lemma CallKeepsPoint(s: State, a: Action)
    requires WorkerPoint(s) && WorkerEnabled(s, a) && CallAction(a)
    ensures WorkerPoint(WorkerStep(s, a))
  {
    var t := WorkerStep(s, a);
    assert OpenCall(t, s.work.at.enter, s.work.at.final);
  }

  lemma WaitKeepsPoint(s: State, a: Action)
    requires WorkerPoint(s) && WorkerEnabled(s, a) && WaitAction(a)
    ensures WorkerPoint(WorkerStep(s, a))
  {
  }

  lemma OtherKeepsPoint(s: State, a: Action)
    requires Errors(s) && WorkerPoint(s) && Quiet(s, a) && !CallAction(a) && !WaitAction(a)
    ensures WorkerPoint(WorkerStep(s, a))
  {
    if a.Announce? {
      assert s.work.at.final ==> FinalRecorded(WorkerStep(s, a)) || WorkerStep(s, a).work.at.failure.Some?;
    }
  }

  lemma QuietKeepsPoint(s: State, a: Action)
    requires Errors(s) && WorkerPoint(s) && Quiet(s, a)
    ensures WorkerPoint(WorkerStep(s, a))
  {
    if CallAction(a) {
      CallKeepsPoint(s, a);
    } else if WaitAction(a) {
      WaitKeepsPoint(s, a);
    } else {
      OtherKeepsPoint(s, a);
    }
  }

  lemma QuietKeepsErrors(s: State, a: Action)
    requires Errors(s) && Quiet(s, a)
    ensures Errors(WorkerStep(s, a)) && (Clean(WorkerStep(s, a)) ==> Clean(s))
  {
  }

  /** A quiet step leaves the samples; a step that stays in the loop stays in or out of the call. */
  lemma QuietFrame(s: State, a: Action)
    requires Quiet(s, a)
    ensures var t := WorkerStep(s, a);
      && t.trace.samples == s.trace.samples && t.now == s.now && t.sampleLimit == s.sampleLimit
      && (!a.Panic? ==> t.work.at.InCall() == s.work.at.InCall())
      && (!LoopEnded(t) ==> !LoopEnded(s) && !a.Panic?)
      && (a.Panic? ==> !Clean(t))
  {
  }

  lemma RecordsCarry(s: State, t: State)
    requires Records(s) && t.trace.samples == s.trace.samples && t.now == s.now
    requires Clean(t) ==> Clean(s) && t.work.at.InCall() == s.work.at.InCall()
    ensures Records(t)
  {
    SameCompleted(s, t);
  }

  lemma OpenCarries(s: State, t: State)
    requires OnlyLastOpen(s) && t.trace.samples == s.trace.samples && t.sampleLimit == s.sampleLimit
    requires !LoopEnded(t) ==> !LoopEnded(s) && t.work.at.InCall() == s.work.at.InCall()
    ensures OnlyLastOpen(t)
  {
  }

  lemma QuietKeepsRecords(s: State, a: Action)
    requires Errors(s) && Records(s) && OnlyLastOpen(s) && Quiet(s, a)
    ensures Records(WorkerStep(s, a)) && OnlyLastOpen(WorkerStep(s, a))
  {
    QuietKeepsErrors(s, a);
    QuietFrame(s, a);
    RecordsCarry(s, WorkerStep(s, a));
    OpenCarries(s, WorkerStep(s, a));
  }

  lemma QuietKeepsExhaustion(s: State, a: Action)
    requires Exhaustion(s) && Quiet(s, a)
    ensures Exhaustion(WorkerStep(s, a))
  {
  }

  lemma LoopFrame(s: State, a: Action)
    requires WorkerEnabled(s, a) && (CallAction(a) || WaitAction(a))
    ensures var t := WorkerStep(s, a);
      && t.trace == s.trace
      && !(s.work.at.Closing? || s.work.at.InClose? || s.work.at.Reporting? || s.work.at.Done?)
      && !(t.work.at.Closing? || t.work.at.InClose? || t.work.at.Reporting? || t.work.at.Done?)
      && (t.work.at.LeavingLoop? ==> t.work.at.failure == Some(SenderGone))
  {
  }

  lemma CallKeepsCalls(s: State, a: Action)
    requires Calls(s) && WorkerEnabled(s, a) && (CallAction(a) || WaitAction(a))
    ensures Calls(WorkerStep(s, a))
  {
    LoopFrame(s, a);
    CallsCarry(s, WorkerStep(s, a));
  }

  lemma CallsCarry(s: State, t: State)
    requires Calls(s) && t.trace == s.trace
    requires !(s.work.at.Closing? || s.work.at.InClose? || s.work.at.Reporting? || s.work.at.Done?)
    requires !(t.work.at.Closing? || t.work.at.InClose? || t.work.at.Reporting? || t.work.at.Done?)
    requires t.work.at.LeavingLoop? ==> t.work.at.failure != Some(FactoryFailed)
    ensures Calls(t)
  {
  }

  lemma OtherKeepsCalls(s: State, a: Action)
    requires Calls(s) && WorkerPoint(s) && Quiet(s, a) && !CallAction(a) && !WaitAction(a)
    ensures Calls(WorkerStep(s, a))
  {
  }

  lemma WorkerKeepsInv(s: State, a: Action)
    requires Inv(s) && WorkerEnabled(s, a)
    ensures Inv(WorkerStep(s, a))
  {
    if a.EnterQuery? {
      EnterKeepsHandshake(s);
      EnterKeepsPoint(s);
      EnterKeepsRecords(s);
      EnterKeepsExhaustion(s);
      EnterKeepsRest(s);
    } else if a.Record? {
      RecordKeepsHandshake(s);
      RecordKeepsPoint(s);
      RecordKeepsRecords(s);
      RecordKeepsRest(s);
    } else {
      QuietKeepsInv(s, a);
    }
  }

  lemma QuietKeepsInv(s: State, a: Action)
    requires Inv(s) && Quiet(s, a)
    ensures Inv(WorkerStep(s, a))
  {
    QuietKeepsChannels(s, a);
    QuietKeepsHandshake(s, a);
    QuietKeepsPoint(s, a);
    QuietKeepsErrors(s, a);
    QuietKeepsRecords(s, a);
    QuietKeepsExhaustion(s, a);
    if CallAction(a) || WaitAction(a) {
      CallKeepsCalls(s, a);
    } else {
      OtherKeepsCalls(s, a);
    }
  }

  lemma StepKeepsInv(s: State, a: Action)
    requires Inv(s) && Enabled(s, a)
    ensures Inv(Step(s, a))
  {
    if a.Tick? {
      TickKeepsInv(s, a.elapsed);
    } else if WorkerEnabled(s, a) {
      WorkerKeepsInv(s, a);
    } else {
      ParentKeepsInv(s, a);
    }
  }

  lemma {:induction false} RunKeepsInv(s: State, actions: seq<Action>)
    requires Inv(s) && Run(s, actions).Some?
    ensures Inv(Run(s, actions).value)
    decreases |actions|
  {
    if actions != [] {
      StepKeepsInv(s, actions[0]);
      RunKeepsInv(Step(s, actions[0]), actions[1..]);
    }
  }

  /** Every reachable state satisfies the invariant. */
  lemma ReachableInv(s: State)
    requires Reachable(s)
    ensures Inv(s)
  {
    var now: nat, limit: nat, actions: seq<Action> :| Run(Start(now, limit), actions) == Some(s);
    StartInv(now, limit);
    RunKeepsInv(Start(now, limit), actions);
  }

  // -------------------------------------------------------------- theorems

  /** In every reachable state only the last raw record can be open. */
  lemma OnlyLastRecordPending(s: State)
    requires Reachable(s)
    ensures forall i :: 0 <= i < |s.trace.samples.raw| - 1 ==> s.trace.samples.raw[i].returned.Some?
    ensures |s.trace.samples.raw| <= s.sampleLimit
  {
    ReachableInv(s);
  }

  /** Running out of storage takes at least one schedule interval per stored sample. */
  lemma ExhaustionTakesTime(s: State)
    requires Reachable(s) && s.trace.primaryError == Some(StorageExhausted) && s.sampleLimit > 0
    ensures s.trace.samples.baseline.Some?
    ensures s.now - s.trace.samples.baseline.value >= s.sampleLimit * INTERVAL
  {
    ReachableInv(s);
  }

  /** The run ended without a failure on either side, and the library was closed. */
  ghost predicate Succeeded(s: State) {
    s.owner.joined && !s.owner.failed && s.trace.primaryError.None? && s.trace.shutdownCompleted
    && !s.trace.shutdownFailed
  }

  lemma SucceededRecord(s: State)
    requires Inv(s) && Succeeded(s)
    ensures GoodSamples(s.trace.samples) && |s.trace.samples.raw| >= 2
    ensures FinalRecorded(s) && s.work.received == s.owner.requested
  {
    assert s.work.at.Done?;
    assert Completed(s) == s.trace.samples;
    assert s.trace.samples.raw != [] && !s.trace.samples.raw[0].final;
  }

  /**
   Over every interleaving, the monitor yields evidence exactly when nothing failed:
   the coverage, interval and sample checks that follow never reject a run.
   */
  lemma EvidenceIffSucceeded(s: State)
    requires Reachable(s)
    ensures EvidenceOf(s).Ok? <==> Succeeded(s)
  {
    ReachableInv(s);
    if Succeeded(s) {
      SucceededRecord(s);
      GoodSamplesValidate(s.trace.samples);
    }
  }

  /** Every query was answered; observations are 5 to 50 ms apart from baseline to final. */
  ghost predicate GapFree(t: Samples, finalObserved: Option<nat>) {
    && |t.raw| >= 2
    && t.baseline == t.raw[0].observed && finalObserved == t.raw[|t.raw| - 1].observed
    && (forall i :: 0 <= i < |t.raw| ==> Sound(t.raw[i]))
    && (forall i :: 0 < i < |t.raw| ==>
          INTERVAL <= t.raw[i].observed.value - t.raw[i - 1].observed.value <= LIMIT)
  }

  /** Exactly the last query is final, and it was entered at or after the finish request. */
  ghost predicate FinalCoversRequest(raw: seq<RawSample>, requested: Option<nat>) {
    && raw != [] && requested.Some?
    && (forall i :: 0 <= i < |raw| ==> (raw[i].final <==> i == |raw| - 1))
    && raw[|raw| - 1].enter >= requested.value
  }

  /** One close, after the last of `n` queries. */
  ghost predicate ClosedOnce(calls: seq<ApiCall>, n: nat) {
    |calls| == n + 1 && calls[n] == Close && forall i :: 0 <= i < n ==> calls[i] == Query
  }

  lemma GoodIsGapFree(t: Samples)
    requires GoodSamples(t) && |t.raw| >= 2
    ensures GapFree(t, t.raw[|t.raw| - 1].observed)
  {
    forall i | 0 < i < |t.raw|
      ensures INTERVAL <= t.raw[i].observed.value - t.raw[i - 1].observed.value <= LIMIT
    {
      assert Follows(t.raw[i - 1], t.raw[i]);
    }
  }

  /** Accepted evidence covers the whole measurement, for every interleaving. */
  lemma EvidenceCovers(s: State)
    requires Reachable(s) && EvidenceOf(s).Ok?
    ensures GapFree(s.trace.samples, s.trace.finalObserved)
    ensures FinalCoversRequest(s.trace.samples.raw, s.owner.requested)
    ensures ClosedOnce(s.trace.calls, |s.trace.samples.raw|)
  {
    EvidenceIffSucceeded(s);
    ReachableInv(s);
    SucceededRecord(s);
    GoodIsGapFree(s.trace.samples);
    FinalIsLast(s);
  }

  lemma FinalIsLast(s: State)
    requires Channels(s) && OnlyLastOpen(s) && Calls(s) && FinalRecorded(s) && Succeeded(s)
    requires s.work.received == s.owner.requested
    ensures FinalCoversRequest(s.trace.samples.raw, s.owner.requested)
    ensures ClosedOnce(s.trace.calls, |s.trace.samples.raw|)
  {
  }

  /** The published figures: the projection of every record, and its true peak. */
  lemma EvidenceFigures(s: State)
    requires Reachable(s) && EvidenceOf(s).Ok?
    ensures var e := EvidenceOf(s).value;
      && e.samples == s.trace.samples.projected && e.sampleCount == |s.trace.samples.raw|
      && e.baselineMib == e.samples[0].usedMib
      && e.peakMib == e.baselineMib + e.deltaMib
      && (forall i :: 0 <= i < |e.samples| ==> e.samples[i].usedMib <= e.peakMib)
      && (exists i :: 0 <= i < |e.samples| && e.samples[i].usedMib == e.peakMib)
  {
    EvidenceIffSucceeded(s);
    ReachableInv(s);
    SucceededRecord(s);
    var peak := Peak(s.trace.samples.projected);
    assert s.trace.samples.projected[0].usedMib <= peak;
  }
}
