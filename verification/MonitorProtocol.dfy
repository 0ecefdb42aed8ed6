/**
 The protocol between the benchmark thread (parent) and the NVML sampling thread
 (worker): a one-slot stop channel, a one-slot ready channel, an acknowledgement
 and a shared trace, over one monotone clock.

 A run is a sequence of actions.  Each action is one atomic step of one thread or
 the passing of time, so a sequence of actions is an interleaving, and a statement
 about `Run` is a statement about every interleaving.
 */
module MonitorProtocol {
  import opened Options
  import opened MonitorTrace

  // The worker's position; the arguments are its local variables.
  datatype Worker =
    | Opening
    | Initializing
    | Waiting
    | Sleeping
    | Polling
    | Entering
    | Querying(enter: nat, final: bool)
    | Observing(enter: nat, final: bool, returned: nat, code: int, memory: Option<Memory>)
    | Recording(sample: RawSample)
    | Announcing(final: bool, observed: Option<nat>)
    | LeavingLoop(failure: Option<Failure>)
    | Closing
    | InClose
    | Reporting
    | Done
  {
    predicate Sampling() {
      Waiting? || Sleeping? || Polling? || Entering? || Querying? || Observing? || Recording? || Announcing?
    }

    /** A query is under way and its record is still open. */
    predicate InCall() { Querying? || Observing? || Recording? }
  }

  datatype Parent = AwaitingBaseline | Measuring | Stopping | Sending | AwaitingAck | Joining | Joined

  datatype Ready = NoMessage | BaselineReady | BaselineFailed

  datatype ApiCall = Query | Close

  datatype Work = Work(
    at: Worker,
    next: nat,                      // earliest time of the next query
    received: Option<nat>,          // finish request taken from the stop channel
    readySent: bool)

  datatype Trace = Trace(
    samples: Samples,
    finishRequested: Option<nat>,
    finalEnter: Option<nat>,
    finalObserved: Option<nat>,
    primaryError: Option<Failure>,
    shutdownFailed: bool,
    shutdownCompleted: bool,
    calls: seq<ApiCall>)            // history of provider calls

  datatype Wire = Wire(
    stop: Option<nat>,
    senderAlive: bool,
    ready: Ready,
    receiverAlive: bool,
    acknowledged: bool)

  datatype Owner = Owner(
    at: Parent,
    requested: Option<nat>,
    failed: bool,
    joined: bool)

  datatype State = State(now: nat, sampleLimit: nat, work: Work, trace: Trace, wire: Wire, owner: Owner)

  function Start(now: nat, sampleLimit: nat): State {
    State(now, sampleLimit,
          Work(Opening, 0, None, false),
          Trace(Samples([], [], None, 0), None, None, None, None, false, false, []),
          Wire(None, true, NoMessage, true, false),
          Owner(AwaitingBaseline, None, false, false))
  }

  datatype Action =
    | Tick(elapsed: nat)
    // worker
    | OpenLibrary(ok: bool)
    | Initialize(ok: bool)
    | ReceiveStop | WaitTimedOut | StopDisconnected | WaitSkipped
    | WakeUp
    | PollStop
    | EnterQuery
    | QueryReturned(code: int, memory: Option<Memory>)
    | Observe
    | Record
    | Announce
    | Panic
    | LeaveLoop
    | CloseLibrary
    | CloseReturned(ok: bool)
    | Report
    // parent
    | TakeBaseline | BaselineLost
    | Finish | Drop
    | ReadClock | SendStop
    | TakeAck | AckTimedOut
    | Join | JoinPanicked

  // ---------------------------------------------------------- worker steps

  function Goto(s: State, at: Worker): State {
    s.(work := s.work.(at := at))
  }

  function Fail(s: State, failure: Failure): State {
    Goto(s, LeavingLoop(Some(failure)))
  }

  function TakeStop(s: State, at: Worker): State {
    s.(work := s.work.(received := s.wire.stop, at := at), wire := s.wire.(stop := None))
  }

  function EnterStep(s: State): State {
    var trace := s.trace.(finishRequested := s.work.received);
    if |trace.samples.raw| == s.sampleLimit then Fail(s.(trace := trace), StorageExhausted)
    else
      var final := s.work.received.Some? && s.now >= s.work.received.value;
      var pending := RawSample(s.now, None, None, None, None, None, final);
      var samples := trace.samples.(raw := trace.samples.raw + [pending]);
      Goto(s.(trace := trace.(samples := samples, calls := trace.calls + [Query])), Querying(s.now, final))
  }

  function ObserveStep(s: State): State
    requires s.work.at.Observing?
  {
    var w := s.work.at;
    var valid := ValidateMemory(w.code, w.memory).Ok?;
    var span := if w.returned < w.enter then 0 else w.returned - w.enter;
    Goto(s, Recording(RawSample(w.enter, Some(w.returned), Some(span),
                                if valid then Some(s.now) else None, Some(w.code), w.memory, w.final)))
  }

  function RecordStep(s: State): State
    requires s.work.at.Recording?
  {
    var sample := s.work.at.sample;
    var trace := s.trace;
    if trace.samples.raw == [] then Fail(s, PendingMissing)
    else
      var popped := trace.samples.(raw := trace.samples.raw[..|trace.samples.raw| - 1]);
      var kept := Retain(popped, sample);
      var pushed := trace.(samples := kept.0);
      if kept.1.Some? then Fail(s.(trace := pushed), kept.1.value)
      else
        var marked := if sample.final
                      then pushed.(finalEnter := Some(sample.enter), finalObserved := sample.observed) else pushed;
        Goto(s.(trace := marked), Announcing(sample.final, sample.observed))
  }

  function AnnounceStep(s: State): State
    requires s.work.at.Announcing?
  {
    var w := s.work.at;
    if !s.work.readySent && !s.wire.receiverAlive then Fail(s, ReceiverGone)
    else
      var t := if s.work.readySent then s
               else s.(wire := s.wire.(ready := BaselineReady), work := s.work.(readySent := true));
      if w.final then Goto(t, LeavingLoop(None))
      else if w.observed.None? then Fail(t, MissingObservation)
      else t.(work := t.work.(next := w.observed.value + INTERVAL, at := Waiting))
  }

  predicate WorkerEnabled(s: State, a: Action) {
    match a
    case OpenLibrary(_) => s.work.at.Opening?
    case Initialize(_) => s.work.at.Initializing?
    case ReceiveStop => s.work.at.Waiting? && s.work.received.None? && s.wire.stop.Some?
    case WaitTimedOut => s.work.at.Waiting? && s.work.received.None?
    case StopDisconnected => s.work.at.Waiting? && s.work.received.None? && s.wire.stop.None? && !s.wire.senderAlive
    case WaitSkipped => s.work.at.Waiting? && s.work.received.Some?
    case WakeUp => s.work.at.Sleeping? && s.now >= s.work.next
    case PollStop => s.work.at.Polling?
    case EnterQuery => s.work.at.Entering?
    case QueryReturned(_, _) => s.work.at.Querying?
    case Observe => s.work.at.Observing?
    case Record => s.work.at.Recording?
    case Announce => s.work.at.Announcing?
    case Panic => s.work.at.Initializing? || s.work.at.Sampling()
    case LeaveLoop => s.work.at.LeavingLoop?
    case CloseLibrary => s.work.at.Closing?
    case CloseReturned(_) => s.work.at.InClose?
    case Report => s.work.at.Reporting?
    case _ => false
  }

  function WorkerStep(s: State, a: Action): State
    requires WorkerEnabled(s, a)
  {
    match a
    case OpenLibrary(ok) =>
      if ok then Goto(s, Initializing)
      else Goto(s.(trace := s.trace.(primaryError := Some(FactoryFailed)),
                   wire := s.wire.(ready := BaselineFailed, acknowledged := true)), Done)
    case Initialize(ok) =>
      if ok then s.(work := s.work.(next := s.now, at := Waiting)) else Fail(s, InitializeFailed)
    case ReceiveStop => TakeStop(s, Sleeping)
    case WaitTimedOut => Goto(s, Sleeping)
    case StopDisconnected => Fail(s, SenderGone)
    case WaitSkipped => Goto(s, Sleeping)
    case WakeUp => Goto(s, Polling)
    case PollStop =>
      if s.work.received.None? && s.wire.stop.Some? then TakeStop(s, Entering) else Goto(s, Entering)
    case EnterQuery => EnterStep(s)
    case QueryReturned(code, memory) =>
      Goto(s, Observing(s.work.at.enter, s.work.at.final, s.now, code, memory))
    case Observe => ObserveStep(s)
    case Record => RecordStep(s)
    case Announce => AnnounceStep(s)
    case Panic => Fail(s, WorkerPanicked)
    case LeaveLoop => Goto(s.(trace := s.trace.(primaryError := s.work.at.failure)), Closing)
    case CloseLibrary => Goto(s.(trace := s.trace.(calls := s.trace.calls + [Close])), InClose)
    case CloseReturned(ok) =>
      Goto(s.(trace := s.trace.(shutdownCompleted := ok, shutdownFailed := !ok)), Reporting)
    case Report =>
      Goto(s.(wire := s.wire.(ready := if s.work.readySent then s.wire.ready else BaselineFailed,
                              acknowledged := true)), Done)
  }

  // ---------------------------------------------------------- parent steps

  predicate ParentEnabled(s: State, a: Action) {
    match a
    case TakeBaseline => s.owner.at.AwaitingBaseline? && s.wire.ready.BaselineReady?
    case BaselineLost => s.owner.at.AwaitingBaseline?
    case Finish => s.owner.at.Measuring?
    case Drop => s.owner.at.Measuring?
    case ReadClock => s.owner.at.Stopping?
    case SendStop => s.owner.at.Sending? && s.owner.requested.Some?
    case TakeAck => s.owner.at.AwaitingAck? && s.wire.acknowledged
    case AckTimedOut => s.owner.at.AwaitingAck?
    case Join => s.owner.at.Joining? && s.work.at.Done?
    case JoinPanicked => s.owner.at.Joining?
    case _ => false
  }

  function ParentStep(s: State, a: Action): State
    requires ParentEnabled(s, a)
  {
    var o := s.owner;
    match a
    case TakeBaseline =>
      s.(wire := s.wire.(ready := NoMessage, receiverAlive := false), owner := o.(at := Measuring))
    case BaselineLost => s.(owner := o.(failed := true, at := Stopping))
    case Finish => s.(owner := o.(at := Stopping))
    case Drop => s.(owner := o.(failed := true, at := Stopping))
    case ReadClock => s.(owner := o.(requested := Some(s.now), at := Sending))
    case SendStop => s.(wire := s.wire.(stop := o.requested, senderAlive := false), owner := o.(at := AwaitingAck))
    case TakeAck => s.(owner := o.(at := Joining))
    case AckTimedOut => s.(owner := o.(failed := true, at := Joining))
    case Join => s.(owner := o.(joined := true, at := Joined))
    case JoinPanicked => s.(owner := o.(failed := true, joined := true, at := Joined))
  }

  // ------------------------------------------------------------------ runs

  predicate Enabled(s: State, a: Action) {
    a.Tick? || WorkerEnabled(s, a) || ParentEnabled(s, a)
  }

  function Step(s: State, a: Action): State
    requires Enabled(s, a)
  {
    if a.Tick? then s.(now := s.now + a.elapsed)
    else if WorkerEnabled(s, a) then WorkerStep(s, a)
    else ParentStep(s, a)
  }

  /** The state after a run, if every action was enabled when it was taken. */
  function Run(s: State, actions: seq<Action>): Option<State>
    decreases |actions|
  {
    if actions == [] then Some(s)
    else if Enabled(s, actions[0]) then Run(Step(s, actions[0]), actions[1..])
    else None
  }

  ghost predicate Reachable(s: State) {
    exists now: nat, limit: nat, actions: seq<Action> :: Run(Start(now, limit), actions) == Some(s)
  }

  /** What `ActiveMemoryMonitor::evidence` returns once the parent has joined the worker. */
  function EvidenceOf(s: State): Result<Evidence> {
    if s.owner.failed then Err(BaselineMissing)
    else if s.trace.primaryError.Some? then Err(s.trace.primaryError.value)
    else if s.trace.shutdownFailed || !s.trace.shutdownCompleted || !s.owner.joined then Err(WorkerPanicked)
    else if s.owner.requested.None? then Err(SenderGone)
    else if s.trace.finishRequested != s.owner.requested || s.trace.finalEnter.None?
            || s.trace.finalEnter.value < s.owner.requested.value || s.trace.finalObserved.None? then Err(MissingObservation)
    else
      var interval := ObservedInterval(s.trace.samples.maximumGap);
      if interval.Err? then Err(interval.error)
      else Validate(interval.value, false, [], s.trace.samples.projected)
  }
}
