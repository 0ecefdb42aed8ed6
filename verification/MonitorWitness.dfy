/**
 A run of the monitor that succeeds: the safety theorems speak of runs that exist.
 */
module MonitorWitness {
  import opened Options
  import opened MonitorTrace
  import opened MonitorProtocol

  lemma {:induction false} RunOneMore(s: State, actions: seq<Action>, a: Action)
    requires Run(s, actions).Some? && Enabled(Run(s, actions).value, a)
    ensures Run(s, actions + [a]) == Some(Step(Run(s, actions).value, a))
    decreases |actions|
  {
    if actions == [] {
      assert [a][1..] == [];
      assert actions + [a] == [a];
    } else {
      assert (actions + [a])[0] == actions[0] && (actions + [a])[1..] == actions[1..] + [a];
      RunOneMore(Step(s, actions[0]), actions[1..], a);
    }
  }

  /** Reachable states are closed under enabled steps. */
  lemma Take(s: State, a: Action) returns (t: State)
    requires Reachable(s) && Enabled(s, a)
    ensures Reachable(t) && t == Step(s, a)
  {
    var now: nat, limit: nat, actions: seq<Action> :| Run(Start(now, limit), actions) == Some(s);
    RunOneMore(Start(now, limit), actions, a);
    t := Step(s, a);
  }

  const MEMORY := Memory(2, 1, 1)

  function Sampled(at: nat, final: bool): RawSample {
    RawSample(at, Some(at), Some(0), Some(at), Some(0), Some(MEMORY), final)
  }

  const EMPTY := Trace(Samples([], [], None, 0), None, None, None, None, false, false, [])

  const BASELINE := Trace(Samples([Sampled(0, false)], [MemorySample(0, 0)], Some(0), 0),
                          None, None, None, None, false, false, [Query])

  const COMPLETE := Trace(Samples([Sampled(0, false), Sampled(INTERVAL, true)],
                                  [MemorySample(0, 0), MemorySample(5, 0)], Some(0), INTERVAL),
                          Some(0), Some(INTERVAL), Some(INTERVAL), None, false, false, [Query, Query])

  const QUIET := Wire(None, true, NoMessage, true, false)
  const WAITING := Owner(AwaitingBaseline, None, false, false)

  /** About to enter the first query. */
  function First(): State { State(0, 2, Work(Entering, 0, None, false), EMPTY, QUIET, WAITING) }

  /** The baseline was recorded. */
  function Measured(): State { State(0, 2, Work(Announcing(false, Some(0)), 0, None, false), BASELINE, QUIET, WAITING) }

  /** The parent took the baseline. */
  function Taken(): State {
    State(0, 2, Work(Waiting, INTERVAL, None, true), BASELINE,
          Wire(None, true, NoMessage, false, false), Owner(Measuring, None, false, false))
  }

  /** The parent requested the finish. */
  function Requested(): State {
    State(0, 2, Work(Waiting, INTERVAL, None, true), BASELINE,
          Wire(Some(0), false, NoMessage, false, false), Owner(AwaitingAck, Some(0), false, false))
  }

  /** About to enter the final query, one interval later. */
  function Last(): State {
    State(INTERVAL, 2, Work(Entering, INTERVAL, Some(0), true), BASELINE,
          Wire(None, false, NoMessage, false, false), Owner(AwaitingAck, Some(0), false, false))
  }

  /** The final query was recorded. */
  function Recorded(): State {
    Last().(work := Work(Announcing(true, Some(INTERVAL)), INTERVAL, Some(0), true), trace := COMPLETE)
  }

  /** The library is being closed. */
  function Closing(): State {
    Last().(work := Work(InClose, INTERVAL, Some(0), true), trace := COMPLETE.(calls := [Query, Query, Close]))
  }

  /** The worker has ended. */
  function Reported(): State {
    State(INTERVAL, 2, Work(Done, INTERVAL, Some(0), true),
          COMPLETE.(calls := [Query, Query, Close], shutdownCompleted := true),
          Wire(None, false, NoMessage, false, true), Owner(AwaitingAck, Some(0), false, false))
  }

  /** The parent has joined the worker. */
  function Over(): State { Reported().(owner := Owner(Joined, Some(0), false, true)) }

  lemma FirstReached()
    ensures Reachable(First())
  {
    var s := Start(0, 2);
    assert Run(s, []) == Some(s);
    s := Take(s, OpenLibrary(true));
    s := Take(s, Initialize(true));
    s := Take(s, WaitTimedOut);
    s := Take(s, WakeUp);
    s := Take(s, PollStop);
    assert s == First();
  }

  lemma MeasuredReached()
    ensures Reachable(Measured())
  {
    FirstReached();
    var s := First();
    s := Take(s, EnterQuery);
    s := Take(s, QueryReturned(0, Some(MEMORY)));
    s := Take(s, Observe);
    s := Take(s, Record);
    assert s == Measured();
  }

  lemma TakenReached()
    ensures Reachable(Taken())
  {
    MeasuredReached();
    var s := Measured();
    s := Take(s, Announce);
    s := Take(s, TakeBaseline);
    assert s == Taken();
  }

  lemma RequestedReached()
    ensures Reachable(Requested())
  {
    TakenReached();
    var s := Taken();
    s := Take(s, Finish);
    s := Take(s, ReadClock);
    s := Take(s, SendStop);
    assert s == Requested();
  }

  lemma LastReached()
    ensures Reachable(Last())
  {
    RequestedReached();
    var s := Requested();
    s := Take(s, ReceiveStop);
    s := Take(s, Tick(INTERVAL));
    s := Take(s, WakeUp);
    s := Take(s, PollStop);
    assert s == Last();
  }

  lemma RecordedReached()
    ensures Reachable(Recorded())
  {
    LastReached();
    var s := Last();
    s := Take(s, EnterQuery);
    s := Take(s, QueryReturned(0, Some(MEMORY)));
    s := Take(s, Observe);
    s := Take(s, Record);
    assert s == Recorded();
  }

  lemma ClosingReached()
    ensures Reachable(Closing())
  {
    RecordedReached();
    var s := Recorded();
    s := Take(s, Announce);
    s := Take(s, LeaveLoop);
    s := Take(s, CloseLibrary);
    assert s == Closing();
  }

  lemma ReportedReached()
    ensures Reachable(Reported())
  {
    ClosingReached();
    var s := Closing();
    s := Take(s, CloseReturned(true));
    s := Take(s, Report);
    assert s == Reported();
  }

  lemma OverReached()
    ensures Reachable(Over())
  {
    ReportedReached();
    var s := Reported();
    s := Take(s, TakeAck);
    s := Take(s, Join);
    assert s == Over();
  }

  lemma OverHasEvidence()
    ensures EvidenceOf(Over()).Ok?
  {
    var projected := [MemorySample(0, 0), MemorySample(5, 0)];
    assert Over().trace.samples.projected == projected && StepsWithin(projected, 5);
  }

  /** Some interleaving ends with accepted evidence. */
  lemma SuccessIsReachable()
    ensures exists s :: Reachable(s) && EvidenceOf(s).Ok?
  {
    OverReached();
    OverHasEvidence();
  }
}
