/**
 * SelfTest/PressureTest.c: the pressure test state machine. Its instance data
 * is one integer, `pressure`. PRE_Start starts a test from Idle (guarded by
 * pressure == 0); StartTest hops straight to Completed, which notifies and hops
 * back to Idle, whose entry resets the pressure and stops the poll timer.
 * PRE_Poll is ignored in every state.
 */
module PressureTest {
  import opened Wrappers
  import opened StateMachine

  /** The state enumeration, in state-map order. */
  datatype State = Idle | Completed | Failed | StartTest

  /** PRE_Start, PRE_Cancel and PRE_Poll. */
  datatype Event = Start | Cancel | Poll

  /** TMR_Stop of PRE_PollCallback, and CB_Invoke of PRE_CompletedCb / PRE_FailedCb. */
  datatype Effect = StopPollTimer | InvokeCompleted | InvokeFailed

  /** The transition map of PRE_Start. */
  function StartMap(s: State): Transition<State>
  {
    match s
    case Idle => Goto(StartTest)
    case Completed => CannotHappen
    case Failed => CannotHappen
    case StartTest => EventIgnored
  }

  /** The transition map of PRE_Cancel. */
  function CancelMap(s: State): Transition<State>
  {
    match s
    case Idle => EventIgnored
    case Completed => CannotHappen
    case Failed => CannotHappen
    case StartTest => Goto(Failed)
  }

  /** The transition map of PRE_Poll. */
  function PollMap(s: State): Transition<State>
  {
    EventIgnored
  }

  function TransitionMap(e: Event, s: State): Transition<State>
  {
    match e
    case Start => StartMap(s)
    case Cancel => CancelMap(s)
    case Poll => PollMap(s)
  }

  /** GD_StartTest: a test may start only while the pressure is low. */
  function GdStartTest(pressure: int): bool
  {
    pressure == 0
  }

  /** EN_Idle */
  function EnIdle(pressure: int): Update<int, Effect>
  {
    Update(0, [StopPollTimer])
  }

  /** ST_Idle */
  function StIdle(pressure: int): Action<State, int, Effect>
  {
    Action(pressure, None, [])
  }

  /** ST_Completed: hop to Idle, then notify. */
  function StCompleted(pressure: int): Action<State, int, Effect>
  {
    Action(pressure, Some(Idle), [InvokeCompleted])
  }

  /** ST_Failed: hop to Idle, then notify. */
  function StFailed(pressure: int): Action<State, int, Effect>
  {
    Action(pressure, Some(Idle), [InvokeFailed])
  }

  /** ST_StartTest: the test completes at once. */
  function StStartTest(pressure: int): Action<State, int, Effect>
  {
    Action(pressure, Some(Completed), [])
  }

  /** The state map: (state action, guard, entry, exit) per state. */
  function StateMap(s: State): StateMapEntry<State, int, Effect>
  {
    match s
    case Idle => StateMapEntry(StIdle, None, Some(EnIdle), None)
    case Completed => StateMapEntry(StCompleted, None, None, None)
    case Failed => StateMapEntry(StFailed, None, None, None)
    case StartTest => StateMapEntry(StStartTest, Some(GdStartTest), None, None)
  }

  /** Internal events lead from a higher rank to a lower one. */
  function Rank(s: State): nat
  {
    match s
    case Idle => 0
    case Completed => 1
    case Failed => 1
    case StartTest => 2
  }

  function PressureTestSM(): Machine<State, int, Effect>
  {
    Machine(StateMap, Rank)
  }

  /** SM_Event(PressureTestSM, e) in state s with the given pressure. */
  function Dispatch(e: Event, s: State, pressure: int): Outcome<State, int, Effect>
  {
    ExternalEvent(PressureTestSM(), TransitionMap(e, s), s, pressure)
  }

  /** The only state the machine rests in between external events: Idle, at pressure 0. */
  predicate Resting(s: State, pressure: int)
  {
    s == Idle && pressure == 0
  }

  /** PRE_Start: Idle to StartTest; fatal in Completed and Failed; ignored in StartTest. */
  lemma StartMapColumns(s: State)
    ensures StartMap(s) == Goto(StartTest) <==> s == Idle
    ensures StartMap(s).CannotHappen? <==> s == Completed || s == Failed
    ensures StartMap(s).EventIgnored? <==> s == StartTest
  {
  }

  /** PRE_Cancel: ignored in Idle; fatal in Completed and Failed; Failed from StartTest. */
  lemma CancelMapColumns(s: State)
    ensures CancelMap(s).EventIgnored? <==> s == Idle
    ensures CancelMap(s).CannotHappen? <==> s == Completed || s == Failed
    ensures CancelMap(s) == Goto(Failed) <==> s == StartTest
  {
  }

  /** PRE_Poll is ignored in every state and with any pressure. */
  lemma PollIgnored(s: State, pressure: int)
    ensures Dispatch(Poll, s, pressure) == Done(s, pressure, [], [])
  {
  }

  /**
   * Idle's entry is the only action that writes the pressure, and it writes 0
   * and stops the poll timer; StartTest, Completed and Failed always hop on.
   */
  lemma PressureActions(s: State, pressure: int)
    ensures var row := StateMap(s);
      && row.state(pressure).data == pressure
      && row.exit.None?
      && (row.entry.Some? <==> s == Idle)
      && (row.entry.Some? ==> row.entry.value(pressure) == Update(0, [StopPollTimer]))
      && (row.state(pressure).internal.Some? <==> s != Idle)
  {
  }

  /** The guard admits StartTest exactly when the pressure is low. */
  lemma GuardAdmitsIffLow(pressure: int)
    ensures StateMap(StartTest).guard.Some?
    ensures StateMap(StartTest).guard.value(pressure) <==> pressure == 0
  {
  }

  /**
   * PRE_Start from rest runs the whole test within the one call: StartTest,
   * Completed and Idle's entry and action, notifying completion once and
   * ending at rest again.
   */
  lemma StartRunsToCompletion()
    ensures Dispatch(Start, Idle, 0)
         == Done(Idle, 0,
                 [Guard(StartTest, true), State(StartTest), State(Completed), Entry(Idle), State(Idle)],
                 [InvokeCompleted, StopPollTimer])
  {
    var m := PressureTestSM();
    assert Run(m, Completed, 0, Idle) == Done(Idle, 0, [Entry(Idle), State(Idle)], [StopPollTimer]);
    assert Run(m, StartTest, 0, Completed)
        == Done(Idle, 0, [State(Completed), Entry(Idle), State(Idle)], [InvokeCompleted, StopPollTimer]);
  }

  /** While the pressure is high, the guard blocks PRE_Start and nothing happens. */
  lemma HighPressureBlocksStart(pressure: int)
    requires pressure != 0
    ensures Dispatch(Start, Idle, pressure) == Done(Idle, pressure, [Guard(StartTest, false)], [])
  {
  }

  /** PRE_Cancel reaching StartTest fails the test and returns to rest. */
  lemma CancelInStartTestFails(pressure: int)
    ensures Dispatch(Cancel, StartTest, pressure)
         == Done(Idle, 0, [State(Failed), Entry(Idle), State(Idle)], [InvokeFailed, StopPollTimer])
  {
    var m := PressureTestSM();
    assert Run(m, Failed, pressure, Idle) == Done(Idle, 0, [Entry(Idle), State(Idle)], [StopPollTimer]);
  }

  /**
   * Every external event at rest: never fatal, rest again afterwards, and
   * exactly one completion notification for PRE_Start and nothing otherwise.
   */
  lemma EventKeepsResting(e: Event, s: State, pressure: int)
    requires Resting(s, pressure)
    ensures var r := Dispatch(e, s, pressure);
      && r.Done?
      && Resting(r.state, r.data)
      && r.effects == (if e == Start then [InvokeCompleted, StopPollTimer] else [])
      && (e != Start ==> r == Done(s, pressure, [], []))
  {
    if e == Start {
      StartRunsToCompletion();
    }
  }

  /** The machine's instance: current state and pressureTestObj, updated in place by each event. */
  class PressureTestInstance {
    var current: State
    var pressure: int

    ghost predicate Valid()
      reads this
    {
      Resting(current, pressure)
    }

    /** Static initialisation: Idle with pressure 0. */
    constructor ()
      ensures Valid() && current == Idle && pressure == 0
    {
      current := Idle;
      pressure := 0;
    }

    /** SM_Event(PressureTestSM, e): returns the effects the event issued. */
    method Event(e: Event) returns (effects: seq<Effect>)
      requires Valid()
      modifies this
      ensures Valid()
      ensures var r := Dispatch(e, old(current), old(pressure));
        r.Done? && current == r.state && pressure == r.data && effects == r.effects
    {
      EventKeepsResting(e, current, pressure);
      var r := Dispatch(e, current, pressure);
      current, pressure, effects := r.state, r.data, r.effects;
    }
  }
}
