/**
 * SelfTest/CentrifugeTest.c: the centrifuge test state machine. Its instance
 * data is one integer, `speed`. CFG_Start starts a test from Idle (guarded by
 * speed == 0); the machine accelerates, polling every 100 ticks until the speed
 * reaches 5, then decelerates until it is back at 0, and completes; CFG_Cancel
 * fails a running test. Completed and Failed notify their subscribers and hop
 * back to Idle, whose entry resets the speed and stops the poll timer.
 */
module CentrifugeTest {
  import opened Wrappers
  import opened StateMachine

  /** The state enumeration, in state-map order. */
  datatype State =
    | Idle | Completed | Failed | StartTest
    | Acceleration | WaitForAcceleration | Deceleration | WaitForDeceleration

  /** CFG_Start, CFG_Cancel and CFG_Poll (the last sent by the poll timer's callback). */
  datatype Event = Start | Cancel | Poll

  /**
   * What the actions call outside the machine: TMR_Start / TMR_Stop of the poll
   * timer (CFG_PollCallback on DispatchCallbackThread1), and CB_Invoke of
   * CFG_CompletedCb / CFG_FailedCb.
   */
  datatype Effect = StartPollTimer(timeout: nat) | StopPollTimer | InvokeCompleted | InvokeFailed

  /** The poll period handed to TMR_Start, in ticks. */
  const PollTimeout: nat := 100

  /** The speed at which acceleration ends. */
  const TargetSpeed: int := 5

  /** The transition map of CFG_Start. */
  function StartMap(s: State): Transition<State>
  {
    match s
    case Idle => Goto(StartTest)
    case Completed => CannotHappen
    case Failed => CannotHappen
    case StartTest => EventIgnored
    case Acceleration => EventIgnored
    case WaitForAcceleration => EventIgnored
    case Deceleration => EventIgnored
    case WaitForDeceleration => EventIgnored
  }

  /** The transition map of CFG_Cancel. */
  function CancelMap(s: State): Transition<State>
  {
    match s
    case Idle => EventIgnored
    case Completed => CannotHappen
    case Failed => CannotHappen
    case StartTest => Goto(Failed)
    case Acceleration => Goto(Failed)
    case WaitForAcceleration => Goto(Failed)
    case Deceleration => Goto(Failed)
    case WaitForDeceleration => Goto(Failed)
  }

  /** The transition map of CFG_Poll. */
  function PollMap(s: State): Transition<State>
  {
    match s
    case Idle => EventIgnored
    case Completed => EventIgnored
    case Failed => EventIgnored
    case StartTest => EventIgnored
    case Acceleration => Goto(WaitForAcceleration)
    case WaitForAcceleration => Goto(WaitForAcceleration)
    case Deceleration => Goto(WaitForDeceleration)
    case WaitForDeceleration => Goto(WaitForDeceleration)
  }

  function TransitionMap(e: Event, s: State): Transition<State>
  {
    match e
    case Start => StartMap(s)
    case Cancel => CancelMap(s)
    case Poll => PollMap(s)
  }

  /** GD_StartTest: a test may start only while the centrifuge is stopped. */
  function GdStartTest(speed: int): bool
  {
    speed == 0
  }

  /** EN_Idle */
  function EnIdle(speed: int): Update<int, Effect>
  {
    Update(0, [StopPollTimer])
  }

  /** ST_Idle */
  function StIdle(speed: int): Action<State, int, Effect>
  {
    Action(speed, None, [])
  }

  /** ST_Completed: hop to Idle, then notify. */
  function StCompleted(speed: int): Action<State, int, Effect>
  {
    Action(speed, Some(Idle), [InvokeCompleted])
  }

  /** ST_Failed: hop to Idle, then notify. */
  function StFailed(speed: int): Action<State, int, Effect>
  {
    Action(speed, Some(Idle), [InvokeFailed])
  }

  /** ST_StartTest */
  function StStartTest(speed: int): Action<State, int, Effect>
  {
    Action(speed, Some(Acceleration), [])
  }

  /** ST_Acceleration */
  function StAcceleration(speed: int): Action<State, int, Effect>
  {
    Action(speed, None, [StartPollTimer(PollTimeout)])
  }

  /** ST_WaitForAcceleration: pre-increment, then compare. */
  function StWaitForAcceleration(speed: int): Action<State, int, Effect>
  {
    var faster := speed + 1;
    Action(faster, if faster >= TargetSpeed then Some(Deceleration) else None, [])
  }

  /** EX_WaitForAcceleration */
  function ExWaitForAcceleration(speed: int): Update<int, Effect>
  {
    Update(speed, [StopPollTimer])
  }

  /** ST_Deceleration */
  function StDeceleration(speed: int): Action<State, int, Effect>
  {
    Action(speed, None, [StartPollTimer(PollTimeout)])
  }

  /** ST_WaitForDeceleration: compare, then post-decrement. */
  function StWaitForDeceleration(speed: int): Action<State, int, Effect>
  {
    Action(speed - 1, if speed == 0 then Some(Completed) else None, [])
  }

  /** EX_WaitForDeceleration */
  function ExWaitForDeceleration(speed: int): Update<int, Effect>
  {
    Update(speed, [StopPollTimer])
  }

  /** The state map: (state action, guard, entry, exit) per state. */
  function StateMap(s: State): StateMapEntry<State, int, Effect>
  {
    match s
    case Idle => StateMapEntry(StIdle, None, Some(EnIdle), None)
    case Completed => StateMapEntry(StCompleted, None, None, None)
    case Failed => StateMapEntry(StFailed, None, None, None)
    case StartTest => StateMapEntry(StStartTest, Some(GdStartTest), None, None)
    case Acceleration => StateMapEntry(StAcceleration, None, None, None)
    case WaitForAcceleration => StateMapEntry(StWaitForAcceleration, None, None, Some(ExWaitForAcceleration))
    case Deceleration => StateMapEntry(StDeceleration, None, None, None)
    case WaitForDeceleration => StateMapEntry(StWaitForDeceleration, None, None, Some(ExWaitForDeceleration))
  }

  /** Internal events lead from a higher rank to a lower one. */
  function Rank(s: State): nat
  {
    match s
    case WaitForDeceleration => 2
    case Completed => 1
    case Failed => 1
    case StartTest => 1
    case WaitForAcceleration => 1
    case _ => 0
  }

  function CentrifugeTestSM(): Machine<State, int, Effect>
  {
    Machine(StateMap, Rank)
  }

  /** SM_Event(CentrifugeTestSM, e) in state s with the given speed. */
  function Dispatch(e: Event, s: State, speed: int): Outcome<State, int, Effect>
  {
    ExternalEvent(CentrifugeTestSM(), TransitionMap(e, s), s, speed)
  }

  /** The states in which a test is under way. */
  predicate Running(s: State)
  {
    s == Acceleration || s == WaitForAcceleration || s == Deceleration || s == WaitForDeceleration
  }

  /**
   * The states the machine can rest in between external events, with the
   * speed each allows. StartTest, Completed and Failed never appear: they always
   * hop on.
   */
  predicate Resting(s: State, speed: int)
  {
    match s
    case Idle => speed == 0
    case Acceleration => speed == 0
    case WaitForAcceleration => 1 <= speed < TargetSpeed
    case Deceleration => speed == TargetSpeed
    case WaitForDeceleration => 0 <= speed < TargetSpeed
    case _ => false
  }

  /** Whether the poll timer runs after the given effects, starting from `running`. */
  function PollTimerAfter(running: bool, effects: seq<Effect>): bool
    decreases |effects|
  {
    if effects == [] then running
    else
      var next := match effects[0]
        case StartPollTimer(_) => true
        case StopPollTimer => false
        case _ => running;
      PollTimerAfter(next, effects[1..])
  }

  predicate IsNotification(x: Effect)
  {
    x.InvokeCompleted? || x.InvokeFailed?
  }

  /** The completion and failure notifications among the effects, in order. */
  function Notifications(effects: seq<Effect>): seq<Effect>
  {
    Filter(IsNotification, effects)
  }

  lemma {:induction false} PollTimerAfterAppend(running: bool, x: seq<Effect>, y: seq<Effect>)
    ensures PollTimerAfter(running, x + y) == PollTimerAfter(PollTimerAfter(running, x), y)
    decreases |x|
  {
    if x != [] {
      assert (x + y)[0] == x[0];
      assert (x + y)[1..] == x[1..] + y;
      var next := match x[0]
        case StartPollTimer(_) => true
        case StopPollTimer => false
        case _ => running;
      PollTimerAfterAppend(next, x[1..], y);
    } else {
      assert x + y == y;
    }
  }

  /** CFG_Start: Idle to StartTest; fatal in Completed and Failed; ignored while running. */
  lemma StartMapColumns(s: State)
    ensures StartMap(s) == Goto(StartTest) <==> s == Idle
    ensures StartMap(s).CannotHappen? <==> s == Completed || s == Failed
    ensures StartMap(s).EventIgnored? <==> s == StartTest || Running(s)
  {
  }

  /** CFG_Cancel: ignored in Idle; fatal in Completed and Failed; Failed from every running state. */
  lemma CancelMapColumns(s: State)
    ensures CancelMap(s).EventIgnored? <==> s == Idle
    ensures CancelMap(s).CannotHappen? <==> s == Completed || s == Failed
    ensures CancelMap(s) == Goto(Failed) <==> s == StartTest || Running(s)
  {
  }

  /**
   * CFG_Poll: never fatal; ignored outside the running states; acceleration
   * states go to WaitForAcceleration, deceleration states to WaitForDeceleration.
   */
  lemma PollMapColumns(s: State)
    ensures !PollMap(s).CannotHappen?
    ensures PollMap(s).EventIgnored? <==> !Running(s)
    ensures PollMap(s) == Goto(WaitForAcceleration) <==> s == Acceleration || s == WaitForAcceleration
    ensures PollMap(s) == Goto(WaitForDeceleration) <==> s == Deceleration || s == WaitForDeceleration
  {
  }

  /**
   * Only Acceleration and Deceleration start the poll timer; only the two Wait
   * exits and Idle's entry stop it; StartTest, Completed and Failed always hop on.
   */
  lemma PollTimerOwners(s: State, speed: int)
    ensures var row := StateMap(s);
      && (StartPollTimer(PollTimeout) in row.state(speed).effects <==> s == Acceleration || s == Deceleration)
      && StopPollTimer !in row.state(speed).effects
      && (row.exit.Some? <==> s == WaitForAcceleration || s == WaitForDeceleration)
      && (row.exit.Some? ==> row.exit.value(speed) == Update(speed, [StopPollTimer]))
      && (row.entry.Some? <==> s == Idle)
      && (row.entry.Some? ==> row.entry.value(speed) == Update(0, [StopPollTimer]))
      && (s == StartTest || s == Completed || s == Failed ==> row.state(speed).internal.Some?)
  {
  }

  /**
   * Only the two Wait actions change the speed: WaitForAcceleration adds one and
   * asks for Deceleration exactly when the new speed reaches 5; WaitForDeceleration
   * subtracts one and asks for Completed exactly when the speed before was 0.
   */
  lemma SpeedActions(s: State, speed: int)
    ensures var a := StateMap(s).state(speed);
      && (a.data == if s == WaitForAcceleration then speed + 1
                    else if s == WaitForDeceleration then speed - 1
                    else speed)
      && (s == WaitForAcceleration ==> (a.internal.Some? <==> speed + 1 >= TargetSpeed))
      && (s == WaitForDeceleration ==> (a.internal.Some? <==> speed == 0))
      && (a.internal.Some? ==>
            a.internal.value == match s
              case WaitForAcceleration => Deceleration
              case WaitForDeceleration => Completed
              case StartTest => Acceleration
              case _ => Idle)
  {
  }

  /** The guard admits StartTest exactly when the centrifuge is stopped. */
  lemma GuardAdmitsIffStopped(speed: int)
    ensures StateMap(StartTest).guard.Some?
    ensures StateMap(StartTest).guard.value(speed) <==> speed == 0
  {
  }

  /**
   * From Idle at rest, CFG_Start runs GD_StartTest, ST_StartTest and
   * ST_Acceleration, and no exit or entry action: the internal hop leaves
   * StartTest without an exit.
   */
  lemma StartFromIdle()
    ensures Dispatch(Start, Idle, 0)
         == Done(Acceleration, 0, [Guard(StartTest, true), State(StartTest), State(Acceleration)],
                 [StartPollTimer(PollTimeout)])
  {
  }

  /** What an external event must do in a resting state; see EventKeepsResting. */
  predicate KeepsResting(e: Event, s: State, r: Outcome<State, int, Effect>)
  {
    && r.Done?
    && Resting(r.state, r.data)
    && PollTimerAfter(Running(s), r.effects) == Running(r.state)
    && Notifications(r.effects)
       == if Running(s) && r.state == Idle then [if e == Cancel then InvokeFailed else InvokeCompleted] else []
  }

  lemma StartKeepsResting(s: State, speed: int)
    requires Resting(s, speed)
    ensures KeepsResting(Start, s, Dispatch(Start, s, speed))
  {
  }

  /** CFG_Cancel during a test: Failed notifies and hops to Idle, stopping the poll timer. */
  lemma CancelWhileRunning(s: State, speed: int)
    requires Running(s)
    ensures var waiting := s == WaitForAcceleration || s == WaitForDeceleration;
      Dispatch(Cancel, s, speed)
      == Done(Idle, 0,
              (if waiting then [Exit(s)] else []) + [State(Failed), Entry(Idle), State(Idle)],
              (if waiting then [StopPollTimer] else []) + [InvokeFailed] + [StopPollTimer])
  {
    var m := CentrifugeTestSM();
    var rest := Run(m, Failed, speed, Idle);
    assert HopSteps(m, Failed, Idle) == [Entry(Idle), State(Idle)];
    assert rest == Done(Idle, 0, [Entry(Idle), State(Idle)], [StopPollTimer]);
    if s == WaitForAcceleration || s == WaitForDeceleration {
      assert HopSteps(m, s, Failed) == [Exit(s), State(Failed)];
      assert [StopPollTimer] + [] + [InvokeFailed] == [StopPollTimer] + [InvokeFailed];
    } else {
      assert HopSteps(m, s, Failed) == [State(Failed)];
      assert [] + [] + [InvokeFailed] == [InvokeFailed];
    }
  }

  lemma CancelKeepsResting(s: State, speed: int)
    requires Resting(s, speed)
    ensures KeepsResting(Cancel, s, Dispatch(Cancel, s, speed))
  {
    if Running(s) {
      CancelWhileRunning(s, speed);
      var waiting := s == WaitForAcceleration || s == WaitForDeceleration;
      var first := (if waiting then [StopPollTimer] else []) + [InvokeFailed];
      PollTimerAfterAppend(true, first, [StopPollTimer]);
      FilterAppend(IsNotification, first, [StopPollTimer]);
      FilterAppend(IsNotification, if waiting then [StopPollTimer] else [], [InvokeFailed]);
    }
  }

  /** CFG_Poll while accelerating: one step faster, and on reaching 5 the hop to Deceleration. */
  lemma PollInWaitForAcceleration(speed: int)
    requires Resting(WaitForAcceleration, speed)
    ensures Dispatch(Poll, WaitForAcceleration, speed)
         == if speed + 1 == TargetSpeed
            then Done(Deceleration, TargetSpeed,
                      [State(WaitForAcceleration), Exit(WaitForAcceleration), State(Deceleration)],
                      [StopPollTimer, StartPollTimer(PollTimeout)])
            else Done(WaitForAcceleration, speed + 1, [State(WaitForAcceleration)], [])
  {
    if speed + 1 == TargetSpeed {
      assert Run(CentrifugeTestSM(), WaitForAcceleration, TargetSpeed, Deceleration)
          == Done(Deceleration, TargetSpeed, [Exit(WaitForAcceleration), State(Deceleration)],
                  [StopPollTimer, StartPollTimer(PollTimeout)]);
    }
  }

  /** CFG_Poll while decelerating: one step slower, and at 0 the hops to Completed and Idle. */
  lemma PollInWaitForDeceleration(speed: int)
    requires Resting(WaitForDeceleration, speed)
    ensures Dispatch(Poll, WaitForDeceleration, speed)
         == if speed == 0
            then Done(Idle, 0,
                      [State(WaitForDeceleration), Exit(WaitForDeceleration), State(Completed), Entry(Idle), State(Idle)],
                      [StopPollTimer, InvokeCompleted, StopPollTimer])
            else Done(WaitForDeceleration, speed - 1, [State(WaitForDeceleration)], [])
  {
    if speed == 0 {
      var m := CentrifugeTestSM();
      assert Run(m, Completed, -1, Idle)
          == Done(Idle, 0, [Entry(Idle), State(Idle)], [StopPollTimer]);
      assert Run(m, WaitForDeceleration, -1, Completed)
          == Done(Idle, 0, [Exit(WaitForDeceleration), State(Completed), Entry(Idle), State(Idle)],
                  [StopPollTimer, InvokeCompleted, StopPollTimer]);
    }
  }

  lemma PollKeepsRestingAccelerating(speed: int)
    requires Resting(WaitForAcceleration, speed)
    ensures KeepsResting(Poll, WaitForAcceleration, Dispatch(Poll, WaitForAcceleration, speed))
  {
    PollInWaitForAcceleration(speed);
    if speed + 1 == TargetSpeed {
      assert Dispatch(Poll, WaitForAcceleration, speed).effects == [StopPollTimer] + [StartPollTimer(PollTimeout)];
      PollTimerAfterAppend(true, [StopPollTimer], [StartPollTimer(PollTimeout)]);
      FilterAppend(IsNotification, [StopPollTimer], [StartPollTimer(PollTimeout)]);
    }
  }

  lemma PollKeepsRestingDecelerating(speed: int)
    requires Resting(WaitForDeceleration, speed)
    ensures KeepsResting(Poll, WaitForDeceleration, Dispatch(Poll, WaitForDeceleration, speed))
  {
    PollInWaitForDeceleration(speed);
    if speed == 0 {
      assert Dispatch(Poll, WaitForDeceleration, speed).effects
          == [StopPollTimer, InvokeCompleted] + [StopPollTimer];
      PollTimerAfterAppend(true, [StopPollTimer, InvokeCompleted], [StopPollTimer]);
      FilterAppend(IsNotification, [StopPollTimer, InvokeCompleted], [StopPollTimer]);
    }
  }

  lemma PollKeepsResting(s: State, speed: int)
    requires Resting(s, speed)
    ensures KeepsResting(Poll, s, Dispatch(Poll, s, speed))
  {
    match s
    case WaitForAcceleration => PollKeepsRestingAccelerating(speed);
    case WaitForDeceleration => PollKeepsRestingDecelerating(speed);
    case Acceleration =>
      assert Dispatch(Poll, s, speed) == Done(WaitForAcceleration, 1, [State(WaitForAcceleration)], []);
    case Deceleration =>
      assert Dispatch(Poll, s, speed) == Done(WaitForDeceleration, TargetSpeed - 1, [State(WaitForDeceleration)], []);
    case Idle =>
    case Completed =>
    case Failed =>
    case StartTest =>
  }

  /**
   * Every external event in a resting state: never fatal (so the CANNOT_HAPPEN
   * columns are unreachable), leaves the machine resting (so the speed stays
   * within 0..5), keeps the poll timer running exactly while a test is running,
   * and notifies exactly once when a test ends: Failed on CFG_Cancel, Completed
   * otherwise.
   */
  lemma EventKeepsResting(e: Event, s: State, speed: int)
    requires Resting(s, speed)
    ensures KeepsResting(e, s, Dispatch(e, s, speed))
  {
    match e
    case Start => StartKeepsResting(s, speed);
    case Cancel => CancelKeepsResting(s, speed);
    case Poll => PollKeepsResting(s, speed);
  }

  /** The number of CFG_Poll events a resting test still needs to come back to Idle. */
  function PollsToGo(s: State, speed: int): nat
  {
    match s
    case Acceleration => 11
    case WaitForAcceleration => if 0 <= speed <= 11 then 11 - speed else 0
    case Deceleration => 6
    case WaitForDeceleration => if 0 <= speed then speed + 1 else 0
    case _ => 0
  }

  /**
   * Every poll brings a running test one poll closer to Idle, and only Idle has
   * none to go: a started test ends after exactly PollsToGo(Acceleration, 0) = 11
   * polls, with no poll lost or repeated along the way.
   */
  lemma PollProgress(s: State, speed: int)
    requires Resting(s, speed)
    ensures PollsToGo(s, speed) == 0 <==> s == Idle
    ensures Running(s) ==>
      var r := Dispatch(Poll, s, speed);
      r.Done? && PollsToGo(r.state, r.data) == PollsToGo(s, speed) - 1
  {
    match s
    case WaitForAcceleration => PollInWaitForAcceleration(speed);
    case WaitForDeceleration => PollInWaitForDeceleration(speed);
    case Acceleration =>
      assert Dispatch(Poll, s, speed) == Done(WaitForAcceleration, 1, [State(WaitForAcceleration)], []);
    case Deceleration =>
      assert Dispatch(Poll, s, speed) == Done(WaitForDeceleration, TargetSpeed - 1, [State(WaitForDeceleration)], []);
    case _ =>
  }

  /** The machine's instance: current state and centrifugeTestObj, updated in place by each event. */
  class CentrifugeTestInstance {
    var current: State
    var speed: int

    ghost predicate Valid()
      reads this
    {
      Resting(current, speed)
    }

    /** Static initialisation: Idle with speed 0. */
    constructor ()
      ensures Valid() && current == Idle && speed == 0
    {
      current := Idle;
      speed := 0;
    }

    /** SM_Event(CentrifugeTestSM, e): returns the effects the event issued. */
    method Event(e: Event) returns (effects: seq<Effect>)
      requires Valid()
      modifies this
      ensures Valid()
      ensures var r := Dispatch(e, old(current), old(speed));
        r.Done? && current == r.state && speed == r.data && effects == r.effects
    {
      EventKeepsResting(e, current, speed);
      var r := Dispatch(e, current, speed);
      current, speed, effects := r.state, r.data, r.effects;
    }
  }
}
