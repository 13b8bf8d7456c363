/**
 * SelfTest/SelfTestEngine.c: the state machine that sequences the self tests.
 * Its instance data is one boolean, `testingActive`. STE_Start starts the
 * centrifuge test; each completion (STE_Complete, raised by the sub-tests'
 * completion callbacks) moves on to the pressure test and then to Completed;
 * STE_Cancel (also raised by the sub-tests' failure callbacks) fails the run.
 * Idle and StartCentrifugeTest publish the new testing status.
 */
module SelfTestEngine {
  import opened Wrappers
  import opened StateMachine
  import opened Callback

  /** The state enumeration, in state-map order. */
  datatype State = Idle | Completed | Failed | StartCentrifugeTest | StartPressureTest

  /** STE_Start, STE_Complete (private) and STE_Cancel. */
  datatype Event = Start | Complete | Cancel

  /**
   * What the actions call outside the machine: SM_Event(CentrifugeTestSM,
   * CFG_Start), SM_Event(PressureTestSM, PRE_Start), and CB_Invoke of
   * STE_StatusCb / STE_CompletedCb / STE_FailedCb.
   */
  datatype Effect = StartCentrifuge | StartPressure | Status(testActive: bool) | InvokeCompleted | InvokeFailed

  /** The transition map of STE_Start. */
  function StartMap(s: State): Transition<State>
  {
    match s
    case Idle => Goto(StartCentrifugeTest)
    case Completed => CannotHappen
    case Failed => CannotHappen
    case StartCentrifugeTest => EventIgnored
    case StartPressureTest => EventIgnored
  }

  /** The transition map of STE_Complete. */
  function CompleteMap(s: State): Transition<State>
  {
    match s
    case Idle => EventIgnored
    case Completed => CannotHappen
    case Failed => CannotHappen
    case StartCentrifugeTest => Goto(StartPressureTest)
    case StartPressureTest => Goto(Completed)
  }

  /** The transition map of STE_Cancel. */
  function CancelMap(s: State): Transition<State>
  {
    match s
    case Idle => EventIgnored
    case _ => Goto(Failed)
  }

  function TransitionMap(e: Event, s: State): Transition<State>
  {
    match e
    case Start => StartMap(s)
    case Complete => CompleteMap(s)
    case Cancel => CancelMap(s)
  }

  /** ST_Idle: testing is no longer active; publish that. */
  function StIdle(testingActive: bool): Action<State, bool, Effect>
  {
    Action(false, None, [Status(false)])
  }

  /** ST_Completed: notify, then hop to Idle. */
  function StCompleted(testingActive: bool): Action<State, bool, Effect>
  {
    Action(testingActive, Some(Idle), [InvokeCompleted])
  }

  /** ST_Failed: notify, then hop to Idle. */
  function StFailed(testingActive: bool): Action<State, bool, Effect>
  {
    Action(testingActive, Some(Idle), [InvokeFailed])
  }

  /** ST_StartCentrifugeTest: testing is active; start the centrifuge test, then publish. */
  function StStartCentrifugeTest(testingActive: bool): Action<State, bool, Effect>
  {
    Action(true, None, [StartCentrifuge, Status(true)])
  }

  /** ST_StartPressureTest */
  function StStartPressureTest(testingActive: bool): Action<State, bool, Effect>
  {
    Action(testingActive, None, [StartPressure])
  }

  /** The state map: state actions only; no guards, entries or exits. */
  function StateMap(s: State): StateMapEntry<State, bool, Effect>
  {
    match s
    case Idle => StateMapEntry(StIdle, None, None, None)
    case Completed => StateMapEntry(StCompleted, None, None, None)
    case Failed => StateMapEntry(StFailed, None, None, None)
    case StartCentrifugeTest => StateMapEntry(StStartCentrifugeTest, None, None, None)
    case StartPressureTest => StateMapEntry(StStartPressureTest, None, None, None)
  }

  /** Internal events lead from a higher rank to a lower one. */
  function Rank(s: State): nat
  {
    if s == Completed || s == Failed then 1 else 0
  }

  function SelfTestEngineSM(): Machine<State, bool, Effect>
  {
    Machine(StateMap, Rank)
  }

  /** SM_Event(SelfTestEngineSM, e) in state s. */
  function Dispatch(e: Event, s: State, testingActive: bool): Outcome<State, bool, Effect>
  {
    ExternalEvent(SelfTestEngineSM(), TransitionMap(e, s), s, testingActive)
  }

  /** The states in which a self test is under way. */
  predicate Running(s: State)
  {
    s == StartCentrifugeTest || s == StartPressureTest
  }

  /**
   * Between external events the engine rests in Idle or a running state, and
   * testingActive says which. Completed and Failed always hop on.
   */
  predicate Resting(s: State, testingActive: bool)
  {
    (s == Idle || Running(s)) && testingActive == Running(s)
  }

  predicate IsStatus(x: Effect) { x.Status? }

  predicate IsNotification(x: Effect) { x.InvokeCompleted? || x.InvokeFailed? }

  predicate IsLaunch(x: Effect) { x.StartCentrifuge? || x.StartPressure? }

  /** STE_Start: Idle to StartCentrifugeTest; fatal in Completed and Failed; ignored while running. */
  lemma StartMapColumns(s: State)
    ensures StartMap(s) == Goto(StartCentrifugeTest) <==> s == Idle
    ensures StartMap(s).CannotHappen? <==> s == Completed || s == Failed
    ensures StartMap(s).EventIgnored? <==> Running(s)
  {
  }

  /** STE_Complete: ignored in Idle; fatal in Completed and Failed; advances a running test. */
  lemma CompleteMapColumns(s: State)
    ensures CompleteMap(s).EventIgnored? <==> s == Idle
    ensures CompleteMap(s).CannotHappen? <==> s == Completed || s == Failed
    ensures CompleteMap(s) == Goto(StartPressureTest) <==> s == StartCentrifugeTest
    ensures CompleteMap(s) == Goto(Completed) <==> s == StartPressureTest
  {
  }

  /** STE_Cancel: ignored in Idle, Failed from every other state (never fatal). */
  lemma CancelMapColumns(s: State)
    ensures !CancelMap(s).CannotHappen?
    ensures CancelMap(s).EventIgnored? <==> s == Idle
    ensures CancelMap(s) == Goto(Failed) <==> s != Idle
  {
  }

  /**
   * Idle clears testingActive and StartCentrifugeTest sets it, each publishing
   * the value it wrote; every other action leaves it unchanged and publishes no
   * status. Completed and Failed always hop to Idle; nothing else hops.
   */
  lemma TestingActiveActions(s: State, testingActive: bool)
    ensures var a := StateMap(s).state(testingActive);
      && a.data == (if s == Idle then false else if s == StartCentrifugeTest then true else testingActive)
      && Filter(IsStatus, a.effects) == (if s == Idle || s == StartCentrifugeTest then [Status(a.data)] else [])
      && (a.internal.Some? <==> s == Completed || s == Failed)
      && (a.internal.Some? ==> a.internal.value == Idle)
  {
    if s == StartCentrifugeTest {
      FilterAppend(IsStatus, [StartCentrifuge], [Status(true)]);
    }
  }

  /** What an external event must do at rest; see EventKeepsResting. */
  predicate KeepsResting(e: Event, s: State, testingActive: bool, r: Outcome<State, bool, Effect>)
  {
    && r.Done?
    && Resting(r.state, r.data)
    && Filter(IsStatus, r.effects) == (if r.data != testingActive then [Status(r.data)] else [])
    && Filter(IsNotification, r.effects)
       == (if Running(s) && r.state == Idle then [if e == Cancel then InvokeFailed else InvokeCompleted] else [])
    && Filter(IsLaunch, r.effects)
       == (if s == Idle && e == Start then [StartCentrifuge]
           else if s == StartCentrifugeTest && e == Complete then [StartPressure]
           else [])
  }

  /** Completed and Failed notify first, then hop to Idle, which publishes that testing ended. */
  lemma FinishThroughIdle(s: State, finish: State, note: Effect, testingActive: bool)
    requires Running(s)
    requires (finish == Completed && note == InvokeCompleted) || (finish == Failed && note == InvokeFailed)
    ensures Run(SelfTestEngineSM(), s, testingActive, finish)
         == Done(Idle, false, [State(finish), State(Idle)], [note] + [Status(false)])
  {
    var m := SelfTestEngineSM();
    assert HopSteps(m, finish, Idle) == [State(Idle)];
    assert Run(m, finish, testingActive, Idle) == Done(Idle, false, [State(Idle)], [Status(false)]);
    InternalEventIsPending(m, s, testingActive, finish);
  }

  lemma FinishKeepsResting(e: Event, s: State, testingActive: bool)
    requires Resting(s, testingActive) && Running(s)
    requires e == Cancel || (e == Complete && s == StartPressureTest)
    ensures KeepsResting(e, s, testingActive, Dispatch(e, s, testingActive))
  {
    var finish := if e == Cancel then Failed else Completed;
    var note := if e == Cancel then InvokeFailed else InvokeCompleted;
    FinishThroughIdle(s, finish, note, testingActive);
    assert Dispatch(e, s, testingActive).effects == [note] + [Status(false)];
    FilterAppend(IsStatus, [note], [Status(false)]);
    FilterAppend(IsNotification, [note], [Status(false)]);
    FilterAppend(IsLaunch, [note], [Status(false)]);
  }

  lemma StartFromIdle()
    ensures KeepsResting(Start, Idle, false, Dispatch(Start, Idle, false))
  {
    assert Dispatch(Start, Idle, false).effects == [StartCentrifuge] + [Status(true)];
    FilterAppend(IsStatus, [StartCentrifuge], [Status(true)]);
    FilterAppend(IsNotification, [StartCentrifuge], [Status(true)]);
    FilterAppend(IsLaunch, [StartCentrifuge], [Status(true)]);
  }

  /**
   * Every external event at rest: never fatal, rest again afterwards; a status
   * is published exactly when testingActive changes, and carries the new value;
   * a finished run notifies once (Failed on STE_Cancel, Completed otherwise);
   * the centrifuge test starts with the engine and the pressure test when the
   * centrifuge test completes.
   */
  lemma EventKeepsResting(e: Event, s: State, testingActive: bool)
    requires Resting(s, testingActive)
    ensures KeepsResting(e, s, testingActive, Dispatch(e, s, testingActive))
  {
    if Running(s) && (e == Cancel || (e == Complete && s == StartPressureTest)) {
      FinishKeepsResting(e, s, testingActive);
    } else if s == Idle && e == Start {
      StartFromIdle();
    }
  }

  /**
   * The happy path: STE_Start, then one STE_Complete per sub-test, takes the
   * engine Idle → StartCentrifugeTest → StartPressureTest → Completed → Idle,
   * starting each sub-test once and publishing active, then completed, then
   * inactive.
   */
  lemma HappyPath()
    ensures Dispatch(Start, Idle, false) == Done(StartCentrifugeTest, true, [State(StartCentrifugeTest)], [StartCentrifuge, Status(true)])
    ensures Dispatch(Complete, StartCentrifugeTest, true) == Done(StartPressureTest, true, [State(StartPressureTest)], [StartPressure])
    ensures Dispatch(Complete, StartPressureTest, true) == Done(Idle, false, [State(Completed), State(Idle)], [InvokeCompleted, Status(false)])
  {
    FinishThroughIdle(StartPressureTest, Completed, InvokeCompleted, true);
  }

  /** STE_CompletedCallback (1), STE_FailedCallback (2) and DispatchCallbackThread1 (3). */
  const CompletedCallback: FuncPtr := 1
  const FailedCallback: FuncPtr := 2
  const DispatchThread1: FuncPtr := 3

  /** The event each of the engine's callbacks raises. */
  function CallbackEvent(cbFunc: FuncPtr): Option<Event>
  {
    if cbFunc == CompletedCallback then Some(Complete)
    else if cbFunc == FailedCallback then Some(Cancel)
    else None
  }

  /** The four sub-test callback interfaces STE_Init subscribes to. */
  datatype Subscriptions = Subscriptions(
    cfgCompleted: seq<CbInfo>, cfgFailed: seq<CbInfo>,
    preCompleted: seq<CbInfo>, preFailed: seq<CbInfo>)

  /** Each interface is declared with capacity 1 and starts empty. */
  function NoSubscriptions(): Subscriptions
  {
    Subscriptions([Empty], [Empty], [Empty], [Empty])
  }

  /** STE_Init: both completion interfaces to STE_Complete, both failures to STE_Cancel, all on thread 1. */
  function Init(sub: Subscriptions): (r: Subscriptions)
    ensures Empty in sub.cfgCompleted ==> Registered(CompletedCallback, DispatchThread1) in r.cfgCompleted
    ensures Empty in sub.cfgFailed ==> Registered(FailedCallback, DispatchThread1) in r.cfgFailed
    ensures Empty in sub.preCompleted ==> Registered(CompletedCallback, DispatchThread1) in r.preCompleted
    ensures Empty in sub.preFailed ==> Registered(FailedCallback, DispatchThread1) in r.preFailed
    ensures Routed(sub) ==> Routed(r)
  {
    Subscriptions(
      Register(sub.cfgCompleted, CompletedCallback, DispatchThread1).entries,
      Register(sub.cfgFailed, FailedCallback, DispatchThread1).entries,
      Register(sub.preCompleted, CompletedCallback, DispatchThread1).entries,
      Register(sub.preFailed, FailedCallback, DispatchThread1).entries)
  }

  /** Routing: every subscription of the four interfaces raises the engine event the interface means. */
  ghost predicate Routed(sub: Subscriptions)
  {
    && (forall x :: x in sub.cfgCompleted + sub.preCompleted && x.Registered? ==>
          x.cbDispatchFunc == DispatchThread1 && CallbackEvent(x.cbFunc) == Some(Complete))
    && (forall x :: x in sub.cfgFailed + sub.preFailed && x.Registered? ==>
          x.cbDispatchFunc == DispatchThread1 && CallbackEvent(x.cbFunc) == Some(Cancel))
  }

  /**
   * STE_Init on the empty interfaces fills each one with the single subscription
   * that routes it to the engine on thread 1; a second call is rejected by every
   * registry and changes nothing.
   */
  lemma InitRoutesSubTests()
    ensures var sub := Init(NoSubscriptions());
      && sub.cfgCompleted == [Registered(CompletedCallback, DispatchThread1)]
      && sub.cfgFailed == [Registered(FailedCallback, DispatchThread1)]
      && sub.preCompleted == [Registered(CompletedCallback, DispatchThread1)]
      && sub.preFailed == [Registered(FailedCallback, DispatchThread1)]
      && Routed(sub)
      && Init(sub) == sub
  {
    var sub := Init(NoSubscriptions());
    assert Find([Empty], Empty) == Some(0);
    assert sub.cfgCompleted == [Registered(CompletedCallback, DispatchThread1)];
  }

  /** The machine's instance: current state and selfTestEngineObj, updated in place by each event. */
  class SelfTestEngineInstance {
    var current: State
    var testingActive: bool

    ghost predicate Valid()
      reads this
    {
      Resting(current, testingActive)
    }

    /** Static initialisation: Idle, not testing. */
    constructor ()
      ensures Valid() && current == Idle && !testingActive
    {
      current := Idle;
      testingActive := false;
    }

    /** SM_Event(SelfTestEngineSM, e): returns the effects the event issued. */
    method Event(e: Event) returns (effects: seq<Effect>)
      requires Valid()
      modifies this
      ensures Valid()
      ensures var r := Dispatch(e, old(current), old(testingActive));
        r.Done? && current == r.state && testingActive == r.data && effects == r.effects
    {
      EventKeepsResting(e, current, testingActive);
      var r := Dispatch(e, current, testingActive);
      current, testingActive, effects := r.state, r.data, r.effects;
    }
  }
}
