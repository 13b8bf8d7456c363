/**
 * The self test as a whole: the engine and its two sub-test machines, wired as
 * STE_Init wires them. Callbacks for thread 1 wait in one FIFO queue and run one
 * at a time, in order; `polling` records whether CFG_PollCallback is registered
 * on the poll timer, and while it is, a timer tick turns into a queued
 * CFG_PollCallback. The engine's own notifications (status,
 * completed, failed) go to subscribers on another thread and are collected in
 * `published`.
 */
module SelfTestSystem {
  import opened Wrappers
  import opened Callback
  import opened StateMachine
  import C = CentrifugeTest
  import P = PressureTest
  import E = SelfTestEngine

  /** CFG_PollCallback, which the poll timer dispatches on thread 1. */
  const PollCallback: FuncPtr := 4

  datatype System = System(
    engine: E.State, testingActive: bool,
    centrifuge: C.State, speed: int, polling: bool,
    pressureTest: P.State, pressure: int,
    sub: E.Subscriptions,
    queue: seq<FuncPtr>,
    published: seq<E.Effect>)

  /** What drives the system: the main thread's engine events, the poll timer, and thread 1 running its next callback. */
  datatype Input = EngineStart | EngineCancel | TimerTick | Deliver

  /** After STE_Init: every machine at rest, the sub-tests' interfaces routed to the engine, nothing queued. */
  function Initial(): System
  {
    System(E.Idle, false, C.Idle, 0, false, P.Idle, 0, E.Init(E.NoSubscriptions()), [], [])
  }

  /** The subscriptions STE_Init leaves: each sub-test interface holds the engine's one callback on thread 1. */
  const Wired: E.Subscriptions := E.Subscriptions(
    [Registered(E.CompletedCallback, E.DispatchThread1)], [Registered(E.FailedCallback, E.DispatchThread1)],
    [Registered(E.CompletedCallback, E.DispatchThread1)], [Registered(E.FailedCallback, E.DispatchThread1)])

  /** CB_Invoke on one interface: a message for each subscription on thread 1, in registry order. */
  function Posted(entries: seq<CbInfo>): (r: seq<FuncPtr>)
    ensures |r| <= |entries|
    ensures forall i :: 0 <= i < |r| ==> Registered(r[i], E.DispatchThread1) in entries
  {
    if entries == [] then []
    else
      (if entries[0].Registered? && entries[0].cbDispatchFunc == E.DispatchThread1 then [entries[0].cbFunc] else [])
      + Posted(entries[1..])
  }

  /** A subscription whose messages CB_Invoke posts to thread 1. */
  predicate OnThread1(x: CbInfo)
  {
    x.Registered? && x.cbDispatchFunc == E.DispatchThread1
  }

  function FuncOf(x: CbInfo): FuncPtr
  {
    if x.Registered? then x.cbFunc else 0
  }

  /** The callback functions of the given subscriptions, in their order. */
  function Funcs(entries: seq<CbInfo>): seq<FuncPtr>
  {
    seq(|entries|, i requires 0 <= i < |entries| => FuncOf(entries[i]))
  }

  lemma FuncsAppend(x: seq<CbInfo>, y: seq<CbInfo>)
    ensures Funcs(x + y) == Funcs(x) + Funcs(y)
  {
    assert forall i :: 0 <= i < |x| ==> (x + y)[i] == x[i];
    assert forall i :: |x| <= i < |x| + |y| ==> (x + y)[i] == y[i - |x|];
  }

  /** CB_Invoke posts the thread-1 subscriptions' callbacks in registry order. */
  lemma {:induction false} PostedInRegistryOrder(entries: seq<CbInfo>)
    ensures Posted(entries) == Funcs(Filter(OnThread1, entries))
    decreases |entries|
  {
    if entries != [] {
      PostedInRegistryOrder(entries[1..]);
      var head := if OnThread1(entries[0]) then [entries[0]] else [];
      assert Filter(OnThread1, entries) == head + Filter(OnThread1, entries[1..]);
      FuncsAppend(head, Filter(OnThread1, entries[1..]));
    }
  }

  /** CB_Invoke posts a callback to thread 1 exactly when it is subscribed there. */
  lemma {:induction false} PostedComplete(entries: seq<CbInfo>)
    ensures forall f :: f in Posted(entries) <==> Registered(f, E.DispatchThread1) in entries
    decreases |entries|
  {
    if entries != [] {
      PostedComplete(entries[1..]);
      assert entries == [entries[0]] + entries[1..];
    }
  }

  /** In a registry without duplicate pairs, CB_Invoke posts each callback once. */
  lemma {:induction false} PostedOnce(entries: seq<CbInfo>)
    requires Unique(entries)
    ensures forall i, j :: 0 <= i < j < |Posted(entries)| ==> Posted(entries)[i] != Posted(entries)[j]
    decreases |entries|
  {
    if entries != [] {
      var tail := entries[1..];
      assert Unique(tail) by {
        forall i, j | 0 <= i < j < |tail| && tail[i].Registered? ensures tail[i] != tail[j] {
          assert tail[i] == entries[i + 1] && tail[j] == entries[j + 1];
        }
      }
      PostedOnce(tail);
      PostedComplete(tail);
      var rest := Posted(tail);
      var head := if entries[0].Registered? && entries[0].cbDispatchFunc == E.DispatchThread1 then [entries[0].cbFunc] else [];
      assert Posted(entries) == head + rest;
      forall i, j | 0 <= i < j < |Posted(entries)| ensures Posted(entries)[i] != Posted(entries)[j] {
        if head != [] {
          assert Posted(entries)[j] == rest[j - 1];
          if i == 0 {
            assert rest[j - 1] in rest;
          } else {
            assert Posted(entries)[i] == rest[i - 1];
          }
        }
      }
    }
  }

  /** One centrifuge effect: TMR_Start registers the poll callback, TMR_Stop unregisters it, or a notification is queued. */
  function CentrifugeEffect(sys: System, x: C.Effect): System
  {
    match x
    case StartPollTimer(_) => sys.(polling := true)
    case StopPollTimer => sys.(polling := false)
    case InvokeCompleted => sys.(queue := sys.queue + Posted(sys.sub.cfgCompleted))
    case InvokeFailed => sys.(queue := sys.queue + Posted(sys.sub.cfgFailed))
  }

  function CentrifugeEffects(sys: System, effects: seq<C.Effect>): System
    decreases |effects|
  {
    if effects == [] then sys else CentrifugeEffects(CentrifugeEffect(sys, effects[0]), effects[1..])
  }

  /** One pressure effect: TMR_Stop of a timer never started changes nothing; a notification is queued. */
  function PressureEffect(sys: System, x: P.Effect): System
  {
    match x
    case StopPollTimer => sys
    case InvokeCompleted => sys.(queue := sys.queue + Posted(sys.sub.preCompleted))
    case InvokeFailed => sys.(queue := sys.queue + Posted(sys.sub.preFailed))
  }

  function PressureEffects(sys: System, effects: seq<P.Effect>): System
    decreases |effects|
  {
    if effects == [] then sys else PressureEffects(PressureEffect(sys, effects[0]), effects[1..])
  }

  /** SM_Event on the centrifuge; None when the event is CANNOT_HAPPEN. */
  function CentrifugeEvent(sys: System, e: C.Event): Option<System>
  {
    match C.Dispatch(e, sys.centrifuge, sys.speed)
    case Done(s, speed, _, effects) => Some(CentrifugeEffects(sys.(centrifuge := s, speed := speed), effects))
    case _ => None
  }

  /** SM_Event on the pressure test; None when the event is CANNOT_HAPPEN. */
  function PressureEvent(sys: System, e: P.Event): Option<System>
  {
    match P.Dispatch(e, sys.pressureTest, sys.pressure)
    case Done(s, pressure, _, effects) => Some(PressureEffects(sys.(pressureTest := s, pressure := pressure), effects))
    case _ => None
  }

  /** The engine's notifications for its subscribers. */
  predicate IsPublished(x: E.Effect)
  {
    !E.IsLaunch(x)
  }

  /** One engine effect: a sub-test started synchronously, or a notification published. */
  function EngineEffect(sys: System, x: E.Effect): Option<System>
  {
    match x
    case StartCentrifuge => CentrifugeEvent(sys, C.Start)
    case StartPressure => PressureEvent(sys, P.Start)
    case _ => Some(sys.(published := sys.published + [x]))
  }

  function EngineEffects(sys: System, effects: seq<E.Effect>): Option<System>
    decreases |effects|
  {
    if effects == [] then Some(sys)
    else
      match EngineEffect(sys, effects[0])
      case None => None
      case Some(next) => EngineEffects(next, effects[1..])
  }

  /** SM_Event on the engine; None when the event, or one it causes, is CANNOT_HAPPEN. */
  function EngineEvent(sys: System, e: E.Event): Option<System>
  {
    match E.Dispatch(e, sys.engine, sys.testingActive)
    case Done(s, active, _, effects) => EngineEffects(sys.(engine := s, testingActive := active), effects)
    case _ => None
  }

  /** Thread 1 runs the callback at the head of its queue. */
  function RunCallback(sys: System, cbFunc: FuncPtr): Option<System>
  {
    if cbFunc == PollCallback then CentrifugeEvent(sys, C.Poll)
    else match E.CallbackEvent(cbFunc)
      case Some(e) => EngineEvent(sys, e)
      case None => Some(sys)
  }

  /** One input; None when it reaches a CANNOT_HAPPEN entry anywhere. */
  function Step(sys: System, input: Input): Option<System>
  {
    match input
    case EngineStart => EngineEvent(sys, E.Start)
    case EngineCancel => EngineEvent(sys, E.Cancel)
    case TimerTick => Some(if sys.polling then sys.(queue := sys.queue + [PollCallback]) else sys)
    case Deliver =>
      if sys.queue == [] then Some(sys)
      else RunCallback(sys.(queue := sys.queue[1..]), sys.queue[0])
  }

  /** The callbacks thread 1 may find in its queue. */
  predicate Known(cbFunc: FuncPtr)
  {
    cbFunc == E.CompletedCallback || cbFunc == E.FailedCallback || cbFunc == PollCallback
  }

  /** The last status published carries the engine's testingActive; before any, testing is inactive. */
  predicate StatusAgrees(published: seq<E.Effect>, testingActive: bool)
  {
    var statuses := Filter(E.IsStatus, published);
    if statuses == [] then !testingActive else statuses[|statuses| - 1] == E.Status(testingActive)
  }

  /** The sub-tests at rest, the poll callback registered exactly while the centrifuge runs, the routing of STE_Init. */
  predicate SubTestsValid(sys: System)
  {
    && C.Resting(sys.centrifuge, sys.speed)
    && sys.polling == C.Running(sys.centrifuge)
    && P.Resting(sys.pressureTest, sys.pressure)
    && sys.sub == Wired
    && forall i :: 0 <= i < |sys.queue| ==> Known(sys.queue[i])
  }

  predicate Valid(sys: System)
  {
    && SubTestsValid(sys)
    && E.Resting(sys.engine, sys.testingActive)
    && StatusAgrees(sys.published, sys.testingActive)
  }

  /** The engine's state and its publications are as they were. */
  predicate EngineUntouched(before: System, after: System)
  {
    after.engine == before.engine && after.testingActive == before.testingActive && after.published == before.published
  }

  /** Every sub-test notification queues exactly the engine callback that interface was routed to. */
  lemma InitPosts(sub: E.Subscriptions)
    requires sub == Wired
    ensures Posted(sub.cfgCompleted) == [E.CompletedCallback] && Posted(sub.preCompleted) == [E.CompletedCallback]
    ensures Posted(sub.cfgFailed) == [E.FailedCallback] && Posted(sub.preFailed) == [E.FailedCallback]
  {
  }

  lemma {:induction false} CentrifugeEffectsKeep(sys: System, effects: seq<C.Effect>)
    requires sys.sub == Wired
    requires forall i :: 0 <= i < |sys.queue| ==> Known(sys.queue[i])
    ensures var r := CentrifugeEffects(sys, effects);
      && r == sys.(polling := C.PollTimerAfter(sys.polling, effects), queue := r.queue)
      && forall i :: 0 <= i < |r.queue| ==> Known(r.queue[i])
    decreases |effects|
  {
    if effects != [] {
      InitPosts(sys.sub);
      CentrifugeEffectsKeep(CentrifugeEffect(sys, effects[0]), effects[1..]);
    }
  }

  lemma {:induction false} PressureEffectsKeep(sys: System, effects: seq<P.Effect>)
    requires sys.sub == Wired
    requires forall i :: 0 <= i < |sys.queue| ==> Known(sys.queue[i])
    ensures var r := PressureEffects(sys, effects);
      && r == sys.(queue := r.queue)
      && forall i :: 0 <= i < |r.queue| ==> Known(r.queue[i])
    decreases |effects|
  {
    if effects != [] {
      InitPosts(sys.sub);
      PressureEffectsKeep(PressureEffect(sys, effects[0]), effects[1..]);
    }
  }

  /** A centrifuge event never fails when the sub-tests are valid, and keeps them valid. */
  lemma CentrifugeEventKeeps(sys: System, e: C.Event)
    requires SubTestsValid(sys)
    ensures var r := CentrifugeEvent(sys, e);
      r.Some? && SubTestsValid(r.value) && EngineUntouched(sys, r.value)
  {
    C.EventKeepsResting(e, sys.centrifuge, sys.speed);
    var out := C.Dispatch(e, sys.centrifuge, sys.speed);
    CentrifugeEffectsKeep(sys.(centrifuge := out.state, speed := out.data), out.effects);
  }

  /** A pressure event never fails when the sub-tests are valid, and keeps them valid. */
  lemma PressureEventKeeps(sys: System, e: P.Event)
    requires SubTestsValid(sys)
    ensures var r := PressureEvent(sys, e);
      r.Some? && SubTestsValid(r.value) && EngineUntouched(sys, r.value)
  {
    P.EventKeepsResting(e, sys.pressureTest, sys.pressure);
    var out := P.Dispatch(e, sys.pressureTest, sys.pressure);
    PressureEffectsKeep(sys.(pressureTest := out.state, pressure := out.data), out.effects);
  }

  /** One engine effect: never fails while the sub-tests are valid; publishes it unless it is a launch. */
  lemma EngineEffectKeeps(sys: System, x: E.Effect)
    requires SubTestsValid(sys)
    ensures var r := EngineEffect(sys, x);
      && r.Some? && SubTestsValid(r.value)
      && r.value.engine == sys.engine && r.value.testingActive == sys.testingActive
      && r.value.published == sys.published + (if IsPublished(x) then [x] else [])
  {
    match x
    case StartCentrifuge => CentrifugeEventKeeps(sys, C.Start);
    case StartPressure => PressureEventKeeps(sys, P.Start);
    case _ =>
  }

  /**
   * The engine's effects, applied in order, never fail while the sub-tests are
   * valid; they keep them valid and leave the engine alone.
   */
  lemma {:induction false} EngineEffectsSafe(sys: System, effects: seq<E.Effect>)
    requires SubTestsValid(sys)
    ensures var r := EngineEffects(sys, effects);
      && r.Some? && SubTestsValid(r.value)
      && r.value.engine == sys.engine && r.value.testingActive == sys.testingActive
    decreases |effects|
  {
    if effects != [] {
      EngineEffectKeeps(sys, effects[0]);
      var next := EngineEffect(sys, effects[0]).value;
      EngineEffectsSafe(next, effects[1..]);
      assert EngineEffects(sys, effects) == EngineEffects(next, effects[1..]);
    }
  }

  lemma {:induction false} CentrifugeEffectsLeaveEngine(sys: System, effects: seq<C.Effect>)
    ensures EngineUntouched(sys, CentrifugeEffects(sys, effects))
    decreases |effects|
  {
    if effects != [] {
      CentrifugeEffectsLeaveEngine(CentrifugeEffect(sys, effects[0]), effects[1..]);
    }
  }

  lemma {:induction false} PressureEffectsLeaveEngine(sys: System, effects: seq<P.Effect>)
    ensures EngineUntouched(sys, PressureEffects(sys, effects))
    decreases |effects|
  {
    if effects != [] {
      PressureEffectsLeaveEngine(PressureEffect(sys, effects[0]), effects[1..]);
    }
  }

  /** One engine effect publishes itself, unless it is a launch, which publishes nothing. */
  lemma EngineEffectPublishes(sys: System, x: E.Effect)
    ensures var r := EngineEffect(sys, x);
      r.Some? ==> r.value.published == sys.published + (if IsPublished(x) then [x] else [])
  {
    match x
    case StartCentrifuge =>
      var out := C.Dispatch(C.Start, sys.centrifuge, sys.speed);
      if out.Done? {
        CentrifugeEffectsLeaveEngine(sys.(centrifuge := out.state, speed := out.data), out.effects);
      }
    case StartPressure =>
      var out := P.Dispatch(P.Start, sys.pressureTest, sys.pressure);
      if out.Done? {
        PressureEffectsLeaveEngine(sys.(pressureTest := out.state, pressure := out.data), out.effects);
      }
    case _ =>
  }

  /** The engine's effects apply one at a time: the first, then the rest from where it left the system. */
  lemma EngineEffectsFirst(sys: System, effects: seq<E.Effect>)
    requires effects != []
    ensures EngineEffect(sys, effects[0]).None? ==> EngineEffects(sys, effects).None?
    ensures EngineEffect(sys, effects[0]).Some?
      ==> EngineEffects(sys, effects) == EngineEffects(EngineEffect(sys, effects[0]).value, effects[1..])
  {
  }

  /** The engine's effects, applied in order, publish exactly the engine's notifications, in order. */
  lemma {:induction false} EngineEffectsPublish(sys: System, effects: seq<E.Effect>)
    ensures var r := EngineEffects(sys, effects);
      r.Some? ==> r.value.published == sys.published + Filter(IsPublished, effects)
    decreases |effects|
  {
    if effects != [] {
      var x := effects[0];
      EngineEffectsFirst(sys, effects);
      EngineEffectPublishes(sys, x);
      var step := EngineEffect(sys, x);
      if step.Some? {
        EngineEffectsPublish(step.value, effects[1..]);
        var head := if IsPublished(x) then [x] else [];
        var rest := Filter(IsPublished, effects[1..]);
        FilterFirst(IsPublished, effects);
        assert sys.published + head + rest == sys.published + (head + rest);
      }
    } else {
      assert sys.published + [] == sys.published;
    }
  }

  /** Publishing drops only launches, so the statuses published are the engine's statuses. */
  lemma {:induction false} PublishedStatuses(effects: seq<E.Effect>)
    ensures Filter(E.IsStatus, Filter(IsPublished, effects)) == Filter(E.IsStatus, effects)
    decreases |effects|
  {
    if effects != [] {
      var head := if IsPublished(effects[0]) then [effects[0]] else [];
      FilterAppend(E.IsStatus, head, Filter(IsPublished, effects[1..]));
      PublishedStatuses(effects[1..]);
    }
  }

  /** Publishing an event's notifications keeps the last status in step with testingActive. */
  lemma StatusesAfter(published: seq<E.Effect>, effects: seq<E.Effect>, before: bool, after: bool)
    requires StatusAgrees(published, before)
    requires Filter(E.IsStatus, effects) == if after != before then [E.Status(after)] else []
    ensures StatusAgrees(published + Filter(IsPublished, effects), after)
  {
    FilterAppend(E.IsStatus, published, Filter(IsPublished, effects));
    PublishedStatuses(effects);
    var statuses := Filter(E.IsStatus, published + Filter(IsPublished, effects));
    assert statuses == Filter(E.IsStatus, published) + Filter(E.IsStatus, effects);
    if after != before {
      assert statuses[|statuses| - 1] == E.Status(after);
    } else {
      assert statuses == Filter(E.IsStatus, published) + [];
    }
  }

  /** An engine event in a valid system never fails and keeps the system valid. */
  lemma EngineEventKeeps(sys: System, e: E.Event)
    requires Valid(sys)
    ensures var r := EngineEvent(sys, e); r.Some? && Valid(r.value)
  {
    E.EventKeepsResting(e, sys.engine, sys.testingActive);
    var out := E.Dispatch(e, sys.engine, sys.testingActive);
    var moved := sys.(engine := out.state, testingActive := out.data);
    EngineEffectsSafe(moved, out.effects);
    EngineEffectsPublish(moved, out.effects);
    StatusesAfter(sys.published, out.effects, sys.testingActive, out.data);
    assert EngineEvent(sys, e) == EngineEffects(moved, out.effects);
  }

  /**
   * Every input in a valid system: no CANNOT_HAPPEN entry is ever reached,
   * whatever the order of engine events, timer ticks and thread-1 deliveries,
   * and the system stays valid — every machine at rest, the poll callback registered
   * exactly while the centrifuge test runs, and the last published status
   * agreeing with testingActive.
   */
  lemma StepKeepsValid(sys: System, input: Input)
    requires Valid(sys)
    ensures Step(sys, input).Some? && Valid(Step(sys, input).value)
  {
    match input
    case EngineStart => EngineEventKeeps(sys, E.Start);
    case EngineCancel => EngineEventKeeps(sys, E.Cancel);
    case TimerTick =>
    case Deliver =>
      if sys.queue != [] {
        var rest := sys.(queue := sys.queue[1..]);
        var head := sys.queue[0];
        assert Valid(rest);
        if head == PollCallback {
          CentrifugeEventKeeps(rest, C.Poll);
        } else if head == E.CompletedCallback {
          EngineEventKeeps(rest, E.Complete);
        } else {
          EngineEventKeeps(rest, E.Cancel);
        }
      }
  }

  /** PRE_Start at rest runs the pressure test to completion and queues its completion for the engine. */
  lemma PressureRunQueuesCompletion(sys: System)
    requires sys.sub == Wired && sys.pressureTest == P.Idle && sys.pressure == 0
    ensures PressureEvent(sys, P.Start) == Some(sys.(queue := sys.queue + [E.CompletedCallback]))
  {
    P.StartRunsToCompletion();
    assert [P.InvokeCompleted, P.StopPollTimer][1..] == [P.StopPollTimer];
    assert [P.StopPollTimer][1..] == [];
    var queued := sys.(queue := sys.queue + [E.CompletedCallback]);
    assert PressureEffects(sys, [P.InvokeCompleted, P.StopPollTimer]) == PressureEffects(queued, [P.StopPollTimer]);
  }

  /** SM_Event on the engine moves it as its transition maps say, then applies the effects in order. */
  lemma EngineEventRuns(sys: System, e: E.Event)
    requires E.Dispatch(e, sys.engine, sys.testingActive).Done?
    ensures var out := E.Dispatch(e, sys.engine, sys.testingActive);
      EngineEvent(sys, e) == EngineEffects(sys.(engine := out.state, testingActive := out.data), out.effects)
  {
  }

  /** A single engine effect applied as a sequence is that effect. */
  lemma EngineEffectsSingle(sys: System, x: E.Effect)
    ensures EngineEffects(sys, [x]) == EngineEffect(sys, x)
  {
    assert [x][1..] == [];
  }

  /** The centrifuge's completion moves the engine on to the pressure test, which completes at once. */
  lemma FirstHandOff(sys: System)
    requires sys.sub == Wired && sys.pressureTest == P.Idle && sys.pressure == 0
    requires sys.engine == E.StartCentrifugeTest && sys.testingActive && sys.queue == [E.CompletedCallback]
    ensures Step(sys, Deliver) == Some(sys.(engine := E.StartPressureTest))
  {
    E.HappyPath();
    assert sys.queue[1..] == [];
    DeliverEngineCallback(sys, E.Complete);
    EngineEventRuns(sys.(queue := []), E.Complete);
    var moved := sys.(queue := [], engine := E.StartPressureTest);
    EngineEffectsSingle(moved, E.StartPressure);
    PressureRunQueuesCompletion(moved);
    assert moved.queue + [E.CompletedCallback] == [E.CompletedCallback];
  }

  /** Notifications alone never fail: each is published, in order. */
  lemma {:induction false} PublishOnly(sys: System, effects: seq<E.Effect>)
    requires forall i :: 0 <= i < |effects| ==> IsPublished(effects[i])
    ensures EngineEffects(sys, effects) == Some(sys.(published := sys.published + effects))
    decreases |effects|
  {
    if effects != [] {
      var next := sys.(published := sys.published + [effects[0]]);
      assert EngineEffect(sys, effects[0]) == Some(next);
      PublishOnly(next, effects[1..]);
      assert [effects[0]] + effects[1..] == effects;
      assert next.published + effects[1..] == sys.published + effects;
    } else {
      assert sys.published + [] == sys.published;
    }
  }

  /** Thread 1 taking one of the engine's callbacks off its queue raises that callback's event. */
  lemma DeliverEngineCallback(sys: System, e: E.Event)
    requires sys.queue != [] && E.CallbackEvent(sys.queue[0]) == Some(e)
    ensures Step(sys, Deliver) == EngineEvent(sys.(queue := sys.queue[1..]), e)
  {
  }

  /** The pressure test's completion finishes the run and publishes completed, then inactive. */
  lemma SecondHandOff(sys: System)
    requires sys.engine == E.StartPressureTest && sys.testingActive && sys.queue == [E.CompletedCallback]
    ensures Step(sys, Deliver)
         == Some(sys.(queue := [], engine := E.Idle, testingActive := false,
                      published := sys.published + [E.InvokeCompleted, E.Status(false)]))
  {
    E.HappyPath();
    assert sys.queue[1..] == [];
    DeliverEngineCallback(sys, E.Complete);
    var notes := [E.InvokeCompleted, E.Status(false)];
    var finished := sys.(queue := [], engine := E.Idle, testingActive := false);
    EngineEventRuns(sys.(queue := []), E.Complete);
    PublishOnly(finished, notes);
  }

  /**
   * The hand-offs of the happy path: the centrifuge's completion, queued on
   * thread 1, moves the engine to StartPressureTest, which runs the pressure
   * test within the same callback and queues its completion; delivering that
   * one finishes the run, publishing completed and then inactive.
   */
  lemma CompletionsFinishTheRun(sys: System)
    requires Valid(sys) && sys.engine == E.StartCentrifugeTest && sys.queue == [E.CompletedCallback]
    ensures var first := Step(sys, Deliver);
      && first.Some?
      && first.value.engine == E.StartPressureTest && first.value.queue == [E.CompletedCallback]
      && first.value.published == sys.published
      && var second := Step(first.value, Deliver);
      && second.Some?
      && second.value.engine == E.Idle && !second.value.testingActive && second.value.queue == []
      && second.value.published == sys.published + [E.InvokeCompleted, E.Status(false)]
  {
    FirstHandOff(sys);
    SecondHandOff(sys.(engine := E.StartPressureTest));
  }

  /** STE_Init wires the system validly: the subscriptions are Wired and every machine is at rest. */
  lemma InitialValid()
    ensures Initial().sub == Wired
    ensures Valid(Initial())
  {
    E.InitRoutesSubTests();
  }
}
