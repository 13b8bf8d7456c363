# Self-test state machines and the tick timer bank

This project models the self-test application of C_StateMachineWithThreads in Dafny and proves properties of the model:

- **The timer bank** (`Port/Timer.c`). Five timer slots are paired, index by index, with the five entries of the `TMR_ExpiredCb` callback registry.
  - `TMR_Start` registers a (callback, dispatcher) pair and arms the slot whose registry entry holds it.
  - `TMR_Stop` unregisters the pair and is meant to disarm its slot; as written it never does (see the second row of "## Findings").
  - `TMR_ProcessTimers` scans the slots in order. `TMR_CheckExpired` fires each due slot and moves its expiry forward.
- **The three table-driven state machines and how they are wired** (`SelfTest/*.c`):
  - `CentrifugeTest` ramps a speed up to 5 and back down on a 100-tick poll timer.
  - `PressureTest` checks that the pressure is down and completes.
  - `SelfTestEngine` runs the centrifuge test and then the pressure test. It publishes status, completed and failed notifications. `STE_Init` routes both sub-tests' completed and failed interfaces to the engine's `STE_Complete` and `STE_Cancel`, on thread 1.

The modules are:

- `Wrappers`: an `Option` type.
- `Callback`: the registry of (function, dispatcher) pairs behind `CB_Register` and `CB_Unregister`.
- `Timer`: 32-bit tick arithmetic, the per-slot expiry step, the scan, and the `TimerBank` class.
  - The class holds the slot array, the registry and a ghost record of the dispatched slot indices.
  - Its methods update the array in place with loops, as the C does.
- `StateMachine`: the engine the machines share. A machine is a state map (state, guard, entry and exit actions) plus a transition map per event. `ExternalEvent` and `Run` compute the outcome of one event: fatal, or the final state and data, the actions run and the effects issued.
- `CentrifugeTest`, `PressureTest`, `SelfTestEngine`: each machine's transition maps, state map and actions.
  - Actions are functions from the instance data to the new data, the internal event requested, and the effects (timer starts and stops, callback invocations, sub-test events) in order.
  - Each machine also has an instance class, whose `Event` method updates the current state and the instance data in place.
- `SelfTestSystem`: the three machines composed.
  - The engine's launches run the sub-tests synchronously.
  - Sub-test notifications queue the engine's callbacks on thread 1's FIFO.
  - The centrifuge's poll timer is a flag, `polling`, that records whether `CFG_PollCallback` is registered on it; while it is, a timer tick turns into a queued `CFG_PollCallback`.
  - `Step` takes one input: an engine event from the main thread, a tick, or thread 1 running its next callback.

Engine semantics:

- `StateMachine.c` is not part of this model. The engine is modelled as the state maps here need it:
  - the guard of every hop's target is evaluated;
  - exit and entry actions run only when the target differs from the current state;
  - an internal event is a pending hop, carried out once the action that raised it has returned.
- The state-machine library is documented as running no exit action and no guard on an internal hop. This model runs the exit on internal hops because the code relies on it:
  - `EX_WaitForAcceleration` says "acceleration over", and stops the poll timer (SelfTest/CentrifugeTest.c:176-183).
  - That is true only on the internal hop from `ST_WaitForAcceleration` to `ST_Deceleration` (SelfTest/CentrifugeTest.c:172-173).
  - With the exit skipped, that hop would leave `CFG_PollCallback` registered when `ST_Deceleration` calls `TMR_Start` again.
- Guards are evaluated on internal hops too. No internal hop here targets a guarded state, so this choice changes no outcome.

## Model

| member | source | states |
|---|---|---|
| Callback.Find | Port/Timer.c:41-47 | The search `TMR_Start` and `TMR_Stop` run over the registry returns the first index holding the entry, and returns nothing exactly when the entry is absent |
| Callback.Register | Port/Timer.c:34 | `CB_Register` succeeds iff the pair is not yet registered and a free entry exists; on success the pair is present; on failure nothing changes; registered entries are never overwritten |
| Callback.Unregister | Port/Timer.c:66 | `CB_Unregister` frees the first entry holding the pair and changes no other entry; an absent pair changes nothing; in a registry without duplicates the pair is gone afterwards |
| Callback.UnregisterFreesOneEntry | Port/Timer.c:66 | Unregistering a registered pair gives its entry back: exactly one more entry is free, so a later `TMR_Start` can register again |
| Callback.RegisterKeepsUnique | Port/Timer.c:34 | Registering never creates a duplicate (callback, dispatcher) pair |
| Callback.UnregisterKeepsUnique | Port/Timer.c:66 | Unregistering never creates a duplicate pair |
| Callback.RegisterUsesOneFreeEntry | Port/Timer.c:18 | A successful registration consumes exactly one of the registry's free entries; with no free entry left, registration fails |
| Callback.RegisterFillsFirstFree | Port/Timer.c:34-47 | After a successful registration the pair sits at the index of the first free entry, which is the slot `TMR_Start` then finds |
| Callback.RegisterThenUnregister | Port/Timer.c:34-66 | Unregistering a pair just registered restores the registry exactly |
| Timer.Add | Port/Timer.c:104 | DWORD `+=`: the exact sum below 2^32, and the sum less 2^32 when it wraps |
| Timer.Difference | Port/Timer.c:87-90 | `TMR_Difference` is the unique 32-bit elapsed time: adding it to `time1` with DWORD wrap-around gives `time2`, and no other value does |
| Timer.DifferenceAfterAdvance | Port/Timer.c:100-104 | Advancing a due timer's expiry by one period lowers the elapsed time by exactly one period |
| Timer.Expire | Port/Timer.c:92-117 | `TMR_CheckExpired` on one slot, as written: it dispatches iff the slot is enabled and at least `timeout` ticks have passed; only the expiry time changes; after a dispatch at most one period is still outstanding |
| Timer.Scanned | Port/Timer.c:119-130 | The scan leaves every slot as the one-slot step leaves it, and keeps the bank's size |
| Timer.Dispatched | Port/Timer.c:119-130 | The scan dispatches at most one callback per slot |
| Timer.ScanDispatchesEachDueSlotOnce | Port/Timer.c:113-130 | One `TMR_ProcessTimers` dispatches exactly the due slots, each once, in increasing slot order |
| Timer.ScanDispatchesToRegistered | Port/Timer.c:113-116 | While every armed slot's registry entry is registered, every dispatch goes to a registered callback |
| Timer.Arm | Port/Timer.c:38-56 | The `TMR_Start` loop arms exactly the slot at the first registry index holding the pair, with `cbIdx` equal to that index, and leaves the other slots unchanged |
| Timer.Disarm | Port/Timer.c:70-82 | The `TMR_Stop` loop disables exactly the slot at the first registry index holding the pair, and changes nothing else |
| Timer.StartKeepsArmedRegistered | Port/Timer.c:30-62 | `TMR_Start` keeps the invariant that every enabled slot's registry entry is registered |
| Timer.ExpireOncePerTick | Port/Timer.c:99-111 | With a non-zero period, unless exactly two periods have elapsed, a timer that just fired is not due again at the same tick |
| Timer.AsWrittenExpireFiresTwiceAtOneTick | Port/Timer.c:107 | A counterexample: period 100, expiry 0, now 200. The slot fires, is still due at tick 200, and fires again within the same tick |
| Timer.ExpireCorrected | Port/Timer.c:92-117 | The catch-up test written with `>=`: it dispatches iff due, and changes only the expiry time |
| Timer.CorrectedExpireOncePerTick | Port/Timer.c:99-111 | With the corrected test, a timer with a non-zero period never fires twice at one tick |
| Timer.AsWrittenStartFiresAtFirstScan | Port/Timer.c:49-50 | Because `TMR_Start` sets `expireTime = timeout`, any clock at or beyond twice the period makes the first scan fire at once |
| Timer.CorrectedStartWaitsOnePeriod | Port/Timer.c:99-101 | With the expiry set to the start time, a timer fires iff a full period has elapsed since the start, across wrap-around |
| Timer.CorrectedStartDropsMissedPeriods | Port/Timer.c:106-111 | A timer that has fallen more than two periods behind fires once, and its next expiry is pulled up to now |
| Timer.AsWrittenStopDisarmsNothing | Port/Timer.c:64-82 | Because `TMR_Stop` unregisters the pair before searching for it, the search finds no entry and disables no slot |
| Timer.AsWrittenStopLeavesArmedSlotUnregistered | Port/Timer.c:64-85 | A counterexample: after start and stop, slot 0 stays enabled while its registry entry is empty |
| Timer.CorrectedStopDisarms | Port/Timer.c:70-82 | Searching before unregistering disables the pair's slot and keeps every armed slot registered |
| Timer.TimerBank.constructor | Port/Timer.c:14 | Static initialisation: five disabled, zeroed slots and an empty registry |
| Timer.TimerBank.ArmMatching | Port/Timer.c:41-56 | The search loop over the array: it reports whether the pair was found, and leaves the array equal to `Arm` of the old array |
| Timer.TimerBank.DisarmMatching | Port/Timer.c:71-82 | The search loop over the array leaves it equal to `Disarm` of the old array |
| Timer.TimerBank.Start | Port/Timer.c:30-62 | `TMR_Start` as written: the registry becomes `Register` of the old one; success is the registration's result; on success the pair's slot is armed with expiry `timeout` at the first free index; otherwise the slots are unchanged |
| Timer.TimerBank.Stop | Port/Timer.c:64-85 | `TMR_Stop` as written: the slots are disarmed against the registry after `Unregister` |
| Timer.TimerBank.StartCorrected | Port/Timer.c:30-62 | `TMR_Start` with the expiry set to the current tick |
| Timer.TimerBank.StopCorrected | Port/Timer.c:64-85 | `TMR_Stop` disarming against the registry before `Unregister` |
| Timer.TimerBank.CheckExpired | Port/Timer.c:92-117 | One slot updated in place as `Expire` says; its `cbIdx` is recorded as dispatched iff it fired |
| Timer.TimerBank.ProcessTimers | Port/Timer.c:119-130 | The loop over the five slots leaves the array equal to `Scanned` and records exactly `Dispatched`, in order |
| StateMachine.Run | SelfTest/CentrifugeTest.c:124-147 | A chain of internal events is never fatal: `CANNOT_HAPPEN` can only come from an external transition map |
| StateMachine.ExternalEvent | SelfTest/CentrifugeTest.c:63-103 | An event is fatal iff its transition map says `CANNOT_HAPPEN` in the current state; `EVENT_IGNORED` leaves state and data unchanged, runs nothing and issues nothing |
| StateMachine.GuardRejects | SelfTest/CentrifugeTest.c:149-157 | A guard returning FALSE ends the event with state and data unchanged, with only the guard run |
| StateMachine.SelfTransitionSkipsExitEntry | SelfTest/CentrifugeTest.c:98-101 | A transition to the current state (no guard) runs no exit and no entry action: the first action run is the state action |
| StateMachine.InternalEventIsPending | SelfTest/CentrifugeTest.c:143-147 | For a hop that runs no guard, no exit and no entry action, an internal event raised by the state action is carried out after that action: its effects come first, then the internal hop's |
| CentrifugeTest.StartMap | SelfTest/CentrifugeTest.c:63-75 | The `CFG_Start` transition map, one entry per state; its columns are stated by `CentrifugeTest.StartMapColumns` |
| CentrifugeTest.CancelMap | SelfTest/CentrifugeTest.c:77-89 | The `CFG_Cancel` transition map; its columns are stated by `CentrifugeTest.CancelMapColumns` |
| CentrifugeTest.PollMap | SelfTest/CentrifugeTest.c:91-103 | The `CFG_Poll` transition map; its columns are stated by `CentrifugeTest.PollMapColumns` |
| CentrifugeTest.StateMap | SelfTest/CentrifugeTest.c:51-61 | The state map: which state has a guard (StartTest), an entry (Idle) and an exit (the two Wait states); stated by `CentrifugeTest.PollTimerOwners` and `CentrifugeTest.GuardAdmitsIffStopped` |
| CentrifugeTest.GdStartTest | SelfTest/CentrifugeTest.c:149-157 | `GD_StartTest`; stated by `CentrifugeTest.GuardAdmitsIffStopped` |
| CentrifugeTest.EnIdle | SelfTest/CentrifugeTest.c:115-122 | `EN_Idle`: speed 0 and the poll timer stopped; stated by `CentrifugeTest.PollTimerOwners` |
| CentrifugeTest.StIdle | SelfTest/CentrifugeTest.c:110-113 | `ST_Idle`, which only logs: no effect and no hop |
| CentrifugeTest.StCompleted | SelfTest/CentrifugeTest.c:124-131 | `ST_Completed`: the internal event to Idle, then the completed notification |
| CentrifugeTest.StFailed | SelfTest/CentrifugeTest.c:133-140 | `ST_Failed`: the internal event to Idle, then the failed notification |
| CentrifugeTest.StStartTest | SelfTest/CentrifugeTest.c:142-147 | `ST_StartTest`: the internal event to Acceleration |
| CentrifugeTest.StAcceleration | SelfTest/CentrifugeTest.c:159-166 | `ST_Acceleration`: starts the 100-tick poll timer; stated by `CentrifugeTest.PollTimerOwners` |
| CentrifugeTest.StWaitForAcceleration | SelfTest/CentrifugeTest.c:168-174 | `ST_WaitForAcceleration`: pre-increments the speed and hops to Deceleration at 5; stated by `CentrifugeTest.SpeedActions` |
| CentrifugeTest.ExWaitForAcceleration | SelfTest/CentrifugeTest.c:176-183 | `EX_WaitForAcceleration`: stops the poll timer; stated by `CentrifugeTest.PollTimerOwners` |
| CentrifugeTest.StDeceleration | SelfTest/CentrifugeTest.c:185-192 | `ST_Deceleration`: starts the poll timer again; stated by `CentrifugeTest.PollTimerOwners` |
| CentrifugeTest.StWaitForDeceleration | SelfTest/CentrifugeTest.c:194-200 | `ST_WaitForDeceleration`: post-decrements the speed and hops to Completed when it was 0; stated by `CentrifugeTest.SpeedActions` |
| CentrifugeTest.ExWaitForDeceleration | SelfTest/CentrifugeTest.c:202-209 | `EX_WaitForDeceleration`: stops the poll timer; stated by `CentrifugeTest.PollTimerOwners` |
| CentrifugeTest.Dispatch | SelfTest/CentrifugeTest.c:63-103 | `SM_Event(CentrifugeTestSM, e)`: the engine run on the event's transition map; stated by `CentrifugeTest.EventKeepsResting` |
| CentrifugeTest.StartMapColumns | SelfTest/CentrifugeTest.c:63-75 | `CFG_Start` goes to StartTest exactly from Idle, is fatal exactly in Completed and Failed, and is ignored otherwise |
| CentrifugeTest.CancelMapColumns | SelfTest/CentrifugeTest.c:77-89 | `CFG_Cancel` is ignored exactly in Idle, fatal exactly in Completed and Failed, and goes to Failed from StartTest and every running state |
| CentrifugeTest.PollMapColumns | SelfTest/CentrifugeTest.c:91-103 | `CFG_Poll` is never fatal, is ignored exactly when no test is running, and goes to the Wait state of the current ramp otherwise |
| CentrifugeTest.PollTimerOwners | SelfTest/CentrifugeTest.c:115-209 | Exactly Acceleration and Deceleration start the 100-tick poll timer; exactly the two Wait exits and Idle's entry stop it; EN_Idle zeroes the speed; StartTest, Completed and Failed always hop on |
| CentrifugeTest.SpeedActions | SelfTest/CentrifugeTest.c:168-200 | Only the Wait actions change the speed. WaitForAcceleration pre-increments and hops to Deceleration iff the new speed is at least 5. WaitForDeceleration post-decrements and hops to Completed iff the old speed was 0 |
| CentrifugeTest.GuardAdmitsIffStopped | SelfTest/CentrifugeTest.c:149-157 | `GD_StartTest` admits the test iff the speed is 0 |
| CentrifugeTest.StartFromIdle | SelfTest/CentrifugeTest.c:143-166 | `CFG_Start` at rest runs the guard, ST_StartTest and ST_Acceleration, with no exit or entry, and starts the poll timer |
| CentrifugeTest.CancelWhileRunning | SelfTest/CentrifugeTest.c:77-140 | A cancel while running: the Wait state's exit (if any), ST_Failed, EN_Idle and ST_Idle run in that order; the timer stops, failure is notified, and the machine ends in Idle with speed 0 |
| CentrifugeTest.PollInWaitForAcceleration | SelfTest/CentrifugeTest.c:168-192 | A poll in WaitForAcceleration either stays there with the speed one higher, or, on reaching 5, exits (stopping the timer) into Deceleration, which restarts it |
| CentrifugeTest.PollInWaitForDeceleration | SelfTest/CentrifugeTest.c:115-209 | A poll in WaitForDeceleration either lowers the speed, or, at speed 0, runs the exit, ST_Completed, EN_Idle and ST_Idle, notifying completion |
| CentrifugeTest.EventKeepsResting | SelfTest/CentrifugeTest.c:63-209 | Every event in a resting state is never fatal and leaves a resting state. After the event's `TMR_Start`/`TMR_Stop` calls, the poll timer is started iff a test is running. A run that ends notifies exactly once: failed on cancel, completed otherwise |
| CentrifugeTest.PollProgress | SelfTest/CentrifugeTest.c:168-200 | Each poll brings a running test exactly one poll closer to Idle, and only Idle has none to go, so a started test ends after 11 polls |
| CentrifugeTest.CentrifugeTestInstance.constructor | SelfTest/CentrifugeTest.c:19-20 | The instance starts in Idle with speed 0 |
| CentrifugeTest.CentrifugeTestInstance.Event | SelfTest/CentrifugeTest.c:63-103 | `SM_Event` updates the current state and `speed` in place to the event's outcome, returns its effects, and keeps the instance resting |
| PressureTest.StartMap | SelfTest/PressureTest.c:49-57 | The `PRE_Start` transition map; its columns are stated by `PressureTest.StartMapColumns` |
| PressureTest.CancelMap | SelfTest/PressureTest.c:59-67 | The `PRE_Cancel` transition map; its columns are stated by `PressureTest.CancelMapColumns` |
| PressureTest.PollMap | SelfTest/PressureTest.c:69-77 | The `PRE_Poll` transition map, ignored everywhere; stated by `PressureTest.PollIgnored` |
| PressureTest.StateMap | SelfTest/PressureTest.c:41-47 | The state map: a guard on StartTest and an entry on Idle; stated by `PressureTest.PressureActions` and `PressureTest.GuardAdmitsIffLow` |
| PressureTest.GdStartTest | SelfTest/PressureTest.c:124-132 | `GD_StartTest`; stated by `PressureTest.GuardAdmitsIffLow` |
| PressureTest.EnIdle | SelfTest/PressureTest.c:89-96 | `EN_Idle`: pressure 0 and the poll timer stopped; stated by `PressureTest.PressureActions` |
| PressureTest.StIdle | SelfTest/PressureTest.c:84-87 | `ST_Idle`, which only logs |
| PressureTest.StCompleted | SelfTest/PressureTest.c:98-105 | `ST_Completed`: the internal event to Idle, then the completed notification |
| PressureTest.StFailed | SelfTest/PressureTest.c:107-114 | `ST_Failed`: the internal event to Idle, then the failed notification |
| PressureTest.StStartTest | SelfTest/PressureTest.c:116-122 | `ST_StartTest`: the internal event to Completed |
| PressureTest.Dispatch | SelfTest/PressureTest.c:49-77 | `SM_Event(PressureTestSM, e)`; stated by `PressureTest.EventKeepsResting` |
| PressureTest.StartMapColumns | SelfTest/PressureTest.c:49-57 | `PRE_Start` goes to StartTest exactly from Idle, is fatal exactly in Completed and Failed, and is ignored in StartTest |
| PressureTest.CancelMapColumns | SelfTest/PressureTest.c:59-67 | `PRE_Cancel` is ignored in Idle, fatal in Completed and Failed, and goes to Failed from StartTest |
| PressureTest.PollIgnored | SelfTest/PressureTest.c:69-77 | `PRE_Poll` does nothing in every state |
| PressureTest.PressureActions | SelfTest/PressureTest.c:84-122 | No state action writes the pressure and no state has an exit. Only Idle has an entry action, which zeroes the pressure and stops the poll timer. Every state but Idle hops on |
| PressureTest.GuardAdmitsIffLow | SelfTest/PressureTest.c:124-132 | `GD_StartTest` admits the test iff the pressure is 0 |
| PressureTest.StartRunsToCompletion | SelfTest/PressureTest.c:98-122 | `PRE_Start` at rest runs the guard, ST_StartTest, ST_Completed, EN_Idle and ST_Idle within one event, notifying completion and ending in Idle |
| PressureTest.HighPressureBlocksStart | SelfTest/PressureTest.c:124-132 | With the pressure up, `PRE_Start` runs only the rejecting guard and changes nothing |
| PressureTest.CancelInStartTestFails | SelfTest/PressureTest.c:59-114 | `PRE_Cancel` in StartTest fails, notifies failure and returns to Idle |
| PressureTest.EventKeepsResting | SelfTest/PressureTest.c:49-132 | At rest (Idle, pressure 0) every event is never fatal and stays at rest; only `PRE_Start` issues effects, namely completion and then the timer stop |
| PressureTest.PressureTestInstance.constructor | SelfTest/PressureTest.c:19-20 | The instance starts in Idle with pressure 0 |
| PressureTest.PressureTestInstance.Event | SelfTest/PressureTest.c:49-77 | `SM_Event` updates the current state and `pressure` in place to the event's outcome and returns its effects |
| SelfTestEngine.StartMap | SelfTest/SelfTestEngine.c:57-69 | The `STE_Start` transition map; its columns are stated by `SelfTestEngine.StartMapColumns` |
| SelfTestEngine.CompleteMap | SelfTest/SelfTestEngine.c:71-83 | The `STE_Complete` transition map; its columns are stated by `SelfTestEngine.CompleteMapColumns` |
| SelfTestEngine.CancelMap | SelfTest/SelfTestEngine.c:85-97 | The `STE_Cancel` transition map; its columns are stated by `SelfTestEngine.CancelMapColumns` |
| SelfTestEngine.StateMap | SelfTest/SelfTestEngine.c:48-55 | The state map: no guard, entry or exit anywhere |
| SelfTestEngine.StIdle | SelfTest/SelfTestEngine.c:118-130 | `ST_Idle`: clears `testingActive` and publishes it; stated by `SelfTestEngine.TestingActiveActions` |
| SelfTestEngine.StCompleted | SelfTest/SelfTestEngine.c:132-141 | `ST_Completed`: the completed notification, then the internal event to Idle |
| SelfTestEngine.StFailed | SelfTest/SelfTestEngine.c:143-152 | `ST_Failed`: the failed notification, then the internal event to Idle |
| SelfTestEngine.StStartCentrifugeTest | SelfTest/SelfTestEngine.c:154-169 | `ST_StartCentrifugeTest`: sets `testingActive`, starts the centrifuge test, publishes the status; stated by `SelfTestEngine.TestingActiveActions` |
| SelfTestEngine.StStartPressureTest | SelfTest/SelfTestEngine.c:171-177 | `ST_StartPressureTest`: starts the pressure test |
| SelfTestEngine.Dispatch | SelfTest/SelfTestEngine.c:57-97 | `SM_Event(SelfTestEngineSM, e)`; stated by `SelfTestEngine.EventKeepsResting` |
| SelfTestEngine.CallbackEvent | SelfTest/SelfTestEngine.c:99-107 | `STE_CompletedCallback` raises `STE_Complete` and `STE_FailedCallback` raises `STE_Cancel` |
| SelfTestEngine.NoSubscriptions | SelfTest/CentrifugeTest.c:15-16 | Each sub-test interface is declared with capacity 1 and no subscriber |
| SelfTestEngine.Init | SelfTest/SelfTestEngine.c:109-116 | `STE_Init`: each interface that has a free entry ends up holding the engine's callback on thread 1, and a routed set of interfaces stays routed |
| SelfTestEngine.StartMapColumns | SelfTest/SelfTestEngine.c:57-69 | `STE_Start` goes to StartCentrifugeTest exactly from Idle, is fatal exactly in Completed and Failed, and is ignored while a test runs |
| SelfTestEngine.CompleteMapColumns | SelfTest/SelfTestEngine.c:71-83 | `STE_Complete` is ignored in Idle, fatal in Completed and Failed, and moves the centrifuge test to the pressure test and the pressure test to Completed |
| SelfTestEngine.CancelMapColumns | SelfTest/SelfTestEngine.c:85-97 | `STE_Cancel` is never fatal, is ignored exactly in Idle, and goes to Failed from every other state |
| SelfTestEngine.TestingActiveActions | SelfTest/SelfTestEngine.c:118-177 | ST_Idle clears `testingActive` and ST_StartCentrifugeTest sets it; each publishes the value written; no other action touches it or publishes a status; exactly Completed and Failed hop, to Idle |
| SelfTestEngine.FinishThroughIdle | SelfTest/SelfTestEngine.c:118-152 | Completed and Failed notify first, then hop to Idle, which publishes inactive |
| SelfTestEngine.EventKeepsResting | SelfTest/SelfTestEngine.c:57-177 | Every engine event at rest is never fatal and stays at rest. A status is published iff `testingActive` changes, and carries the new value. A finished run notifies once. The centrifuge test starts with STE_Start from Idle, the pressure test with STE_Complete in StartCentrifugeTest |
| SelfTestEngine.HappyPath | SelfTest/SelfTestEngine.c:57-177 | Start and two completions take the engine Idle, StartCentrifugeTest, StartPressureTest, Completed, Idle, publishing active, completed, inactive |
| SelfTestEngine.InitRoutesSubTests | SelfTest/SelfTestEngine.c:99-116 | `STE_Init` fills each capacity-1 interface with the one subscription that routes completions to `STE_Complete` and failures to `STE_Cancel` on thread 1; a second call changes nothing |
| SelfTestEngine.SelfTestEngineInstance.constructor | SelfTest/SelfTestEngine.c:23-24 | The instance starts in Idle with `testingActive` false |
| SelfTestEngine.SelfTestEngineInstance.Event | SelfTest/SelfTestEngine.c:57-97 | `SM_Event` updates the current state and `testingActive` in place to the event's outcome and returns its effects |
| SelfTestSystem.Posted | SelfTest/CentrifugeTest.c:124-140 | `CB_Invoke` posts to thread 1 only callbacks registered on its dispatcher, no more than there are subscriptions |
| SelfTestSystem.PostedInRegistryOrder | SelfTest/CentrifugeTest.c:124-140 | `CB_Invoke` posts the callbacks of the thread-1 subscriptions in registry order |
| SelfTestSystem.PostedComplete | SelfTest/CentrifugeTest.c:124-140 | A callback is posted to thread 1 exactly when it is subscribed on thread 1 |
| SelfTestSystem.PostedOnce | SelfTest/CentrifugeTest.c:124-140 | In a registry without duplicate pairs, each callback is posted once |
| SelfTestSystem.Initial | SelfTest/SelfTestEngine.c:109-116 | The system after `STE_Init`: every machine in Idle, nothing queued, nothing published; stated by `SelfTestSystem.InitialValid` |
| SelfTestSystem.CentrifugeEffect | SelfTest/CentrifugeTest.c:115-209 | One centrifuge call: `TMR_Start` registers the poll callback and sets the poll flag, `TMR_Stop` unregisters it and clears the flag; `CB_Invoke` queues the subscribed callbacks on thread 1 |
| SelfTestSystem.PressureEffect | SelfTest/PressureTest.c:89-114 | One pressure call: `TMR_Stop` of a timer never started changes nothing; `CB_Invoke` queues the subscribed callbacks |
| SelfTestSystem.CentrifugeEvent | SelfTest/CentrifugeTest.c:105-108 | `SM_Event` on the centrifuge, with its calls applied in order; stated by `SelfTestSystem.CentrifugeEventKeeps` |
| SelfTestSystem.PressureEvent | SelfTest/SelfTestEngine.c:171-177 | `SM_Event(PressureTestSM, PRE_Start)` from the engine; stated by `SelfTestSystem.PressureEventKeeps` |
| SelfTestSystem.EngineEffect | SelfTest/SelfTestEngine.c:154-177 | One engine call: a sub-test started synchronously, or a notification published; stated by `SelfTestSystem.EngineEffectKeeps` |
| SelfTestSystem.EngineEvent | SelfTest/SelfTestEngine.c:99-107 | `SM_Event` on the engine, with its calls applied in order; stated by `SelfTestSystem.EngineEventKeeps` |
| SelfTestSystem.RunCallback | Port/WorkerThreadStd.cpp:193-205 | Thread 1 running one queued callback: the poll callback polls the centrifuge, the engine's callbacks raise their events |
| SelfTestSystem.Step | Port/WorkerThreadStd.cpp:177-205 | One input: an engine event, a tick that queues a poll while the poll callback is registered, or thread 1 taking the head of its FIFO; stated by `SelfTestSystem.StepKeepsValid` |
| SelfTestSystem.InitPosts | SelfTest/SelfTestEngine.c:109-116 | Once wired, each sub-test notification queues exactly the engine callback its interface is routed to |
| SelfTestSystem.CentrifugeEventKeeps | SelfTest/SelfTestEngine.c:154-169 | A centrifuge event in a valid system is never fatal, keeps the sub-tests valid, and leaves the engine and its publications alone |
| SelfTestSystem.PressureEventKeeps | SelfTest/SelfTestEngine.c:171-177 | A pressure event in a valid system is never fatal, keeps the sub-tests valid, and leaves the engine alone |
| SelfTestSystem.EngineEffectKeeps | SelfTest/SelfTestEngine.c:154-177 | Each engine effect is safe while the sub-tests are valid: a launch runs the sub-test synchronously, and any other effect is published |
| SelfTestSystem.EngineEffectsSafe | SelfTest/SelfTestEngine.c:154-177 | An engine action's effects, applied in order, never fail, keep the sub-tests valid and leave the engine state alone |
| SelfTestSystem.EngineEffectsPublish | SelfTest/SelfTestEngine.c:118-169 | The engine's effects publish exactly its status, completed and failed notifications, in order |
| SelfTestSystem.StatusesAfter | SelfTest/SelfTestEngine.c:118-169 | Publishing an event's statuses keeps the last published status equal to `testingActive` |
| SelfTestSystem.EngineEventKeeps | SelfTest/SelfTestEngine.c:99-107 | An engine event in a valid system is never fatal and keeps the system valid |
| SelfTestSystem.StepKeepsValid | SelfTest/SelfTestEngine.c:99-177 | In any interleaving of engine events, timer ticks and thread-1 deliveries, no `CANNOT_HAPPEN` entry is reached. Every machine stays at rest. The poll callback is registered exactly while the centrifuge test runs. The last status published agrees with `testingActive` |
| SelfTestSystem.PressureRunQueuesCompletion | SelfTest/PressureTest.c:98-122 | `PRE_Start` at rest completes the pressure test at once and queues exactly `STE_CompletedCallback` |
| SelfTestSystem.FirstHandOff | SelfTest/SelfTestEngine.c:71-102 | Delivering the centrifuge's completion moves the engine to StartPressureTest, whose pressure run queues the next completion |
| SelfTestSystem.SecondHandOff | SelfTest/SelfTestEngine.c:132-141 | Delivering the pressure completion ends the run in Idle, publishing completed and then inactive |
| SelfTestSystem.CompletionsFinishTheRun | SelfTest/SelfTestEngine.c:99-141 | Two deliveries after the centrifuge's completion finish a valid run, publishing completed then inactive |
| SelfTestSystem.InitialValid | SelfTest/SelfTestEngine.c:109-116 | After `STE_Init` the subscriptions are wired and the whole system is valid |

## Left out

- **Threads, locks and queues.** `TMR_Init`, `TMR_Term` and the `LK_LOCK`/`LK_UNLOCK` pairs are left out. So are the worker threads of `Port/WorkerThreadStd.cpp`: the composition is single-threaded, and thread 1's queue is a sequence. The race in which a callback already queued still runs after `TMR_Stop` is modelled on thread 1's queue:
  - a tick queues a poll only while the poll callback is registered, but `Step` delivers whatever is at the head of the queue;
  - a poll queued before `EN_Idle`'s `TMR_Stop` is still delivered afterwards, and the centrifuge ignores it in Idle, which `SelfTestSystem.StepKeepsValid` covers.
- **The clock.** `GetTickCount` is the `now` parameter of `CheckExpired` and `ProcessTimers`, read once per scan. In the composition, a tick is the `TimerTick` input and the poll timer is the flag of its callback's registration; the composition does not use `TimerBank`.
- Timer.Expire: one clock reading per scan. The source reads `GetTickCount` again for the catch-up test and the resync (Port/Timer.c:107 and 110), and again for every slot that `TMR_ProcessTimers` checks (Port/Timer.c:125-128). The model assumes all these readings return the same tick. Three results depend on this: the post-dispatch bound of `Timer.Expire`, its closed form, and the double-firing witness `Timer.AsWrittenExpireFiresTwiceAtOneTick`. The same assumption holds for `Timer.TimerBank.CheckExpired` and `Timer.TimerBank.ProcessTimers`.
- **Callback infrastructure.** `callback.c` is not part of this model. The registry rests on assumptions about it:
  - registration rejects duplicates and full registries;
  - registration fills the first free entry, and unregistration clears the first match. Which entry is chosen is an assumption: `Timer.TimerBank.Start` ("at the first free index") and `Timer.AsWrittenStopLeavesArmedSlotUnregistered` ("slot 0") depend on it;
  - dispatch is a posted message.
- **The poll slot left enabled by `TMR_Stop`.** As written, `TMR_Stop` leaves the poll timer's slot enabled (second row of "## Findings"), so it keeps expiring into its emptied `TMR_ExpiredCb` entry (Port/Timer.c:113-116). The composition assumes that dispatching an emptied entry posts nothing, because dispatch consults the registry when it invokes; so `polling` stands for the poll callback's registration, not for the slot's `enabled` flag.
- **The engine.** `StateMachine.c` is not part of this model. Its semantics are as described above. A chain of internal events that does not decrease a per-machine rank ends as `Diverged`; no machine here reaches it.
- **Logging.** The `printf` calls, the instance names and `main.cpp` are left out. `main.cpp` registers the thread-2 subscribers whose messages end up in `published`.
- **Instance data.** `SM_GetInstance` and the instance data pointers are modelled as each machine's data value.
- **The disabled C++ timer.** The `#if 0` block of `Port/Timer.c` (lines 132-261) is not compiled and is not modelled.
- **The pressure poll timer.** It is never started. `EN_Idle`'s `TMR_Stop` of it changes nothing in the composition.
- **The pressure test's other events.** The engine only ever sends `PRE_Start`, so `PRE_Cancel` and `PRE_Poll` do not arise in the composition. They are modelled in `PressureTest`.
- **The `ASSERT_TRUE` checks of `TMR_CheckExpired`.** `cbIdx < MAX_TIMERS` (Port/Timer.c:113) is a proved assertion in `Timer.TimerBank.CheckExpired`. `timer != NULL` has no counterpart: slots are array elements.

## Findings

| source | as written | input that shows it | evidently intended | confidence | as-written member | corrected member |
|---|---|---|---|---|---|---|
| Port/Timer.c:50 | `TMR_Start` sets `expireTime = timeout`, an absolute tick, rather than the current tick | timeout 100, clock at 1 000 000: the first scan finds 999 900 ticks elapsed and fires at once | expiry set to the current tick, as the disabled C++ `Timer::Start` does, so the first firing comes one period after the start | not executed | Timer.AsWrittenStartFiresAtFirstScan, Timer.TimerBank.Start | Timer.CorrectedStartWaitsOnePeriod, Timer.TimerBank.StartCorrected |
| Port/Timer.c:66-82 | `TMR_Stop` unregisters the pair and then searches the registry for it, so it never finds the pair and never disables the slot | `TMR_Start(1, 2, 100)` then `TMR_Stop(1, 2)`: slot 0 stays enabled while its registry entry is empty | search and disable the slot first, then unregister | not executed | Timer.AsWrittenStopDisarmsNothing, Timer.AsWrittenStopLeavesArmedSlotUnregistered, Timer.TimerBank.Stop | Timer.CorrectedStopDisarms, Timer.TimerBank.StopCorrected |
| Port/Timer.c:107 | the catch-up test uses `>` while the expiry test at line 100 uses `<` | period 100, expiry 0, now 200: after the first firing exactly one period is still outstanding, so the slot is due again and fires twice at one tick | `>=`, so that a slot that fired is never due again at the same tick | not executed | Timer.AsWrittenExpireFiresTwiceAtOneTick, Timer.Expire | Timer.CorrectedExpireOncePerTick, Timer.ExpireCorrected |
