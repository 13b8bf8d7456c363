/**
 * The timer bank of Port/Timer.c: MAX_TIMERS slots, each co-indexed with one
 * entry of the TMR_ExpiredCb registry. TMR_Start registers a (callback, dispatch)
 * pair and arms the slot at the index where the pair was registered; TMR_Stop
 * unregisters the pair and disarms the slot whose entry still matches;
 * TMR_ProcessTimers scans every slot and dispatches the one subscriber of each
 * expired slot. GetTickCount() is the parameter `now`; locking is left out.
 */
module Timer {
  import opened Wrappers
  import opened Callback

  const MaxTimers: nat := 5

  /** 2^32: a DWORD wraps around at this value. */
  const Ticks: int := 0x1_0000_0000

  /** A 32-bit unsigned tick count. */
  newtype DWord = x: int | 0 <= x < 0x1_0000_0000

  /** `a + b` on DWORD, wrapping around modulo 2^32. */
  function Add(a: DWord, b: DWord): (r: DWord)
    ensures a as int + b as int < Ticks ==> r as int == a as int + b as int
    ensures a as int + b as int >= Ticks ==> r as int == a as int + b as int - Ticks
  {
    ((a as int + b as int) % Ticks) as DWord
  }

  /**
   * TMR_Difference: the ticks that elapse going forward from time1 to time2,
   * correct across a wrap-around of the tick counter: it is the one DWORD that,
   * added to time1, gives time2.
   */
  function Difference(time1: DWord, time2: DWord): (r: DWord)
    ensures Add(time1, r) == time2
    ensures forall e: DWord :: Add(time1, e) == time2 ==> e == r
  {
    ((time2 as int - time1 as int) % Ticks) as DWord
  }

  /** TMR_Obj: one timer slot. */
  datatype TmrObj = TmrObj(cbIdx: int, timeout: DWord, expireTime: DWord, enabled: bool)

  /** A slot that TMR_CheckExpired will fire at tick `now`. */
  predicate Due(timer: TmrObj, now: DWord)
  {
    timer.enabled && Difference(timer.expireTime, now) >= timer.timeout
  }

  /** What TMR_CheckExpired does to one slot: its new value and whether it dispatched. */
  datatype Expiry = Expiry(slot: TmrObj, dispatch: bool)

  /** Advancing a due slot by one period leaves exactly one period less elapsed. */
  lemma DifferenceAfterAdvance(expireTime: DWord, timeout: DWord, now: DWord)
    requires Difference(expireTime, now) >= timeout
    ensures Difference(Add(expireTime, timeout), now) as int == Difference(expireTime, now) as int - timeout as int
  {
    var d := Difference(expireTime, now) as int - timeout as int;
    assert 0 <= d < Ticks;
    assert Add(Add(expireTime, timeout), d as DWord) == now;
  }

  /** TMR_CheckExpired on one slot at tick `now`. */
  function Expire(timer: TmrObj, now: DWord): (r: Expiry)
    ensures r.dispatch <==> Due(timer, now)
    ensures !r.dispatch ==> r.slot == timer
    ensures r.slot == timer.(expireTime := r.slot.expireTime)
    ensures r.dispatch ==> Difference(r.slot.expireTime, now) <= timer.timeout
    ensures r.dispatch ==>
      r.slot.expireTime == if Difference(timer.expireTime, now) as int > 2 * timer.timeout as int
                           then now else Add(timer.expireTime, timer.timeout)
  {
    if !timer.enabled then Expiry(timer, false)
    else if Difference(timer.expireTime, now) < timer.timeout then Expiry(timer, false)
    else
      var advanced := Add(timer.expireTime, timer.timeout);
      DifferenceAfterAdvance(timer.expireTime, timer.timeout, now);
      var expireTime := if Difference(advanced, now) > timer.timeout then now else advanced;
      Expiry(timer.(expireTime := expireTime), true)
  }

  /** The slots after one TMR_ProcessTimers scan at tick `now`. */
  function Scanned(slots: seq<TmrObj>, now: DWord): (r: seq<TmrObj>)
    ensures |r| == |slots|
    ensures forall i :: 0 <= i < |slots| ==>
      r[i].enabled == slots[i].enabled && r[i].cbIdx == slots[i].cbIdx && r[i].timeout == slots[i].timeout
  {
    seq(|slots|, i requires 0 <= i < |slots| => Expire(slots[i], now).slot)
  }

  /** The registry indices one scan at tick `now` dispatches to, in scan order. */
  function Dispatched(slots: seq<TmrObj>, now: DWord): (r: seq<int>)
    ensures |r| <= |slots|
  {
    if slots == [] then []
    else
      var last := slots[|slots| - 1];
      Dispatched(slots[..|slots| - 1], now) + (if Expire(last, now).dispatch then [last.cbIdx] else [])
  }

  /** Every armed slot names its own index as registry index (what TMR_Start stores). */
  ghost predicate SlotsIndexed(slots: seq<TmrObj>)
  {
    forall i :: 0 <= i < |slots| && slots[i].enabled ==> slots[i].cbIdx == i
  }

  /** Every armed slot's registry entry holds a subscription. */
  ghost predicate ArmedRegistered(slots: seq<TmrObj>, registry: seq<CbInfo>)
  {
    forall i :: 0 <= i < |slots| && i < |registry| && slots[i].enabled ==> registry[i].Registered?
  }

  ghost predicate Increasing(s: seq<int>)
  {
    forall i, j :: 0 <= i < j < |s| ==> s[i] < s[j]
  }

  /**
   * One scan dispatches exactly to the due slots, each at most once (the indices
   * come out strictly increasing), and hence at most once per enabled slot.
   */
  lemma {:induction false} ScanDispatchesEachDueSlotOnce(slots: seq<TmrObj>, now: DWord)
    requires SlotsIndexed(slots)
    ensures forall k :: k in Dispatched(slots, now) <==> 0 <= k < |slots| && Due(slots[k], now)
    ensures Increasing(Dispatched(slots, now))
  {
    if slots != [] {
      var n := |slots| - 1;
      var prefix := slots[..n];
      assert SlotsIndexed(prefix);
      ScanDispatchesEachDueSlotOnce(prefix, now);
      var last := slots[n];
      var earlier := Dispatched(prefix, now);
      var tail := if Expire(last, now).dispatch then [last.cbIdx] else [];
      assert Dispatched(slots, now) == earlier + tail;
      if Expire(last, now).dispatch {
        assert last.cbIdx == n;
        forall i | 0 <= i < |earlier| ensures earlier[i] < n {
          assert earlier[i] in earlier;
        }
      }
      forall k
        ensures k in Dispatched(slots, now) <==> 0 <= k < |slots| && Due(slots[k], now)
      {
        if 0 <= k < n {
          assert prefix[k] == slots[k];
        }
      }
    }
  }

  /** When every armed slot is registered, every dispatch reaches a registered subscriber. */
  lemma ScanDispatchesToRegistered(slots: seq<TmrObj>, registry: seq<CbInfo>, now: DWord)
    requires SlotsIndexed(slots) && ArmedRegistered(slots, registry) && |slots| == |registry|
    ensures forall k :: k in Dispatched(slots, now) ==> 0 <= k < |registry| && registry[k].Registered?
  {
    ScanDispatchesEachDueSlotOnce(slots, now);
  }

  /** The registry index at which the search loops of TMR_Start and TMR_Stop stop. */
  predicate FirstMatch(registry: seq<CbInfo>, pair: CbInfo, i: int)
  {
    0 <= i < |registry| && registry[i] == pair && pair !in registry[..i]
  }

  /** At most one index is the first match. */
  lemma FirstMatchUnique(registry: seq<CbInfo>, pair: CbInfo, i: int, j: int)
    requires FirstMatch(registry, pair, i) && FirstMatch(registry, pair, j)
    ensures i == j
  {
  }

  /**
   * The slots after the search loop of TMR_Start: the slot of the first entry
   * matching the pair becomes {cbIdx = its index, timeout, expireTime, enabled},
   * whatever it held before; every other slot is unchanged.
   */
  function Arm(slots: seq<TmrObj>, registry: seq<CbInfo>, cbFunc: FuncPtr, cbDispatchFunc: FuncPtr,
               timeout: DWord, expireTime: DWord): (r: seq<TmrObj>)
    requires |slots| == |registry|
    ensures |r| == |slots|
    ensures forall i :: 0 <= i < |slots| ==>
      r[i] == if FirstMatch(registry, Registered(cbFunc, cbDispatchFunc), i)
              then TmrObj(i, timeout, expireTime, true) else slots[i]
  {
    var pair := Registered(cbFunc, cbDispatchFunc);
    match Find(registry, pair)
    case None => slots
    case Some(k) =>
      assert FirstMatch(registry, pair, k);
      assert forall i | FirstMatch(registry, pair, i) :: i == k by {
        forall i | FirstMatch(registry, pair, i) ensures i == k {
          FirstMatchUnique(registry, pair, i, k);
        }
      }
      slots[k := TmrObj(k, timeout, expireTime, true)]
  }

  /**
   * The slots after the search loop of TMR_Stop over `registry`, which is the
   * registry as it stands when the loop runs: the slot of the first entry
   * matching the pair loses only its `enabled` flag; every other slot is unchanged.
   */
  function Disarm(slots: seq<TmrObj>, registry: seq<CbInfo>, cbFunc: FuncPtr, cbDispatchFunc: FuncPtr): (r: seq<TmrObj>)
    requires |slots| == |registry|
    ensures |r| == |slots|
    ensures forall i :: 0 <= i < |slots| ==>
      r[i] == if FirstMatch(registry, Registered(cbFunc, cbDispatchFunc), i)
              then slots[i].(enabled := false) else slots[i]
  {
    var pair := Registered(cbFunc, cbDispatchFunc);
    match Find(registry, pair)
    case None => slots
    case Some(k) =>
      assert FirstMatch(registry, pair, k);
      assert forall i | FirstMatch(registry, pair, i) :: i == k by {
        forall i | FirstMatch(registry, pair, i) ensures i == k {
          FirstMatchUnique(registry, pair, i, k);
        }
      }
      slots[k := slots[k].(enabled := false)]
  }

  /** Arming after a registration keeps every armed slot registered. */
  lemma StartKeepsArmedRegistered(slots: seq<TmrObj>, registry: seq<CbInfo>, cbFunc: FuncPtr,
                                  cbDispatchFunc: FuncPtr, timeout: DWord, expireTime: DWord)
    requires |slots| == |registry| && ArmedRegistered(slots, registry)
    ensures var reg := Register(registry, cbFunc, cbDispatchFunc);
      ArmedRegistered(if reg.ok then Arm(slots, reg.entries, cbFunc, cbDispatchFunc, timeout, expireTime) else slots,
                      reg.entries)
  {
  }

  /**
   * A regular expiry dispatches once per tick: unless exactly two periods had
   * elapsed, a slot that has just fired is not due again at the same tick.
   */
  lemma ExpireOncePerTick(timer: TmrObj, now: DWord)
    requires Due(timer, now) && 0 < timer.timeout
    requires Difference(timer.expireTime, now) as int != 2 * timer.timeout as int
    ensures !Due(Expire(timer, now).slot, now)
  {
    DifferenceAfterAdvance(timer.expireTime, timer.timeout, now);
  }

  /**
   * The catch-up test of TMR_CheckExpired uses `>` where the expiry test uses
   * `>=`: with exactly two periods elapsed the slot is advanced by one period,
   * is still due, and a second scan at the same tick dispatches again.
   */
  lemma AsWrittenExpireFiresTwiceAtOneTick()
    ensures var first := Expire(TmrObj(0, 100, 0, true), 200);
      first.dispatch && Expire(first.slot, 200).dispatch
  {
    var first := Expire(TmrObj(0, 100, 0, true), 200);
    assert Difference(0, 200) == 200;
    assert first.slot.expireTime == 100;
    assert Difference(100, 200) == 100;
  }

  /** TMR_CheckExpired with the catch-up test written as "still expired", `>=`. */
  function ExpireCorrected(timer: TmrObj, now: DWord): (r: Expiry)
    ensures r.dispatch <==> Due(timer, now)
    ensures r.slot == timer.(expireTime := r.slot.expireTime)
    ensures !r.dispatch ==> r.slot == timer
  {
    if !Due(timer, now) then Expiry(timer, false)
    else
      var advanced := Add(timer.expireTime, timer.timeout);
      var expireTime := if Difference(advanced, now) >= timer.timeout then now else advanced;
      Expiry(timer.(expireTime := expireTime), true)
  }

  /** The corrected catch-up never lets a slot fire twice at one tick. */
  lemma CorrectedExpireOncePerTick(timer: TmrObj, now: DWord)
    requires 0 < timer.timeout
    ensures !Due(ExpireCorrected(timer, now).slot, now)
  {
    if Due(timer, now) {
      DifferenceAfterAdvance(timer.expireTime, timer.timeout, now);
      assert Difference(now, now) == 0;
    }
  }

  /**
   * TMR_Start as written stores expireTime = timeout, so the period is not
   * measured from the call: once the tick counter has passed two periods, the
   * first scan after TMR_Start fires at once.
   */
  lemma AsWrittenStartFiresAtFirstScan(idx: int, timeout: DWord, now: DWord)
    requires 2 * timeout as int <= now as int
    ensures Expire(TmrObj(idx, timeout, timeout, true), now).dispatch
  {
    assert Difference(timeout, now) as int == now as int - timeout as int;
  }

  /**
   * A slot armed at tick `start` (expireTime = start, as in TMR_Start corrected)
   * first fires once `elapsed` reaches the timeout, not before.
   */
  lemma CorrectedStartWaitsOnePeriod(idx: int, timeout: DWord, start: DWord, elapsed: DWord)
    ensures Expire(TmrObj(idx, timeout, start, true), Add(start, elapsed)).dispatch <==> elapsed >= timeout
  {
    assert Difference(start, Add(start, elapsed)) == elapsed;
  }

  /**
   * A slot armed at `start` and first scanned after `periods` > 2 whole periods
   * fires once and resynchronises expireTime to the scan's tick: the missed
   * periods are dropped, not replayed.
   */
  lemma CorrectedStartDropsMissedPeriods(idx: int, timeout: DWord, start: DWord, periods: nat)
    requires 0 < timeout && 2 < periods && periods * timeout as int < Ticks
    ensures var now := Add(start, (periods * timeout as int) as DWord);
      Expire(TmrObj(idx, timeout, start, true), now) == Expiry(TmrObj(idx, timeout, now, true), true)
  {
    var elapsed := (periods * timeout as int) as DWord;
    var now := Add(start, elapsed);
    assert Difference(start, now) == elapsed;
    assert (periods - 2) * timeout as int > 0;
    assert elapsed as int > 2 * timeout as int;
  }

  /**
   * TMR_Stop as written searches the registry after CB_Unregister has removed
   * the pair, so with a well-formed registry it finds no match and disarms
   * nothing.
   */
  lemma AsWrittenStopDisarmsNothing(slots: seq<TmrObj>, registry: seq<CbInfo>, cbFunc: FuncPtr, cbDispatchFunc: FuncPtr)
    requires |slots| == |registry| && Unique(registry)
    ensures Disarm(slots, Unregister(registry, cbFunc, cbDispatchFunc), cbFunc, cbDispatchFunc) == slots
  {
  }

  /** A timer started and then stopped as written stays armed over a free registry entry. */
  lemma AsWrittenStopLeavesArmedSlotUnregistered()
    ensures var registry := [Registered(1, 2), Empty, Empty, Empty, Empty];
      var slots := [TmrObj(0, 100, 100, true)] + seq(4, _ => TmrObj(0, 0, 0, false));
      var after := Unregister(registry, 1, 2);
      && ArmedRegistered(slots, registry)
      && Disarm(slots, after, 1, 2)[0].enabled
      && !ArmedRegistered(Disarm(slots, after, 1, 2), after)
  {
    var registry := [Registered(1, 2), Empty, Empty, Empty, Empty];
    var after := Unregister(registry, 1, 2);
    assert after[0] == Empty;
    assert Registered(1, 2) !in after;
  }

  /**
   * Disarming before unregistering (TMR_Stop corrected) disarms the pair's slot
   * and keeps every armed slot registered.
   */
  lemma CorrectedStopDisarms(slots: seq<TmrObj>, registry: seq<CbInfo>, cbFunc: FuncPtr, cbDispatchFunc: FuncPtr)
    requires |slots| == |registry| && Unique(registry) && ArmedRegistered(slots, registry)
    ensures var after := Disarm(slots, registry, cbFunc, cbDispatchFunc);
      && ArmedRegistered(after, Unregister(registry, cbFunc, cbDispatchFunc))
      && forall i :: 0 <= i < |slots| && registry[i] == Registered(cbFunc, cbDispatchFunc) ==> !after[i].enabled
  {
  }

  class TimerBank {
    /** timerObjs */
    const slots: array<TmrObj>
    /** TMR_ExpiredCbMulticast: the registry co-indexed with the slots */
    var registry: seq<CbInfo>
    /** The registry index of every _CB_Dispatch call, in order */
    ghost var fired: seq<int>

    ghost predicate Valid()
      reads this, slots
    {
      slots.Length == MaxTimers && |registry| == MaxTimers && Unique(registry) && SlotsIndexed(slots[..])
    }

    /** Static storage: every slot zeroed and disabled, every entry free. */
    constructor ()
      ensures Valid() && fresh(slots) && fired == []
      ensures forall i :: 0 <= i < MaxTimers ==> slots[i] == TmrObj(0, 0, 0, false) && registry[i] == Empty
    {
      slots := new TmrObj[MaxTimers](_ => TmrObj(0, 0, 0, false));
      registry := seq(MaxTimers, _ => Empty);
      fired := [];
    }

    /** The search loop of TMR_Start (lines 41-56). */
    method ArmMatching(cbFunc: FuncPtr, cbDispatchFunc: FuncPtr, timeout: DWord, expireTime: DWord)
      returns (found: bool)
      requires Valid()
      modifies slots
      ensures Valid()
      ensures found <==> Registered(cbFunc, cbDispatchFunc) in registry
      ensures slots[..] == Arm(old(slots[..]), registry, cbFunc, cbDispatchFunc, timeout, expireTime)
    {
      found := false;
      for idx := 0 to MaxTimers
        invariant Registered(cbFunc, cbDispatchFunc) !in registry[..idx]
        invariant slots[..] == old(slots[..])
        invariant !found
      {
        if registry[idx] == Registered(cbFunc, cbDispatchFunc) {
          FindFirst(registry, Registered(cbFunc, cbDispatchFunc), idx);
          slots[idx] := TmrObj(idx, timeout, expireTime, true);
          found := true;
          break;
        }
      }
      assert registry[..MaxTimers] == registry;
    }

    /** The search loop of TMR_Stop (lines 71-82). */
    method DisarmMatching(cbFunc: FuncPtr, cbDispatchFunc: FuncPtr)
      requires Valid()
      modifies slots
      ensures Valid()
      ensures slots[..] == Disarm(old(slots[..]), registry, cbFunc, cbDispatchFunc)
    {
      for idx := 0 to MaxTimers
        invariant Registered(cbFunc, cbDispatchFunc) !in registry[..idx]
        invariant slots[..] == old(slots[..])
      {
        if registry[idx] == Registered(cbFunc, cbDispatchFunc) {
          FindFirst(registry, Registered(cbFunc, cbDispatchFunc), idx);
          slots[idx] := slots[idx].(enabled := false);
          break;
        }
      }
      assert registry[..MaxTimers] == registry;
    }

    /**
     * TMR_Start as written: register, then arm the matching slot with
     * expireTime = timeout. The slot's previous contents, enabled or not, are
     * overwritten.
     */
    method Start(cbFunc: FuncPtr, cbDispatchFunc: FuncPtr, timeout: DWord) returns (success: bool)
      requires Valid()
      modifies this, slots
      ensures Valid() && fired == old(fired)
      ensures registry == Register(old(registry), cbFunc, cbDispatchFunc).entries
      ensures success == Register(old(registry), cbFunc, cbDispatchFunc).ok
      ensures success ==> Find(registry, Registered(cbFunc, cbDispatchFunc)) == Find(old(registry), Empty)
      ensures slots[..] == if success then Arm(old(slots[..]), registry, cbFunc, cbDispatchFunc, timeout, timeout)
                           else old(slots[..])
    {
      var registration := Register(registry, cbFunc, cbDispatchFunc);
      RegisterKeepsUnique(registry, cbFunc, cbDispatchFunc);
      if registration.ok {
        RegisterFillsFirstFree(registry, cbFunc, cbDispatchFunc);
      }
      registry := registration.entries;
      success := false;
      if registration.ok {
        success := ArmMatching(cbFunc, cbDispatchFunc, timeout, timeout);
      }
    }

    /**
     * TMR_Stop as written: unregister first, then disarm the slot whose entry
     * still matches the pair afterwards.
     */
    method Stop(cbFunc: FuncPtr, cbDispatchFunc: FuncPtr)
      requires Valid()
      modifies this, slots
      ensures Valid() && fired == old(fired)
      ensures registry == Unregister(old(registry), cbFunc, cbDispatchFunc)
      ensures slots[..] == Disarm(old(slots[..]), registry, cbFunc, cbDispatchFunc)
    {
      UnregisterKeepsUnique(registry, cbFunc, cbDispatchFunc);
      registry := Unregister(registry, cbFunc, cbDispatchFunc);
      DisarmMatching(cbFunc, cbDispatchFunc);
    }

    /** TMR_Start with the period measured from the tick at which it is called. */
    method StartCorrected(cbFunc: FuncPtr, cbDispatchFunc: FuncPtr, timeout: DWord, now: DWord)
      returns (success: bool)
      requires Valid()
      modifies this, slots
      ensures Valid() && fired == old(fired)
      ensures registry == Register(old(registry), cbFunc, cbDispatchFunc).entries
      ensures success == Register(old(registry), cbFunc, cbDispatchFunc).ok
      ensures success ==> Find(registry, Registered(cbFunc, cbDispatchFunc)) == Find(old(registry), Empty)
      ensures slots[..] == if success then Arm(old(slots[..]), registry, cbFunc, cbDispatchFunc, timeout, now)
                           else old(slots[..])
    {
      var registration := Register(registry, cbFunc, cbDispatchFunc);
      RegisterKeepsUnique(registry, cbFunc, cbDispatchFunc);
      if registration.ok {
        RegisterFillsFirstFree(registry, cbFunc, cbDispatchFunc);
      }
      registry := registration.entries;
      success := false;
      if registration.ok {
        success := ArmMatching(cbFunc, cbDispatchFunc, timeout, now);
      }
    }

    /** TMR_Stop with the slot disarmed before the pair is unregistered. */
    method StopCorrected(cbFunc: FuncPtr, cbDispatchFunc: FuncPtr)
      requires Valid()
      modifies this, slots
      ensures Valid() && fired == old(fired)
      ensures registry == Unregister(old(registry), cbFunc, cbDispatchFunc)
      ensures slots[..] == Disarm(old(slots[..]), old(registry), cbFunc, cbDispatchFunc)
    {
      DisarmMatching(cbFunc, cbDispatchFunc);
      UnregisterKeepsUnique(registry, cbFunc, cbDispatchFunc);
      registry := Unregister(registry, cbFunc, cbDispatchFunc);
    }

    /** TMR_CheckExpired on slot idx. */
    method CheckExpired(idx: nat, now: DWord)
      requires Valid() && idx < MaxTimers
      modifies this, slots
      ensures Valid() && registry == old(registry)
      ensures slots[..] == old(slots[..])[idx := Expire(old(slots[idx]), now).slot]
      ensures fired == old(fired) + (if Expire(old(slots[idx]), now).dispatch then [old(slots[idx]).cbIdx] else [])
    {
      var timer := slots[idx];
      if !timer.enabled {
        return;
      }
      if Difference(timer.expireTime, now) < timer.timeout {
        return;
      }
      slots[idx] := slots[idx].(expireTime := Add(slots[idx].expireTime, slots[idx].timeout));
      if Difference(slots[idx].expireTime, now) > slots[idx].timeout {
        slots[idx] := slots[idx].(expireTime := now);
      }
      assert slots[idx].cbIdx < MaxTimers;
      fired := fired + [slots[idx].cbIdx];
    }

    /** TMR_ProcessTimers: one scan over every slot, in index order. */
    method ProcessTimers(now: DWord)
      requires Valid()
      modifies this, slots
      ensures Valid() && registry == old(registry)
      ensures slots[..] == Scanned(old(slots[..]), now)
      ensures fired == old(fired) + Dispatched(old(slots[..]), now)
    {
      for idx := 0 to MaxTimers
        invariant Valid() && registry == old(registry)
        invariant forall k :: 0 <= k < idx ==> slots[k] == Scanned(old(slots[..]), now)[k]
        invariant forall k :: idx <= k < MaxTimers ==> slots[k] == old(slots[k])
        invariant fired == old(fired) + Dispatched(old(slots[..])[..idx], now)
      {
        ghost var before := old(slots[..]);
        assert slots[idx] == before[idx];
        CheckExpired(idx, now);
        assert before[..idx + 1][..idx] == before[..idx];
      }
      assert old(slots[..])[..MaxTimers] == old(slots[..]);
    }
  }
}
