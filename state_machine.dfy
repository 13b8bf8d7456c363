/**
 * The generic state-machine engine that the table-driven machines share. Its
 * implementation is not part of this model; its semantics here are:
 *  - an external event looks up the current state's entry in the event's
 *    transition map: EVENT_IGNORED does nothing, CANNOT_HAPPEN is fatal, a target
 *    state starts a hop;
 *  - a hop to a target first evaluates the target's guard, if declared; a false
 *    guard ends the event with state and data unchanged;
 *  - when the target differs from the current state, the current state's exit
 *    action and then the target's entry action run; a self-transition runs
 *    neither;
 *  - then the target becomes the current state and its state action runs; an
 *    internal event the action requested is a pending hop, carried out by the
 *    same rules once the action has returned.
 * Each action is a function from the instance data to the new instance data and
 * the effects it issued (timer, callback and event calls), in order.
 */
module StateMachine {
  import opened Wrappers

  /** One entry of an event's transition map. */
  datatype Transition<S> = EventIgnored | CannotHappen | Goto(target: S)

  /** What a state action leaves: new data, the internal event it requested, its effects. */
  datatype Action<S, D, X> = Action(data: D, internal: Option<S>, effects: seq<X>)

  /** What an entry or exit action leaves; these never request internal events. */
  datatype Update<D, X> = Update(data: D, effects: seq<X>)

  /** One row of a state map: state action, optional guard, entry and exit. */
  datatype StateMapEntry<S, !D, X> = StateMapEntry(
    state: D -> Action<S, D, X>,
    guard: Option<D -> bool>,
    entry: Option<D -> Update<D, X>>,
    exit: Option<D -> Update<D, X>>)

  /**
   * A machine: its state map and a rank on states that every internal event
   * must decrease, so that a chain of internal events ends.
   */
  datatype Machine<!S, !D, X> = Machine(stateMap: S -> StateMapEntry<S, D, X>, rank: S -> nat)

  /** One action the engine ran, for the observed action sequence. */
  datatype Step<S> = Guard(s: S, passed: bool) | Exit(s: S) | Entry(s: S) | State(s: S)

  /**
   * The end of one external event: the fatal CANNOT_HAPPEN path, an internal
   * event that does not decrease the rank (the engine would not return), or the
   * final state and data with the actions run and the effects issued.
   */
  datatype Outcome<S, D, X> =
    | Fatal
    | Diverged
    | Done(state: S, data: D, trace: seq<Step<S>>, effects: seq<X>)

  function RunOptional<D, X>(action: Option<D -> Update<D, X>>, data: D): Update<D, X>
  {
    match action
    case None => Update(data, [])
    case Some(f) => f(data)
  }

  /** The actions one hop from `current` to `next` runs before the state action's internal event. */
  function HopSteps<S(==), D, X>(m: Machine<S, D, X>, current: S, next: S): seq<Step<S>>
  {
    var row := m.stateMap(next);
    (if row.guard.Some? then [Guard(next, true)] else [])
    + (if next != current && m.stateMap(current).exit.Some? then [Exit(current)] else [])
    + (if next != current && row.entry.Some? then [Entry(next)] else [])
    + [State(next)]
  }

  /** A hop from `current` to `next`, followed by every internal event it leads to. */
  function Run<S(==), D, X>(m: Machine<S, D, X>, current: S, data: D, next: S): (r: Outcome<S, D, X>)
    ensures !r.Fatal?
    decreases m.rank(next)
  {
    var row := m.stateMap(next);
    if row.guard.Some? && !row.guard.value(data) then
      Done(current, data, [Guard(next, false)], [])
    else
      var exit := if next != current then RunOptional(m.stateMap(current).exit, data) else Update(data, []);
      var entry := if next != current then RunOptional(row.entry, exit.data) else Update(exit.data, []);
      var action := row.state(entry.data);
      var steps := HopSteps(m, current, next);
      var effects := exit.effects + entry.effects + action.effects;
      match action.internal
      case None => Done(next, action.data, steps, effects)
      case Some(hop) =>
        if m.rank(hop) < m.rank(next) then
          var rest := Run(m, next, action.data, hop);
          if rest.Done? then Done(rest.state, rest.data, steps + rest.trace, effects + rest.effects) else rest
        else Diverged
  }

  /** An external event whose transition map gives `t` in state `current`. */
  function ExternalEvent<S(==), D, X>(m: Machine<S, D, X>, t: Transition<S>, current: S, data: D): (r: Outcome<S, D, X>)
    ensures r.Fatal? <==> t.CannotHappen?
    ensures t.EventIgnored? ==> r == Done(current, data, [], [])
  {
    match t
    case EventIgnored => Done(current, data, [], [])
    case CannotHappen => Fatal
    case Goto(next) => Run(m, current, data, next)
  }

  /** A guard that rejects ends the event with nothing changed and no action run but the guard. */
  lemma GuardRejects<S, D, X>(m: Machine<S, D, X>, current: S, data: D, next: S)
    requires m.stateMap(next).guard.Some? && !m.stateMap(next).guard.value(data)
    ensures ExternalEvent(m, Goto(next), current, data) == Done(current, data, [Guard(next, false)], [])
  {
  }

  /**
   * A self-transition runs neither exit nor entry: the first action after the
   * guard is the state action itself.
   */
  lemma SelfTransitionSkipsExitEntry<S, D, X>(m: Machine<S, D, X>, s: S, data: D)
    requires m.stateMap(s).guard.None?
    ensures var r := ExternalEvent(m, Goto(s), s, data);
      r.Done? ==> |r.trace| > 0 && r.trace[0] == State(s)
  {
  }

  /**
   * An internal event runs after the action that requested it: the actions and
   * effects of that hop come after the requesting action's, which run to the end.
   * Stated for a hop that runs no guard, exit or entry.
   */
  lemma InternalEventIsPending<S, D, X>(m: Machine<S, D, X>, current: S, data: D, next: S)
    requires var row := m.stateMap(next); row.guard.None? && row.state(data).internal.Some?
    requires current == next || (m.stateMap(current).exit.None? && m.stateMap(next).entry.None?)
    requires var hop := m.stateMap(next).state(data).internal.value; m.rank(hop) < m.rank(next)
    ensures var action := m.stateMap(next).state(data);
      var rest := Run(m, next, action.data, action.internal.value);
      rest.Done? ==>
        (Run(m, current, data, next) ==
           Done(rest.state, rest.data, [State(next)] + rest.trace, action.effects + rest.effects))
  {
    assert HopSteps(m, current, next) == [State(next)];
    var action := m.stateMap(next).state(data);
    assert [] + [] + action.effects == action.effects;
  }

  /** The elements of s that satisfy p, in their order in s: the effects of one kind an event issued. */
  function Filter<X>(p: X -> bool, s: seq<X>): (r: seq<X>)
    decreases |s|
  {
    if s == [] then []
    else (if p(s[0]) then [s[0]] else []) + Filter(p, s[1..])
  }

  /** Filtering a non-empty sequence looks at its first element, then filters the rest. */
  lemma FilterFirst<X>(p: X -> bool, s: seq<X>)
    requires s != []
    ensures Filter(p, s) == (if p(s[0]) then [s[0]] else []) + Filter(p, s[1..])
  {
  }

  /** Filter keeps exactly the elements that satisfy p, and no more of them than there are. */
  lemma {:induction false} FilterMembers<X>(p: X -> bool, s: seq<X>)
    ensures |Filter(p, s)| <= |s|
    ensures forall i :: 0 <= i < |Filter(p, s)| ==> Filter(p, s)[i] in s && p(Filter(p, s)[i])
    ensures forall i :: 0 <= i < |s| && p(s[i]) ==> s[i] in Filter(p, s)
    decreases |s|
  {
    if s != [] {
      FilterMembers(p, s[1..]);
      var head := if p(s[0]) then [s[0]] else [];
      assert Filter(p, s) == head + Filter(p, s[1..]);
      forall i | 0 <= i < |s| && p(s[i]) ensures s[i] in Filter(p, s) {
        if i > 0 {
          assert s[i] == s[1..][i - 1];
        }
      }
    }
  }

  /** Filtering distributes over the concatenation of the effects of successive actions. */
  lemma {:induction false} FilterAppend<X>(p: X -> bool, x: seq<X>, y: seq<X>)
    ensures Filter(p, x + y) == Filter(p, x) + Filter(p, y)
    decreases |x|
  {
    if x != [] {
      assert (x + y)[0] == x[0];
      assert (x + y)[1..] == x[1..] + y;
      FilterAppend(p, x[1..], y);
      var head := if p(x[0]) then [x[0]] else [];
      assert head + (Filter(p, x[1..]) + Filter(p, y)) == (head + Filter(p, x[1..])) + Filter(p, y);
    } else {
      assert x + y == y;
    }
  }
}
