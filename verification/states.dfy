/**
 * The generic finite-state machine of the player controller: states keep a
 * table of granted transitions; the machine registers one state per kind and
 * `SwitchState` is the single place where a transition is checked and made.
 *
 * Lifecycle hooks (`Enter`, `Service`, `Exit`) are recorded in the machine's
 * ghost `hooks` trace, in the order they are called. An `Exit` hook that itself
 * switches state is described by an exit plan: the `Exit` call at nesting depth
 * i performs `SwitchState` to kind `plan[i]` on the same machine, and the call
 * at depth |plan| performs none.
 */
module States {
  import opened Kinds
  import Grants

  /** What a call of `SwitchState` did; the C# `StateMachine` reports `Denied` only in its log. */
  datatype Outcome =
    | Committed        // the target became current and was entered
    | Denied           // strict mode found no grant for the target: nothing switched
    | Ignored          // the machine is disposed
    | Superseded       // the outgoing state's Exit switched again; that switch won
    | Failed(error: Error)

  /** One call of a lifecycle hook. */
  datatype Hook =
    | Entered(state: State, prev: State?)
    | Exited(state: State, next: State?)
    | Serviced(state: State)

  /** The machine's own fields, as a value. */
  datatype Machine = Machine(states: map<Kind, State>, current: State?, strict: bool, disposed: bool, count: int)

  /**
   * The effect of one switch: the machine afterwards, the grant table of the
   * state that was current when the switch began (only it can change), the
   * outcome and the hooks called, in order.
   */
  datatype Switched = Switched(m: Machine, grants: map<Kind, State>, outcome: Outcome, hooks: seq<Hook>)

  /** A table keyed by the kind of the state it holds, as a dictionary keyed by `GetType()` is. */
  predicate Keyed(t: map<Kind, State>)
  {
    forall k :: k in t ==> t[k].kind == k
  }

  /** A table keyed by kind holds at most one state of each kind. */
  lemma KeyedHoldsOnePerKind(t: map<Kind, State>, a: State, b: State)
    requires Keyed(t)
    requires a in t.Values && b in t.Values && a.kind == b.kind
    ensures a == b
  {
  }

  /** The lazy pass over a kind-keyed table of registered states keeps a grant table keyed by kind. */
  lemma ResolveKeyed(g: map<Kind, State>, ts: seq<Kind>, registered: map<Kind, State>)
    requires Keyed(g) && Keyed(registered)
    ensures Keyed(Grants.Resolve(g, ts, registered))
  {
  }

  /** The grant table of the current state after the lazy pass over its declared successors. */
  function Lazy(m: Machine, g: map<Kind, State>): (r: map<Kind, State>)
    requires m.current != null
    ensures m.current.transitions.None? ==> r == g
    ensures forall k :: k in g ==> k in r && r[k] == g[k]
    ensures m.current.transitions.Some? ==> forall k :: k in m.current.transitions.value && k in m.states ==> k in r
    ensures forall k :: k in r && k !in g ==>
      m.current.transitions.Some? && k in m.current.transitions.value && k in m.states && r[k] == m.states[k]
  {
    match m.current.transitions
    case None => g
    case Some(ts) => Grants.Resolve(g, ts, m.states)
  }

  /**
   * `SwitchState(target)` on machine `m` whose current state has grant table
   * `g`, when the exit hooks follow `plan`.
   */
  function Switch(m: Machine, g: map<Kind, State>, target: State, plan: seq<Kind>): (r: Switched)
    ensures r.m.states == m.states && r.m.strict == m.strict && r.m.disposed == m.disposed
    ensures r.m.count >= m.count
    ensures r.m.current == m.current || r.m.current in m.states.Values
    ensures r.outcome == Committed ==> r.m.current == target
    ensures r.outcome.Denied? || r.outcome.Ignored? ==> r.m == m && r.hooks == []
    decreases |plan|, 2
  {
    if m.disposed then Switched(m, g, Ignored, [])
    else if target !in m.states.Values then Switched(m, g, Failed(StateNotFound), [])
    else
      var checking := m.strict && m.current != null && target !in g.Values;
      var g1 := if checking then Lazy(m, g) else g;
      if checking && target !in g1.Values then Switched(m, g1, Denied, [])
      else SwitchCommit(m.(count := m.count + 1), g1, target, plan)
  }

  /**
   * The committing half of `SwitchState`, once the switch counter has been
   * incremented: exit the current state (whose exit hook may switch again),
   * then, unless that nested switch moved the counter or threw, make `target`
   * current and enter it.
   */
  function SwitchCommit(m: Machine, g: map<Kind, State>, target: State, plan: seq<Kind>): (r: Switched)
    requires target in m.states.Values
    ensures r.m.states == m.states && r.m.strict == m.strict && r.m.disposed == m.disposed
    ensures r.m.count >= m.count
    ensures r.m.current == m.current || r.m.current in m.states.Values
    ensures r.outcome == Committed ==> r.m.current == target
    ensures !r.outcome.Denied? && !r.outcome.Ignored?
    decreases |plan|, 1
  {
    if m.current == null then
      Switched(m.(current := target), g, Committed, [Entered(target, null)])
    else
      var e := Leave(m, g, target, plan);
      if e.outcome.Failed? then e
      else if e.m.count != m.count then e.(outcome := Superseded)
      else Switched(e.m.(current := target), e.grants, Committed, e.hooks + [Entered(target, m.current)])
  }

  /**
   * `m.current.Exit(target)`: when the plan is not empty the hook switches
   * again, to kind `plan[0]`, and the outcome is that switch's; an exit that
   * does not switch has outcome `Committed` and changes nothing.
   */
  function Leave(m: Machine, g: map<Kind, State>, target: State, plan: seq<Kind>): (r: Switched)
    requires m.current != null
    ensures r.m.states == m.states && r.m.strict == m.strict && r.m.disposed == m.disposed
    ensures r.m.count >= m.count
    ensures r.m.current == m.current || r.m.current in m.states.Values
    ensures plan == [] ==> r == Switched(m, g, Committed, [Exited(m.current, target)])
    decreases |plan|, 0
  {
    var exit := [Exited(m.current, target)];
    if plan == [] then Switched(m, g, Committed, exit)
    else
      var n := SwitchByKind(m, g, plan[0], plan[1..]);
      Switched(n.m, n.grants, n.outcome, exit + n.hooks)
  }

  /** `SwitchState(kind)`: the lookup by kind throws for an unregistered kind, even on a disposed machine. */
  function SwitchByKind(m: Machine, g: map<Kind, State>, k: Kind, plan: seq<Kind>): (r: Switched)
    ensures r.m.states == m.states && r.m.strict == m.strict && r.m.disposed == m.disposed
    ensures r.m.count >= m.count
    ensures r.m.current == m.current || r.m.current in m.states.Values
    ensures k !in m.states ==> r.outcome == Failed(StateNotFound) && r.m == m && r.hooks == []
    ensures r.outcome.Denied? || r.outcome.Ignored? ==> r.m == m && r.hooks == []
    decreases |plan|, 3
  {
    if k !in m.states then Switched(m, g, Failed(StateNotFound), [])
    else Switch(m, g, m.states[k], plan)
  }

  /**
   * A switch leaves the grant table of the state that was current keyed by
   * kind, whatever its exit hooks do: only the lazy pass writes to it.
   */
  lemma {:induction false} SwitchKeepsKeyed(m: Machine, g: map<Kind, State>, target: State, plan: seq<Kind>)
    requires Keyed(g) && Keyed(m.states)
    ensures Keyed(Switch(m, g, target, plan).grants)
    decreases |plan|, 1
  {
    if !m.disposed && target in m.states.Values {
      var checking := m.strict && m.current != null && target !in g.Values;
      var g1 := if checking then Lazy(m, g) else g;
      if checking && m.current.transitions.Some? {
        ResolveKeyed(g, m.current.transitions.value, m.states);
      }
      if !(checking && target !in g1.Values) {
        SwitchCommitKeepsKeyed(m.(count := m.count + 1), g1, target, plan);
      }
    }
  }

  lemma {:induction false} SwitchCommitKeepsKeyed(m: Machine, g: map<Kind, State>, target: State, plan: seq<Kind>)
    requires target in m.states.Values
    requires Keyed(g) && Keyed(m.states)
    ensures Keyed(SwitchCommit(m, g, target, plan).grants)
    decreases |plan|, 0
  {
    if m.current != null && plan != [] {
      SwitchByKindKeepsKeyed(m, g, plan[0], plan[1..]);
    }
  }

  lemma {:induction false} SwitchByKindKeepsKeyed(m: Machine, g: map<Kind, State>, k: Kind, plan: seq<Kind>)
    requires Keyed(g) && Keyed(m.states)
    ensures Keyed(SwitchByKind(m, g, k, plan).grants)
    decreases |plan|, 2
  {
    if k in m.states {
      SwitchKeepsKeyed(m, g, m.states[k], plan);
    }
  }

  class State {
    /** The concrete class of this state. */
    const kind: Kind
    /** The successor kinds this state declares; `None` is a null array. */
    const transitions: Option<seq<Kind>>
    var parent: StateMachine?
    /** Granted transitions, keyed by the kind of the state they lead to. */
    var granted: map<Kind, State>

    ghost predicate Valid()
      reads this
    {
      Keyed(granted)
    }

    constructor (kind: Kind)
      ensures this.kind == kind && transitions == Declared(kind)
      ensures parent == null && granted == map[] && Valid()
    {
      this.kind := kind;
      this.transitions := Declared(kind);
      parent := null;
      granted := map[];
    }

    /** The default hooks do nothing. */
    method Enter(prev: State?)
      ensures unchanged(this)
    {
    }

    method Service()
      ensures unchanged(this)
    {
    }

    method Exit(next: State?)
      ensures unchanged(this)
    {
    }

    /** Whether a transition to kind `k` is granted. */
    predicate HasTransitionKind(k: Kind): (b: bool)
      reads this
      ensures Valid() ==> (b <==> exists s :: s in granted.Values && s.kind == k)
    {
      k in granted
    }

    /** Whether a transition to the very instance `s` is granted. */
    predicate HasTransition(s: State): (b: bool)
      reads this
      ensures Valid() ==> (b <==> s.kind in granted && granted[s.kind] == s)
      ensures Valid() && b ==> HasTransitionKind(s.kind)
    {
      s in granted.Values
    }

    /** Grants the transition to `s`, under its kind; returns the receiver so calls can be chained. */
    method AddTransition(s: State) returns (r: Result<State>)
      modifies this`granted
      ensures old(Valid()) ==> Valid()
      ensures s.kind in old(granted) ==> r == Err(DuplicateTransition) && granted == old(granted)
      ensures s.kind !in old(granted) ==> r == Ok(this) && granted == old(granted)[s.kind := s]
      ensures s.kind !in old(granted) ==> HasTransitionKind(s.kind) && HasTransition(s)
    {
      if HasTransitionKind(s.kind) {
        return Err(DuplicateTransition);
      }
      granted := granted[s.kind := s];
      return Ok(this);
    }
  }

  class StateMachine {
    var current: State?
    var strict: bool
    var switchCount: int
    var states: map<Kind, State>
    var disposed: bool
    /** Every lifecycle hook this machine has called, in order. */
    ghost var hooks: seq<Hook>

    ghost predicate Valid()
      reads this
    {
      Keyed(states) && (current != null ==> current in states.Values)
    }

    function Snapshot(): Machine
      reads this
    {
      Machine(states, current, strict, disposed, switchCount)
    }

    /** The current state, as a (possibly empty) set of objects. */
    function Current(): set<State>
      reads this
    {
      if current == null then {} else {current}
    }

    function CurrentGrants(): map<Kind, State>
      reads this, current
    {
      if current == null then map[] else current.granted
    }

    constructor ()
      ensures Valid() && Snapshot() == Machine(map[], null, false, false, 0) && hooks == []
    {
      current := null;
      strict := false;
      switchCount := 0;
      states := map[];
      disposed := false;
      hooks := [];
    }

    /** Marks the machine disposed and exits the current state towards no successor. */
    method Dispose()
      requires Valid()
      modifies this
      ensures Valid() && disposed && current == null
      ensures states == old(states) && strict == old(strict) && switchCount == old(switchCount)
      ensures hooks == old(hooks) + if old(current) == null then [] else [Exited(old(current), null)]
    {
      disposed := true;
      if current != null {
        hooks := hooks + [Exited(current, null)];
        current.Exit(null);
        current := null;
      }
    }

    /** Registers `s` under its kind and makes this machine its parent. */
    method Add(s: State) returns (r: Result<StateMachine>)
      requires Valid()
      modifies this`states, s`parent
      ensures Valid()
      ensures s.kind in old(states) ==> r == Err(DuplicateState) && states == old(states) && s.parent == old(s.parent)
      ensures s.kind !in old(states) ==> r == Ok(this) && states == old(states)[s.kind := s] && s.parent == this
    {
      if s.kind in states {
        return Err(DuplicateState);
      }
      s.parent := this;
      ghost var before := states;
      states := states[s.kind := s];
      assert current != null ==> exists k :: k in before && k != s.kind && states[k] == current;
      return Ok(this);
    }

    /** `AddTransition<TF, T>()`: finds the registered states of both kinds among the table's values. */
    method AddTransitionOf(from: Kind, to: Kind) returns (r: Result<StateMachine>)
      requires Valid()
      modifies (if from in states then {states[from]} else {})`granted
      ensures from !in states || to !in states ==> r == Err(StateNotFound)
      ensures from in states && to !in states ==> states[from].granted == old(states[from].granted)
      ensures from in states && to in states && to in old(states[from].granted) ==>
        r == Err(DuplicateTransition) && states[from].granted == old(states[from].granted)
      ensures from in states && to in states && to !in old(states[from].granted) ==>
        r == Ok(this) && states[from].granted == old(states[from].granted)[to := states[to]]
    {
      if !(exists s :: s in states.Values && s.kind == from) {
        return Err(StateNotFound);
      }
      var f :| f in states.Values && f.kind == from;
      if !(exists s :: s in states.Values && s.kind == to) {
        return Err(StateNotFound);
      }
      var t :| t in states.Values && t.kind == to;
      KeyedHoldsOnePerKind(states, f, states[from]);
      r := AddTransitionKinds(f.kind, t.kind);
    }

    /** `AddTransition(Type, Type)`: grants `from` the transition to the state registered as `to`. */
    method AddTransitionKinds(from: Kind, to: Kind) returns (r: Result<StateMachine>)
      requires Valid()
      modifies (if from in states then {states[from]} else {})`granted
      ensures from !in states || to !in states ==> r == Err(StateNotFound)
      ensures from in states && to !in states ==> states[from].granted == old(states[from].granted)
      ensures from in states && to in states && to in old(states[from].granted) ==>
        r == Err(DuplicateTransition) && states[from].granted == old(states[from].granted)
      ensures from in states && to in states && to !in old(states[from].granted) ==>
        r == Ok(this) && states[from].granted == old(states[from].granted)[to := states[to]]
    {
      if from !in states {
        return Err(StateNotFound);
      }
      var fromState := states[from];
      if to !in states {
        return Err(StateNotFound);
      }
      var toState := states[to];
      var added := fromState.AddTransition(toState);
      if added.Err? {
        return Err(added.error);
      }
      return Ok(this);
    }

    /**
     * `AddTransition(State, State)`: registers whichever endpoint is not yet
     * registered (as an instance), then grants `from` the transition to `to`.
     * A failed registration of `to` leaves `from` registered.
     */
    method AddTransitionStates(from: State, to: State) returns (r: Result<StateMachine>)
      requires Valid()
      modifies this`states, from, to`parent
      ensures Valid()
      ensures Registered(old(states), from).Err? ==>
        r == Err(DuplicateState) && states == old(states) && unchanged(from) && to.parent == old(to.parent)
      ensures Registered(old(states), from).Ok? && Registered(Registered(old(states), from).value, to).Err? ==>
        r == Err(DuplicateState) && states == Registered(old(states), from).value
        && from.granted == old(from.granted) && to.parent == old(to.parent)
      ensures Registered(old(states), from).Ok? && Registered(Registered(old(states), from).value, to).Ok? ==>
        states == Registered(Registered(old(states), from).value, to).value
        && (to.kind in old(from.granted) ==> r == Err(DuplicateTransition) && from.granted == old(from.granted))
        && (to.kind !in old(from.granted) ==> r == Ok(this) && from.granted == old(from.granted)[to.kind := to])
      ensures from in states.Values ==> from.parent == if from in old(states).Values then old(from.parent) else this
      ensures to in states.Values ==> to.parent == if to in old(states).Values then old(to.parent) else this
    {
      if from !in states.Values {
        var added := Add(from);
        if added.Err? {
          return Err(added.error);
        }
      }
      if to !in states.Values {
        var added := Add(to);
        if added.Err? {
          return Err(added.error);
        }
      }
      var granted := from.AddTransition(to);
      if granted.Err? {
        return Err(granted.error);
      }
      return Ok(this);
    }

    method SetStrict(strict: bool) returns (r: StateMachine)
      modifies this`strict
      ensures this.strict == strict && r == this
    {
      this.strict := strict;
      return this;
    }

    /** Exits the current state towards no successor and empties the table. */
    method ClearStates() returns (r: StateMachine)
      modifies this
      ensures Valid() && r == this
      ensures states == map[] && current == null
      ensures strict == old(strict) && disposed == old(disposed) && switchCount == old(switchCount)
      ensures hooks == old(hooks) + if old(current) == null then [] else [Exited(old(current), null)]
    {
      if current != null {
        hooks := hooks + [Exited(current, null)];
        current.Exit(null);
        current := null;
      }
      states := map[];
      return this;
    }

    /** Services the current state, if there is one. */
    method Service()
      modifies this`hooks
      ensures hooks == old(hooks) + if current == null then [] else [Serviced(current)]
    {
      if current != null {
        hooks := hooks + [Serviced(current)];
        current.Service();
      }
    }

    /** `SwitchState<T>()` and `SwitchState(Type)`: looks the kind up, then switches to its state. */
    method SwitchKind(k: Kind, exitPlan: seq<Kind>) returns (o: Outcome)
      requires Valid()
      modifies this, Current()`granted
      decreases |exitPlan|, 3
      ensures Valid()
      ensures var r := SwitchByKind(old(Snapshot()), old(CurrentGrants()), k, exitPlan);
        Snapshot() == r.m && o == r.outcome && hooks == old(hooks) + r.hooks
        && (old(current) != null ==> old(current).granted == r.grants)
      ensures old(current) != null && old(current.Valid()) ==> old(current).Valid()
    {
      if current != null && current.Valid() {
        SwitchByKindKeepsKeyed(Snapshot(), current.granted, k, exitPlan);
      }
      if k !in states {
        return Failed(StateNotFound);
      }
      o := SwitchState(states[k], exitPlan);
    }

    /** `SwitchState(State)`: the single place where a transition is checked and made. */
    method SwitchState(target: State, exitPlan: seq<Kind>) returns (o: Outcome)
      requires Valid()
      modifies this, Current()`granted
      decreases |exitPlan|, 2
      ensures Valid()
      ensures var r := Switch(old(Snapshot()), old(CurrentGrants()), target, exitPlan);
        Snapshot() == r.m && o == r.outcome && hooks == old(hooks) + r.hooks
        && (old(current) != null ==> old(current).granted == r.grants)
      ensures old(current) != null && old(current.Valid()) ==> old(current).Valid()
    {
      if current != null && current.Valid() {
        SwitchKeepsKeyed(Snapshot(), current.granted, target, exitPlan);
      }
      if disposed {
        return Ignored;
      }
      if target !in states.Values {
        return Failed(StateNotFound);
      }
      if strict && current != null && !current.HasTransition(target) {
        UpdateTransitions(current);
        if !current.HasTransition(target) {
          return Denied;
        }
      }
      o := Commit(target, exitPlan);
    }

    /** The committing half of `SwitchState`, after the transition check has passed. */
    method Commit(target: State, exitPlan: seq<Kind>) returns (o: Outcome)
      requires Valid() && target in states.Values
      modifies this, Current()`granted
      decreases |exitPlan|, 1
      ensures Valid()
      ensures var r := SwitchCommit(old(Snapshot()).(count := old(switchCount) + 1), old(CurrentGrants()), target, exitPlan);
        Snapshot() == r.m && o == r.outcome && hooks == old(hooks) + r.hooks
        && (old(current) != null ==> old(current).granted == r.grants)
      ensures old(current) != null && old(current.Valid()) ==> old(current).Valid()
    {
      switchCount := switchCount + 1;
      var count := switchCount;
      var prev := current;
      if prev != null {
        var nested := ExitCurrent(target, exitPlan);
        if nested.Failed? {
          return nested;
        }
      }
      if switchCount != count {
        return Superseded;
      }
      current := target;
      hooks := hooks + [Entered(target, prev)];
      target.Enter(prev);
      return Committed;
    }

    /**
     * Calls `Exit(target)` on the current state; when the exit plan is not
     * empty, that hook switches again, through this same machine.
     */
    method ExitCurrent(target: State, exitPlan: seq<Kind>) returns (nested: Outcome)
      requires Valid() && current != null
      modifies this, Current()`granted
      decreases |exitPlan|, 0
      ensures Valid()
      ensures var e := Leave(old(Snapshot()), old(current.granted), target, exitPlan);
        Snapshot() == e.m && nested == e.outcome && hooks == old(hooks) + e.hooks && old(current).granted == e.grants
      ensures old(current.Valid()) ==> old(current).Valid()
    {
      var prev := current;
      hooks := hooks + [Exited(prev, target)];
      prev.Exit(target);
      if exitPlan == [] {
        return Committed;
      }
      nested := SwitchKind(exitPlan[0], exitPlan[1..]);
    }

    /** The lazy pass: grants `s` every declared successor kind that is registered and not yet granted. */
    method UpdateTransitions(s: State)
      requires Keyed(states)
      modifies s`granted
      ensures old(s.Valid()) ==> s.Valid()
      ensures s.granted == match s.transitions
        case None => old(s.granted)
        case Some(ts) => Grants.Resolve(old(s.granted), ts, states)
    {
      if s.transitions.None? {
        return;
      }
      var ts := s.transitions.value;
      for i := 0 to |ts|
        invariant Grants.Resolve(s.granted, ts[i..], states) == Grants.Resolve(old(s.granted), ts, states)
      {
        var t := ts[i];
        assert ts[i..][0] == t && ts[i..][1..] == ts[i + 1..];
        if !s.HasTransitionKind(t) && t in states {
          var other := states[t];
          var _ := s.AddTransition(other);
        }
      }
      if old(s.Valid()) {
        ResolveKeyed(old(s.granted), ts, states);
      }
    }
  }

  /** The table after the instance overload of `AddTransition` has made sure `s` is registered. */
  function Registered(t: map<Kind, State>, s: State): (r: Result<map<Kind, State>>)
    ensures r.Err? <==> s !in t.Values && s.kind in t
    ensures r.Err? ==> r.error == DuplicateState
    ensures r.Ok? ==> s in r.value.Values && r.value.Keys <= t.Keys + {s.kind}
    ensures r.Ok? ==> forall k :: k in t ==> k in r.value && r.value[k] == t[k]
  {
    if s in t.Values then Ok(t)
    else if s.kind in t then Err(DuplicateState)
    else
      var u := t[s.kind := s];
      assert u[s.kind] == s;
      Ok(u)
  }
}
