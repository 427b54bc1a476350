/**
 * Properties of `SwitchState`, stated on its value-level description
 * `States.Switch`: the order of the lifecycle hooks (one enter at most, after
 * every exit, on the state that ends up current), when strict mode denies a
 * switch, what the lazy pass grants, and how a switch made from inside `Exit`
 * wins over the switch that called it.
 */
module SwitchLemmas {
  import opened Kinds
  import opened States
  import Grants

  /** A switch "won" when some target was made current and entered. */
  predicate Won(o: Outcome)
  {
    o == Committed || o == Superseded
  }

  /** Every hook in `hs` is an exit of `prev`. */
  predicate AllExits(hs: seq<Hook>, prev: State?)
  {
    forall i :: 0 <= i < |hs| ==> hs[i].Exited? && hs[i].state == prev
  }

  /**
   * The hooks of one switch begun from current state `prev`: exits of `prev`
   * only, then, when the switch won, exactly one enter (the last hook) of the
   * state that ended up current, told that it comes from `prev`.
   */
  predicate LifecycleOrdered(r: Switched, m: Machine)
  {
    && (Won(r.outcome) ==>
          && r.m.current != null
          && |r.hooks| > 0
          && r.hooks[|r.hooks| - 1] == Entered(r.m.current, m.current)
          && AllExits(r.hooks[..|r.hooks| - 1], m.current))
    && (!Won(r.outcome) ==> AllExits(r.hooks, m.current) && r.m.current == m.current)
  }

  lemma {:induction false} SwitchLifecycle(m: Machine, g: map<Kind, State>, target: State, plan: seq<Kind>)
    ensures LifecycleOrdered(Switch(m, g, target, plan), m)
    ensures Won(Switch(m, g, target, plan).outcome) ==> Switch(m, g, target, plan).m.count > m.count
    decreases |plan|, 2
  {
    if !m.disposed && target in m.states.Values {
      var checking := m.strict && m.current != null && target !in g.Values;
      var g1 := if checking then Lazy(m, g) else g;
      if !(checking && target !in g1.Values) {
        CommitLifecycle(m.(count := m.count + 1), g1, target, plan);
      }
    }
  }

  lemma {:induction false} CommitLifecycle(m: Machine, g: map<Kind, State>, target: State, plan: seq<Kind>)
    requires target in m.states.Values
    ensures LifecycleOrdered(SwitchCommit(m, g, target, plan), m)
    decreases |plan|, 1
  {
    if m.current != null {
      var r := SwitchCommit(m, g, target, plan);
      var e := Leave(m, g, target, plan);
      LeaveLifecycle(m, g, target, plan);
      if !e.outcome.Failed? && e.m.count == m.count {
        assert r.hooks == e.hooks + [Entered(target, m.current)];
        assert r.hooks[..|r.hooks| - 1] == e.hooks;
      }
    }
  }

  /**
   * The exit of the outgoing state: exits of it only, except that a nested
   * switch which won (it moved the counter) ends with its one enter.
   */
  lemma {:induction false} LeaveLifecycle(m: Machine, g: map<Kind, State>, target: State, plan: seq<Kind>)
    requires m.current != null
    ensures var e := Leave(m, g, target, plan);
      && (!e.outcome.Failed? && e.m.count != m.count ==>
            && Won(e.outcome)
            && e.m.current != null
            && |e.hooks| > 0
            && e.hooks[|e.hooks| - 1] == Entered(e.m.current, m.current)
            && AllExits(e.hooks[..|e.hooks| - 1], m.current))
      && (e.outcome.Failed? || e.m.count == m.count ==> AllExits(e.hooks, m.current) && e.m.current == m.current)
    decreases |plan|, 0
  {
    if plan != [] {
      var exit := [Exited(m.current, target)];
      var n := SwitchByKind(m, g, plan[0], plan[1..]);
      var e := Leave(m, g, target, plan);
      assert e == Switched(n.m, n.grants, n.outcome, exit + n.hooks);
      if plan[0] in m.states {
        SwitchLifecycle(m, g, m.states[plan[0]], plan[1..]);
      }
      assert LifecycleOrdered(n, m) && (Won(n.outcome) ==> n.m.count > m.count);
      if n.outcome.Failed? || n.m.count == m.count {
        AllExitsAppend(exit, n.hooks, m.current);
      } else {
        var last := |n.hooks| - 1;
        assert e.hooks[..|e.hooks| - 1] == exit + n.hooks[..last];
        AllExitsAppend(exit, n.hooks[..last], m.current);
      }
    }
  }

  lemma AllExitsAppend(a: seq<Hook>, b: seq<Hook>, prev: State?)
    requires AllExits(a, prev) && AllExits(b, prev)
    ensures AllExits(a + b, prev)
  {
  }

  /**
   * In strict mode, with a current state, a registered target is denied
   * exactly when the lazy pass over the current state's declared successors
   * still leaves it ungranted; a denial changes nothing but that pass.
   */
  lemma DeniedExactlyWhenLazyPassMisses(m: Machine, g: map<Kind, State>, target: State, plan: seq<Kind>)
    requires !m.disposed && m.strict && m.current != null && target in m.states.Values
    ensures Switch(m, g, target, plan).outcome == Denied <==> target !in Lazy(m, g).Values
    ensures Switch(m, g, target, plan).outcome == Denied ==>
      Switch(m, g, target, plan) == Switched(m, Lazy(m, g), Denied, [])
  {
  }

  /**
   * The first strict switch to a declared, registered successor goes through:
   * the lazy pass grants it, and it commits with one exit and one enter.
   */
  lemma LazyPassAdmitsDeclaredSuccessor(m: Machine, g: map<Kind, State>, target: State)
    requires !m.disposed && m.strict && m.current != null
    requires m.current.transitions.Some? && target.kind in m.current.transitions.value
    requires target.kind in m.states && m.states[target.kind] == target
    requires Keyed(g) && target.kind !in g
    ensures var r := Switch(m, g, target, []);
      && r.outcome == Committed
      && r.m == m.(current := target, count := m.count + 1)
      && r.grants == Lazy(m, g) && r.grants[target.kind] == target
      && r.hooks == [Exited(m.current, target), Entered(target, m.current)]
  {
  }

  /**
   * A current state whose declared successors are null can never leave in
   * strict mode for a target it has not been granted: the lazy pass grants
   * nothing and the switch is denied with no change at all.
   */
  lemma NullTransitionsDenyEverything(m: Machine, g: map<Kind, State>, target: State, plan: seq<Kind>)
    requires !m.disposed && m.strict && m.current != null && m.current.transitions.None?
    requires target in m.states.Values && target !in g.Values
    ensures Switch(m, g, target, plan) == Switched(m, g, Denied, [])
  {
  }

  /**
   * Grants are checked per instance: when the current state's grant for the
   * target's kind holds another instance of that kind, the lazy pass skips the
   * kind as already granted, and the switch is denied.
   */
  lemma StaleGrantDenies(m: Machine, g: map<Kind, State>, target: State, plan: seq<Kind>)
    requires !m.disposed && m.strict && m.current != null && target in m.states.Values
    requires Keyed(g) && Keyed(m.states)
    requires target.kind in g && g[target.kind] != target
    ensures Switch(m, g, target, plan) == Switched(m, Lazy(m, g), Denied, [])
  {
  }

  /**
   * A switch whose exit hook does not switch again, and which is not denied,
   * calls `prev.Exit(target)` once, then makes the target current and calls
   * `target.Enter(prev)` once. Without strict mode every registered target is
   * admitted, the current state itself included.
   */
  lemma PlainSwitchExitsThenEnters(m: Machine, g: map<Kind, State>, target: State)
    requires !m.disposed && target in m.states.Values
    requires !m.strict || m.current == null || target in g.Values || target in Lazy(m, g).Values
    ensures var r := Switch(m, g, target, []);
      && r.outcome == Committed
      && r.m == m.(current := target, count := m.count + 1)
      && r.hooks == (if m.current == null then [] else [Exited(m.current, target)]) + [Entered(target, m.current)]
  {
  }

  /**
   * When the outgoing state's `Exit` switches to kind `c`, and both the outer
   * and the nested switch are admitted (always without strict mode; in strict
   * mode when the lazy pass grants both targets), the nested switch wins:
   * `c`'s state ends current and is entered, and the outer target is never
   * entered (unless it is that same state).
   */
  lemma ReentrantSwitchWins(m: Machine, g: map<Kind, State>, target: State, c: Kind)
    requires !m.disposed && m.current != null
    requires target in m.states.Values && c in m.states
    requires m.strict ==> target in Lazy(m, g).Values && m.states[c] in Lazy(m, g).Values
    ensures var r := Switch(m, g, target, [c]);
      && r.outcome == Superseded
      && r.m == m.(current := m.states[c], count := m.count + 2)
      && r.hooks == [Exited(m.current, target), Exited(m.current, m.states[c]), Entered(m.states[c], m.current)]
  {
    var m1 := m.(count := m.count + 1);
    var g1 := if m.strict && target !in g.Values then Lazy(m, g) else g;
    assert m.states[c] in m.states.Values;
    assert Lazy(m1, g) == Lazy(m, g);
    assert Switch(m, g, target, [c]) == SwitchCommit(m1, g1, target, [c]);
    PlainSwitchExitsThenEnters(m1, g1, m.states[c]);
    var n := Switch(m1, g1, m.states[c], []);
    assert [c][0] == c && [c][1..] == [];
    assert SwitchByKind(m1, g1, c, []) == n;
    assert Leave(m1, g1, target, [c]) == Switched(n.m, n.grants, n.outcome, [Exited(m.current, target)] + n.hooks);
  }

  /**
   * A nested switch from `Exit` that strict mode denies does not move the
   * switch counter, so the outer switch still commits to its own target.
   */
  lemma DeniedNestedSwitchKeepsOuter(m: Machine, g: map<Kind, State>, target: State, c: Kind)
    requires !m.disposed && m.strict && m.current != null
    requires target in m.states.Values && target in g.Values
    requires c in m.states && m.states[c] !in Lazy(m, g).Values
    ensures var r := Switch(m, g, target, [c]);
      && r.outcome == Committed
      && r.m == m.(current := target, count := m.count + 1)
      && r.grants == Lazy(m, g)
      && r.hooks == [Exited(m.current, target), Entered(target, m.current)]
  {
    var m1 := m.(count := m.count + 1);
    assert m.states[c] in m.states.Values;
    if m.current.transitions.Some? {
      Grants.ResolveGrantsInstance(g, m.current.transitions.value, m.states, m.states[c]);
    }
    assert Lazy(m1, g) == Lazy(m, g);
    assert [c][0] == c && [c][1..] == [];
    assert Switch(m, g, target, [c]) == SwitchCommit(m1, g, target, [c]);
    DeniedExactlyWhenLazyPassMisses(m1, g, m.states[c], []);
    assert SwitchByKind(m1, g, c, []) == Switched(m1, Lazy(m, g), Denied, []);
    assert Leave(m1, g, target, [c]) == Switched(m1, Lazy(m, g), Denied, [Exited(m.current, target)]);
  }

  /** On a disposed machine a switch to a registered state does nothing at all. */
  lemma DisposedSwitchIsNoop(m: Machine, g: map<Kind, State>, target: State, plan: seq<Kind>)
    requires m.disposed
    ensures Switch(m, g, target, plan) == Switched(m, g, Ignored, [])
  {
  }

  /** A switch to a state that is not registered throws and changes nothing. */
  lemma UnregisteredTargetThrows(m: Machine, g: map<Kind, State>, target: State, plan: seq<Kind>)
    requires !m.disposed && target !in m.states.Values
    ensures Switch(m, g, target, plan) == Switched(m, g, Failed(StateNotFound), [])
  {
  }
}
