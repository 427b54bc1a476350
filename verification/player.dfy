/**
 * The player's wiring of the state machine, and what follows from it: strict
 * mode, the three concrete states registered with no explicit transitions,
 * and a first switch to the movement state.
 */
module PlayerSetup {
  import opened Kinds
  import opened States
  import SwitchLemmas

  /** The registration half of `Player.Start`: a strict machine with the three states. */
  method Wire() returns (sm: StateMachine, movement: State, climbing: State, shooting: State)
    ensures fresh(sm) && fresh(movement) && fresh(climbing) && fresh(shooting)
    ensures sm.Valid() && sm.Snapshot() == Machine(sm.states, null, true, false, 0) && sm.hooks == []
    ensures sm.states == map[Movement := movement, Climbing := climbing, Shooting := shooting]
    ensures movement.kind == Movement && climbing.kind == Climbing && shooting.kind == Shooting
    ensures movement.transitions == None && climbing.transitions == shooting.transitions == Some([Movement])
    ensures movement.granted == map[] && climbing.granted == map[] && shooting.granted == map[]
    ensures movement.parent == sm && climbing.parent == sm && shooting.parent == sm
  {
    sm := new StateMachine();
    movement := new State(Movement);
    climbing := new State(Climbing);
    shooting := new State(Shooting);
    var _ := sm.SetStrict(true);
    var _ := sm.Add(movement);
    assert sm.states == map[Movement := movement];
    var _ := sm.Add(climbing);
    assert sm.states == map[Movement := movement, Climbing := climbing];
    var _ := sm.Add(shooting);
  }

  /** `Player.Start`: strict mode, the three states, then a switch to the movement state. */
  method Start() returns (sm: StateMachine, movement: State, climbing: State, shooting: State, o: Outcome)
    ensures fresh(sm) && fresh(movement) && fresh(climbing) && fresh(shooting)
    ensures sm.Valid() && sm.strict && !sm.disposed && o == Committed
    ensures sm.states == map[Movement := movement, Climbing := climbing, Shooting := shooting]
    ensures sm.current == movement && sm.hooks == [Entered(movement, null)]
    ensures movement.kind == Movement && climbing.kind == Climbing && shooting.kind == Shooting
    ensures movement.transitions == None && climbing.transitions == shooting.transitions == Some([Movement])
    ensures movement.granted == map[] && climbing.granted == map[] && shooting.granted == map[]
    ensures movement.parent == sm && climbing.parent == sm && shooting.parent == sm
  {
    sm, movement, climbing, shooting := Wire();
    assert sm.states[Movement] == movement;
    SwitchLemmas.PlainSwitchExitsThenEnters(sm.Snapshot(), sm.CurrentGrants(), movement);
    o := sm.SwitchKind(Movement, []);
  }

  /**
   * With that wiring the movement state can never be left: its declared
   * successors are null, so strict mode denies both the climbing and the
   * shooting state, and the movement state stays current.
   */
  method MovementNeverLeaves() returns (toClimbing: Outcome, toShooting: Outcome, now: Kind)
    ensures toClimbing == Denied && toShooting == Denied && now == Movement
  {
    var sm, movement, climbing, shooting, _ := Start();
    assert sm.states[Climbing] == climbing && sm.states[Shooting] == shooting;
    SwitchLemmas.NullTransitionsDenyEverything(sm.Snapshot(), sm.CurrentGrants(), climbing, []);
    toClimbing := sm.SwitchKind(Climbing, []);
    SwitchLemmas.NullTransitionsDenyEverything(sm.Snapshot(), sm.CurrentGrants(), shooting, []);
    toShooting := sm.SwitchKind(Shooting, []);
    now := sm.current.kind;
  }

  /**
   * The same wiring, but first switched to the shooting state (admitted: there
   * is no current state yet). The shooting state's switch back to the movement
   * state goes through on the first try, because the lazy pass grants its
   * declared successor; the shooting state then holds that grant.
   */
  method ShootingReturnsToMovement() returns (first: Outcome, back: Outcome, now: Kind, granted: bool)
    ensures first == Committed && back == Committed && now == Movement && granted
  {
    var sm, movement, climbing, shooting := Wire();
    assert sm.states[Shooting] == shooting && sm.states[Movement] == movement;
    SwitchLemmas.PlainSwitchExitsThenEnters(sm.Snapshot(), sm.CurrentGrants(), shooting);
    first := sm.SwitchKind(Shooting, []);
    SwitchLemmas.LazyPassAdmitsDeclaredSuccessor(sm.Snapshot(), sm.CurrentGrants(), movement);
    back := sm.SwitchKind(Movement, []);
    now := sm.current.kind;
    granted := shooting.HasTransition(movement);
  }

  /**
   * Teardown: after `Dispose` the current state has been exited and every
   * switch to a registered kind is ignored; after `ClearStates` the same
   * switch throws, because nothing is registered any more.
   */
  method Teardown() returns (afterDispose: Outcome, afterClear: Outcome, noCurrent: bool)
    ensures afterDispose == Ignored && afterClear == Failed(StateNotFound) && noCurrent
  {
    var sm, movement, _, _, _ := Start();
    sm.Dispose();
    noCurrent := sm.current == null;
    assert sm.hooks == [Entered(movement, null), Exited(movement, null)];
    afterDispose := sm.SwitchKind(Movement, []);
    var sm2, _, _, _, _ := Start();
    var _ := sm2.ClearStates();
    afterClear := sm2.SwitchKind(Movement, []);
  }
}
