# Player state machine and animation cues, modelled in Dafny

This project models the core of a third-person character controller written
in C# for Unity:

* the generic finite-state machine (`States/StateMachine.cs`) and its states
  (`States/State.cs`): a machine registers one state per concrete kind, each
  state keeps its own table of granted transitions and declares the successor
  kinds it wants through `Transitions`, and `SwitchState` is the one place where
  a transition is checked (strict mode, lazy granting of declared successors)
  and made (exit the old state, enter the new one, with a switch counter that
  lets a switch made from inside `Exit` win over the switch that called it);
* the animation cues of the player view (`PlayerSystem/PlayerView.cs`), which
  drive four animator bool parameters.

Files and modules:

* `kinds.dfy` — module `Kinds`: the closed kind enumeration
  `Movement | Climbing | Shooting`, the errors the source throws, a result
  type, and `Declared`, each concrete state's `Transitions`
  (`States/PlayerShootingState.cs:34` and `States/PlayerClimbingState.cs:8`
  declare `[Movement]`; `States/PlayerMovementState.cs:10` is an
  auto-property that is never assigned, so `None`, i.e. null).
* `grants.dfy` — module `Grants`: the lazy pass over declared successors, on
  map values.
* `states.dfy` — module `States`: the classes `State` and `StateMachine`
  (imperative, with `modifies` frames), and `Switch`, `SwitchCommit`, `Leave`
  and `SwitchByKind`, which describe `SwitchState` on values and which the
  methods are proved to follow. Lifecycle hook calls are recorded, in order,
  in the machine's ghost `hooks` trace. An `Exit` hook that switches again is
  described by an exit plan: the `Exit` call at nesting depth i performs
  `SwitchState` to kind `plan[i]` on the same machine; the call at depth
  |plan| performs none.
* `switch_lemmas.dfy` — module `SwitchLemmas`: properties of switching.
* `player_view.dfy` — module `PlayerSystem`: the animator parameters as a
  record of four bools, `After` (the effect of one cue,
  `PlayerSystem/PlayerView.cs:17-58`), and the `PlayerView` class.
* `player.dfy` — module `PlayerSetup`: the wiring of `Player.Start`
  (`PlayerSystem/Player.cs:40-46`) and scenarios built on it.

Behaviour of the code that the model follows as written:

* the movement state's declared successors are null in the code, not the
  climbing and shooting states; with the player's strict wiring the movement
  state can therefore never be left (`PlayerSetup.MovementNeverLeaves`);
* `SwitchState` by kind looks the kind up before it checks for disposal, so on
  a disposed machine a switch to an unregistered kind still throws
  (`States.SwitchByKind`);
* the instance overload of `AddTransition` is not all-or-nothing: when the
  first endpoint gets registered and the second fails to, the first stays
  registered (`States.StateMachine.AddTransitionStates`);
* grants are checked per instance (`HasTransition(State)` is a
  `ContainsValue` on reference identity), while the lazy pass skips kinds
  that are already granted; a grant that holds another instance of the
  target's kind therefore blocks the switch for good
  (`SwitchLemmas.StaleGrantDenies`);
* a nested switch from `Exit` that strict mode denies does not move the
  counter, so the outer switch still commits (`SwitchLemmas.DeniedNestedSwitchKeepsOuter`).

## Model

| member | source | states |
|---|---|---|
| `Kinds.Declared` | Assets/Scripts/States/PlayerShootingState.cs:34 | only the movement state declares no successors (null); the shooting state here and the climbing state (`States/PlayerClimbingState.cs:8`) declare the movement state alone, so no state declares itself |
| `Grants.Resolve` | Assets/Scripts/States/StateMachine.cs:166-176 | the lazy pass keeps every existing grant unchanged and adds exactly the declared kinds that are registered and were missing, each bound to its registered state |
| `Grants.ResolveIdempotent` | Assets/Scripts/States/StateMachine.cs:166-176 | a second lazy pass grants nothing more |
| `Grants.ResolveGrantsInstance` | Assets/Scripts/States/StateMachine.cs:166-176 | a state is granted as an instance after the pass iff it was before, or it is the registered state of a declared kind that was missing |
| `States.ResolveKeyed` | Assets/Scripts/States/StateMachine.cs:166-176 | the lazy pass over a kind-keyed registry keeps a kind-keyed grant table kind-keyed, so each granted state stays under its own kind |
| `States.KeyedHoldsOnePerKind` | Assets/Scripts/States/State.cs:25-31 | a table keyed by the kind of its states holds at most one state per kind |
| `States.Lazy` | Assets/Scripts/States/StateMachine.cs:158-176 | the current state's grant table after `UpdateTransitions`: unchanged when the declared successors are null; otherwise it adds exactly the declared successors registered in the machine that were missing, each bound to its registered state, and keeps every existing grant |
| `States.Switch` | Assets/Scripts/States/StateMachine.cs:126-156 | a switch never changes the table, the strict flag or disposal; the counter never decreases; the state left current is the old one or a registered one; a commit makes the target current; a denial or an ignored switch changes no machine field and calls no hook (a denial may still grow the current state's grants by the lazy pass) |
| `States.SwitchCommit` | Assets/Scripts/States/StateMachine.cs:146-155 | the committing half is never a denial; it leaves a registered or the old state current, and a commit makes the target current |
| `States.SwitchByKind` | Assets/Scripts/States/StateMachine.cs:117-124 | switching by kind throws for an unregistered kind and changes nothing; otherwise as `Switch` |
| `States.Leave` | Assets/Scripts/States/StateMachine.cs:147-148 | the exit of the outgoing state keeps the table, strict flag and disposal, never moves the counter back, leaves the old or a registered state current, and changes nothing beyond its one `Exit` hook when that hook does not switch |
| `States.SwitchKeepsKeyed` | Assets/Scripts/States/StateMachine.cs:126-156 | whatever the exit hooks do, a switch leaves the grant table of the state current at its start keyed by kind |
| `States.SwitchCommitKeepsKeyed` | Assets/Scripts/States/StateMachine.cs:146-155 | the same for the committing half |
| `States.SwitchByKindKeepsKeyed` | Assets/Scripts/States/StateMachine.cs:112-124 | the same for the switch by kind |
| `States.State.constructor` | Assets/Scripts/States/State.cs:6-11 | a new state has its kind's declared successors, no parent and an empty grant table |
| `States.State.Enter` | Assets/Scripts/States/State.cs:13-15 | the default `Enter` changes nothing |
| `States.State.Service` | Assets/Scripts/States/State.cs:17-19 | the default `Service` changes nothing |
| `States.State.Exit` | Assets/Scripts/States/State.cs:21-23 | the default `Exit` changes nothing |
| `States.State.HasTransitionKind` | Assets/Scripts/States/State.cs:35-38 | side-effect-free; true iff some granted state has that kind |
| `States.State.HasTransition` | Assets/Scripts/States/State.cs:40-43 | side-effect-free; true iff the slot of the state's kind holds that very instance, which implies the kind query is true |
| `States.State.AddTransition` | Assets/Scripts/States/State.cs:25-33 | throws when the kind is already granted and leaves the table unchanged; otherwise grants exactly that kind to that state, returns the receiver, and both queries then answer true |
| `States.StateMachine.constructor` | Assets/Scripts/States/StateMachine.cs:12-19 | an empty, non-strict, undisposed machine with no current state |
| `States.StateMachine.Dispose` | Assets/Scripts/States/StateMachine.cs:21-32 | marks the machine disposed, calls `Exit(null)` once on the current state if any, and leaves no current state |
| `States.StateMachine.Add` | Assets/Scripts/States/StateMachine.cs:34-46 | an already registered kind throws and leaves the table and the state unchanged; otherwise the table gains exactly that kind and the state's parent is this machine |
| `States.StateMachine.AddTransitionOf` | Assets/Scripts/States/StateMachine.cs:48-63 | the generic overload: throws unless both kinds are registered, leaving `from`'s grants unchanged when only `to` is missing; otherwise as the kind overload; only the `from` state's grant table can change |
| `States.StateMachine.AddTransitionKinds` | Assets/Scripts/States/StateMachine.cs:75-87 | throws unless both kinds are registered, leaving `from`'s grants unchanged when only `to` is missing; otherwise grants exactly from→to on the `from` state (or throws on a duplicate); only the `from` state's grant table can change |
| `States.StateMachine.AddTransitionStates` | Assets/Scripts/States/StateMachine.cs:65-73 | registers whichever endpoint is not registered (a clash of kinds throws, keeping what was registered before it), then grants the edge on `from`; an endpoint registered by the call gets this machine as its parent, one registered before, or one whose registration throws, keeps its parent |
| `States.Registered` | Assets/Scripts/States/StateMachine.cs:67-68 | the table after making sure an instance is registered: throws the duplicate-state error exactly when the instance is not registered but its kind is taken; otherwise the instance is registered, every existing entry is kept, and at most its own kind is added |
| `States.StateMachine.SetStrict` | Assets/Scripts/States/StateMachine.cs:89-93 | sets strict mode and returns the machine |
| `States.StateMachine.ClearStates` | Assets/Scripts/States/StateMachine.cs:95-105 | calls `Exit(null)` once on the current state if any, leaves no current state and empties the table |
| `States.StateMachine.Service` | Assets/Scripts/States/StateMachine.cs:107-110 | services the current state once, and does nothing without one |
| `States.StateMachine.SwitchKind` | Assets/Scripts/States/StateMachine.cs:112-124 | follows `SwitchByKind`: new machine fields, outcome, hooks called and the grants of the state current at the start, which stay keyed by kind |
| `States.StateMachine.SwitchState` | Assets/Scripts/States/StateMachine.cs:126-144 | follows `Switch`: a disposed machine ignores it, an unregistered target throws, strict mode runs the lazy pass and denies a target still ungranted; the current state's grants stay keyed by kind |
| `States.StateMachine.Commit` | Assets/Scripts/States/StateMachine.cs:146-155 | follows `SwitchCommit`: counter, exit of the old state, nested switch from the exit hook, then the target made current and entered unless the counter moved; the current state's grants stay keyed by kind |
| `States.StateMachine.ExitCurrent` | Assets/Scripts/States/StateMachine.cs:147-148 | follows `Leave`: one `Exit(target)` on the current state, then, when that hook switches, exactly the nested switch's effect; the current state's grants stay keyed by kind |
| `States.StateMachine.UpdateTransitions` | Assets/Scripts/States/StateMachine.cs:158-177 | the state's grant table becomes the lazy pass over its declared successors, and is unchanged when they are null; a table keyed by kind stays keyed by kind |
| `SwitchLemmas.SwitchLifecycle` | Assets/Scripts/States/StateMachine.cs:146-155 | a switch calls only `Exit` on the old state, then, iff some switch won, exactly one `Enter` as the last hook, on the state that ends current; a lost switch leaves the current state as it was |
| `SwitchLemmas.CommitLifecycle` | Assets/Scripts/States/StateMachine.cs:146-155 | the same ordering for the committing half, through nested switches |
| `SwitchLemmas.LeaveLifecycle` | Assets/Scripts/States/StateMachine.cs:146-152 | the exit of the outgoing state calls only its `Exit` hooks, except that a nested switch that moved the counter won and ends with its single `Enter` |
| `SwitchLemmas.DeniedExactlyWhenLazyPassMisses` | Assets/Scripts/States/StateMachine.cs:135-143 | in strict mode with a current state, a registered target is denied iff it is still ungranted after the lazy pass, and a denial changes only the current state's grants, by that pass |
| `SwitchLemmas.LazyPassAdmitsDeclaredSuccessor` | Assets/Scripts/States/StateMachine.cs:135-176 | the first strict switch to a declared, registered, ungranted successor commits, with the grant added, one exit and one enter |
| `SwitchLemmas.NullTransitionsDenyEverything` | Assets/Scripts/States/StateMachine.cs:160-164 | with null declared successors the lazy pass grants nothing and every ungranted target is denied with no change |
| `SwitchLemmas.StaleGrantDenies` | Assets/Scripts/States/StateMachine.cs:135-143 | a grant holding another instance of the target's kind makes the strict switch denied |
| `SwitchLemmas.PlainSwitchExitsThenEnters` | Assets/Scripts/States/StateMachine.cs:146-155 | a switch that is admitted and whose exit hook does not switch calls `prev.Exit(target)` once, sets the target current and calls `target.Enter(prev)` once; without strict mode every registered target is admitted, the current state included |
| `SwitchLemmas.ReentrantSwitchWins` | Assets/Scripts/States/StateMachine.cs:146-152 | when `Exit` switches to kind c and both switches are admitted (always without strict mode; with it, when the lazy pass grants both targets), the nested switch wins: c's state ends current, only it is entered, and the outer switch returns without entering its target |
| `SwitchLemmas.DeniedNestedSwitchKeepsOuter` | Assets/Scripts/States/StateMachine.cs:135-155 | a nested switch from `Exit` that strict mode denies leaves the counter alone, so the outer switch commits |
| `SwitchLemmas.DisposedSwitchIsNoop` | Assets/Scripts/States/StateMachine.cs:126-129 | on a disposed machine a switch changes nothing and calls no hook |
| `SwitchLemmas.UnregisteredTargetThrows` | Assets/Scripts/States/StateMachine.cs:131-132 | a switch to an unregistered instance throws and changes nothing |
| `PlayerSystem.CueLeavesOneMotion` | Assets/Scripts/PlayerSystem/PlayerView.cs:17-58 | from at most one of idle, walking and running on, any cue leaves exactly one on |
| `PlayerSystem.PlayKeepsMotionExclusive` | Assets/Scripts/PlayerSystem/PlayerView.cs:17-58 | any sequence of cues keeps at most one motion parameter on, and exactly one after a non-empty sequence |
| `PlayerSystem.PlayNeverUngrounds` | Assets/Scripts/PlayerSystem/PlayerView.cs:23-58 | no sequence of cues turns `isGrounded` off |
| `PlayerSystem.StopRunningNeedsExclusivity` | Assets/Scripts/PlayerSystem/PlayerView.cs:46-51 | without exclusivity beforehand, `StopRunning` can leave idle and walking both on |
| `PlayerSystem.After` | Assets/Scripts/PlayerSystem/PlayerView.cs:17-58 | a single cue never turns `isGrounded` off and always leaves at least one motion parameter on |
| `PlayerSystem.PlayerView.constructor` | Assets/Scripts/PlayerSystem/PlayerView.cs:15 | the view starts from the animator's current parameters |
| `PlayerSystem.PlayerView.StartIdling` | Assets/Scripts/PlayerSystem/PlayerView.cs:17-21 | idle on, walking and running off, grounded untouched |
| `PlayerSystem.PlayerView.StartWalking` | Assets/Scripts/PlayerSystem/PlayerView.cs:23-29 | no change while running; otherwise idle off, walking and grounded on |
| `PlayerSystem.PlayerView.StopWalking` | Assets/Scripts/PlayerSystem/PlayerView.cs:31-36 | no change while running; otherwise the idling configuration |
| `PlayerSystem.PlayerView.StartRunning` | Assets/Scripts/PlayerSystem/PlayerView.cs:38-44 | running and grounded on, idle and walking off |
| `PlayerSystem.PlayerView.StopRunning` | Assets/Scripts/PlayerSystem/PlayerView.cs:46-51 | running off; the walking configuration kept if walking was on, otherwise idling |
| `PlayerSystem.PlayerView.ResetAll` | Assets/Scripts/PlayerSystem/PlayerView.cs:53-58 | idle, walking and running off, grounded untouched |
| `PlayerSetup.Wire` | Assets/Scripts/PlayerSystem/Player.cs:38-44 | a new strict machine holding exactly the three new states under their kinds, each parented to it, with empty grant tables, the declared successors of each kind and no current state |
| `PlayerSetup.Start` | Assets/Scripts/PlayerSystem/Player.cs:40-46 | strict machine with the three states registered, each parented to it, and the movement state current and entered once |
| `PlayerSetup.MovementNeverLeaves` | Assets/Scripts/States/PlayerMovementState.cs:10 | with that wiring, switches from the movement state to the climbing and the shooting state are both denied and the movement state stays current |
| `PlayerSetup.ShootingReturnsToMovement` | Assets/Scripts/States/PlayerShootingState.cs:34 | in strict mode the shooting state's switch to the movement state commits on the first try, through the lazy grant it then holds |
| `PlayerSetup.Teardown` | Assets/Scripts/States/StateMachine.cs:21-32 | after `Dispose` no state is current and a switch is ignored; after `ClearStates` the same switch throws |

## Left out

- The `args` arrays passed to `SwitchState`, `Enter` and `Exit` are not modelled; they are only forwarded to the hooks.
- Logging (`Debug.Log`, `LogWarning`, `LogError`) is not modelled; a denied switch is reported as the `Denied` outcome instead.
- `States.StateMachine.ExitCurrent`: only `Exit` hooks can switch again, and they do so on the machine that runs the outer switch (the state's `Parent` in the player's wiring); `Enter` and `Service` hooks never switch, and the `Exit(null)` hooks run by `Dispose` and `ClearStates` do not switch.
- The switch counter is an unbounded integer; the source's 32-bit counter wraps, which can only matter after 2^32 nested switches.
- `Transitions` may list any `Type` in the source; here it lists kinds only, and it is fixed per kind (the source builds a new array on each read, with the same contents).
- The concrete states' own behaviour (camera-relative movement, rotation, jumping, firing, input subscriptions, toggling the character controller) and the shared locomotion code (ground probe, gravity, slope sliding) are floating-point physics and engine calls, and are not modelled.
- The input controller, dependency wiring, the player configuration asset and the rest of `Player` (lifecycle callbacks, collision queries) are engine plumbing and are not modelled.
- `PlayerView.Initialize`, the animator lookup, is not modelled: the view holds the animator's parameters directly.
- Exceptions thrown by the concrete states' hooks (such as a missing camera) are not modelled.
