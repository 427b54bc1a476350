/**
 * The closed set of concrete state kinds of the player controller, the
 * successor kinds each of them declares, and the error and result shapes
 * shared by the state machine and its states.
 */
module Kinds {

  /** One tag per concrete state class; a kind stands for the runtime type the C# `StateMachine` and `State` key their tables by. */
  datatype Kind = Movement | Climbing | Shooting

  datatype Option<+T> = None | Some(value: T)

  /** The exceptions the C# state machine throws: all are `ArgumentException`s with different messages. */
  datatype Error =
    | DuplicateState       // `Add` of a kind that is already registered
    | StateNotFound        // a kind or an instance that is not registered
    | DuplicateTransition  // `State.AddTransition` of a kind that is already granted

  /** The value an operation returns, or the exception it throws instead. */
  datatype Result<+T> = Ok(value: T) | Err(error: Error)

  /**
   * The `Transitions` property of each concrete state: the shooting and the
   * climbing state declare the movement state as their only successor; the
   * movement state's auto-property is never assigned, so it is null (`None`).
   */
  function Declared(k: Kind): (r: Option<seq<Kind>>)
    ensures r.None? <==> k == Movement
    ensures r.Some? ==> Movement in r.value && k !in r.value && forall i :: 0 <= i < |r.value| ==> r.value[i] == Movement
  {
    match k
    case Movement => None
    case Climbing => Some([Movement])
    case Shooting => Some([Movement])
  }
}
