/**
 * The animation cues of the player view. Each cue writes the animator's bool
 * parameters one at a time, with early returns that read the current values.
 */
module PlayerSystem {

  /** The four animator bool parameters the view drives. */
  datatype Params = Params(isIdle: bool, isWalking: bool, isRunning: bool, isGrounded: bool)

  datatype Cue = StartIdling | StartWalking | StopWalking | StartRunning | StopRunning

  /** At most one of the three motion parameters is on. */
  predicate AtMostOneMotion(p: Params)
  {
    && !(p.isIdle && p.isWalking)
    && !(p.isIdle && p.isRunning)
    && !(p.isWalking && p.isRunning)
  }

  /** Exactly one of the three motion parameters is on. */
  predicate ExactlyOneMotion(p: Params)
  {
    AtMostOneMotion(p) && (p.isIdle || p.isWalking || p.isRunning)
  }

  /** The idling configuration: idle on, walking and running off, grounded as it was. */
  predicate Idling(p: Params, before: Params)
  {
    p == Params(true, false, false, before.isGrounded)
  }

  /** The parameters after one cue: grounded is never turned off, and some motion parameter is always left on. */
  function After(p: Params, c: Cue): (r: Params)
    ensures p.isGrounded ==> r.isGrounded
    ensures r.isIdle || r.isWalking || r.isRunning
  {
    match c
    case StartIdling => Params(true, false, false, p.isGrounded)
    case StartWalking => if p.isRunning then p else p.(isIdle := false, isWalking := true, isGrounded := true)
    case StopWalking => if p.isRunning then p else Params(true, false, false, p.isGrounded)
    case StartRunning => Params(false, false, true, true)
    case StopRunning => if p.isWalking then p.(isRunning := false) else Params(true, false, false, p.isGrounded)
  }

  /** The parameters after a sequence of cues, in order. */
  function Play(p: Params, cs: seq<Cue>): Params
    decreases |cs|
  {
    if cs == [] then p else Play(After(p, cs[0]), cs[1..])
  }

  /** From a configuration with at most one motion on, any cue leaves exactly one on. */
  lemma CueLeavesOneMotion(p: Params, c: Cue)
    requires AtMostOneMotion(p)
    ensures ExactlyOneMotion(After(p, c))
  {
  }

  /** Any sequence of cues keeps the motion parameters exclusive, and a non-empty one leaves exactly one on. */
  lemma {:induction false} PlayKeepsMotionExclusive(p: Params, cs: seq<Cue>)
    requires AtMostOneMotion(p)
    ensures AtMostOneMotion(Play(p, cs))
    ensures cs != [] ==> ExactlyOneMotion(Play(p, cs))
    decreases |cs|
  {
    if cs != [] {
      CueLeavesOneMotion(p, cs[0]);
      PlayKeepsMotionExclusive(After(p, cs[0]), cs[1..]);
    }
  }

  /** No sequence of cues turns `isGrounded` off. */
  lemma {:induction false} PlayNeverUngrounds(p: Params, cs: seq<Cue>)
    requires p.isGrounded
    ensures Play(p, cs).isGrounded
    decreases |cs|
  {
    if cs != [] {
      PlayNeverUngrounds(After(p, cs[0]), cs[1..]);
    }
  }

  /** Without exclusivity beforehand, `StopRunning` can leave two motion parameters on. */
  lemma StopRunningNeedsExclusivity()
    ensures !AtMostOneMotion(After(Params(true, true, false, true), StopRunning))
  {
  }

  class PlayerView {
    var isIdle: bool
    var isWalking: bool
    var isRunning: bool
    var isGrounded: bool

    function Animator(): Params
      reads this
    {
      Params(isIdle, isWalking, isRunning, isGrounded)
    }

    /** A view over an animator whose parameters start as `init`. */
    constructor (init: Params)
      ensures Animator() == init
    {
      isIdle, isWalking, isRunning, isGrounded := init.isIdle, init.isWalking, init.isRunning, init.isGrounded;
    }

    method StartIdling()
      modifies this
      ensures Idling(Animator(), old(Animator()))
      ensures Animator() == After(old(Animator()), Cue.StartIdling)
    {
      ResetAll();
      isIdle := true;
    }

    method StartWalking()
      modifies this
      ensures old(isRunning) ==> Animator() == old(Animator())
      ensures !old(isRunning) ==> !isIdle && isWalking && isGrounded && isRunning == old(isRunning)
      ensures Animator() == After(old(Animator()), Cue.StartWalking)
    {
      if isRunning {
        return;
      }
      isIdle := false;
      isWalking := true;
      isGrounded := true;
    }

    method StopWalking()
      modifies this
      ensures old(isRunning) ==> Animator() == old(Animator())
      ensures !old(isRunning) ==> Idling(Animator(), old(Animator()))
      ensures Animator() == After(old(Animator()), Cue.StopWalking)
    {
      if isRunning {
        return;
      }
      isWalking := false;
      StartIdling();
    }

    method StartRunning()
      modifies this
      ensures Animator() == Params(false, false, true, true)
      ensures Animator() == After(old(Animator()), Cue.StartRunning)
    {
      isIdle := false;
      isWalking := false;
      isRunning := true;
      isGrounded := true;
    }

    method StopRunning()
      modifies this
      ensures !isRunning
      ensures old(isWalking) ==> Animator() == old(Animator()).(isRunning := false)
      ensures !old(isWalking) ==> Idling(Animator(), old(Animator()))
      ensures Animator() == After(old(Animator()), Cue.StopRunning)
    {
      isRunning := false;
      if isWalking {
        return;
      }
      StartIdling();
    }

    method ResetAll()
      modifies this
      ensures !isIdle && !isWalking && !isRunning && isGrounded == old(isGrounded)
    {
      isIdle := false;
      isWalking := false;
      isRunning := false;
    }
  }
}
