/**
 * The lazy transition pass of the state machine, on values: a grant table is a
 * map from kind to the state granted under that kind, and the pass walks the
 * declared successor kinds and grants each one that is registered and not yet
 * granted.
 */
module Grants {
  import opened Kinds

  /** One step of the pass: grant `t` when it is not granted yet and some state is registered under it. */
  function GrantIfMissing<S>(g: map<Kind, S>, t: Kind, registered: map<Kind, S>): map<Kind, S>
  {
    if t in g then g
    else if t in registered then g[t := registered[t]]
    else g
  }

  /**
   * The whole pass over the declared kinds `ts`, in order. The result keeps
   * every existing grant as it was and adds exactly the declared, registered
   * kinds that were missing, each bound to its registered state.
   */
  function Resolve<S>(g: map<Kind, S>, ts: seq<Kind>, registered: map<Kind, S>): (r: map<Kind, S>)
    ensures forall k :: k in r <==> k in g || (k in ts && k in registered)
    ensures forall k :: k in r ==> r[k] == if k in g then g[k] else registered[k]
    decreases |ts|
  {
    if ts == [] then g
    else Resolve(GrantIfMissing(g, ts[0], registered), ts[1..], registered)
  }

  /** Running the pass a second time grants nothing more. */
  lemma ResolveIdempotent<S>(g: map<Kind, S>, ts: seq<Kind>, registered: map<Kind, S>)
    ensures Resolve(Resolve(g, ts, registered), ts, registered) == Resolve(g, ts, registered)
  {
  }

  /**
   * A state is granted (as an instance) after the pass exactly when it was
   * granted before, or it is the registered state of a declared kind that
   * was missing.
   */
  lemma ResolveGrantsInstance<S>(g: map<Kind, S>, ts: seq<Kind>, registered: map<Kind, S>, s: S)
    ensures s in Resolve(g, ts, registered).Values
        <==> s in g.Values || exists k :: k in ts && k in registered && k !in g && registered[k] == s
  {
  }
}
