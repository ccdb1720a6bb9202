/**
 * Routing: a parameter that a modulation route can drive keeps two values,
 * the one the user edits (`base`) and the one the route writes (`routed`);
 * which of the two a reader sees depends on whether a route for that
 * parameter and track is active.
 */
module Routing {

  /** The routing targets the modelled classes read or write. */
  datatype Target =
    | None
    // sequence targets
    | Scale | RootNote | Divisor | RunMode | FirstStep | LastStep | Reseed
    | RestProbability2 | RestProbability4 | RestProbability8
    | SequenceFirstStep | SequenceLastStep
    | LowOctaveRange | HighOctaveRange | LengthModifier
    // track targets
    | SlideTime | Octave | Transpose | Rotate
    | GateProbabilityBias | RetriggerProbabilityBias | LengthBias | NoteProbabilityBias
    /** Any other target of the routing engine, by its ordinal. */
    | OtherTarget(ordinal: nat)

  /**
   * The routing engine's answer to `Routing::isRouted(target, trackIndex)`:
   * the set of (target, track index) pairs that an active route drives.
   * How routes are configured is not part of this model.
   */
  datatype RouteTable = RouteTable(active: set<(Target, int)>) {
    predicate IsRouted(target: Target, trackIndex: int) {
      (target, trackIndex) in active
    }
  }

  /** `Routable<T>`: a stored and a routed copy of one parameter. */
  datatype Routable<T> = Routable(base: T, routed: T) {
    /** `get(routed)`: the routed copy while a route is active, the stored one otherwise. */
    function Get(isRouted: bool): (r: T)
      ensures r == if isRouted then routed else base
    {
      if isRouted then routed else base
    }

    /** `set(value, routed)`: writes one copy and keeps the other. */
    function Set(value: T, toRouted: bool): (r: Routable<T>)
      ensures r.Get(toRouted) == value
      ensures r.Get(!toRouted) == Get(!toRouted)
    {
      if toRouted then this.(routed := value) else this.(base := value)
    }
  }

  /** A sequence of writes, each a value and whether it goes to the routed copy. */
  function ApplyWrites<T>(r: Routable<T>, writes: seq<(T, bool)>): Routable<T>
    decreases |writes|
  {
    if |writes| == 0 then r else ApplyWrites(r.Set(writes[0].0, writes[0].1), writes[1..])
  }

  /** The value of the last write to one copy, or `initial` if there was none. */
  function LastWrite<T>(writes: seq<(T, bool)>, toRouted: bool, initial: T): T
    decreases |writes|
  {
    if |writes| == 0 then initial
    else if writes[|writes| - 1].1 == toRouted then writes[|writes| - 1].0
    else LastWrite(writes[..|writes| - 1], toRouted, initial)
  }

  /**
   * Routing precedence: after any interleaving of stored and routed writes,
   * each copy holds the last value written to it, so a routed write never
   * disturbs the value the user edits and a user edit never disturbs the
   * routed value.
   */
  lemma {:induction false} ApplyWritesKeepsCopiesApart<T>(r: Routable<T>, writes: seq<(T, bool)>)
    ensures ApplyWrites(r, writes).Get(false) == LastWrite(writes, false, r.base)
    ensures ApplyWrites(r, writes).Get(true) == LastWrite(writes, true, r.routed)
    decreases |writes|
  {
    if |writes| > 0 {
      var n := |writes|;
      ApplyWritesSnoc(r, writes[..n - 1], writes[n - 1]);
      assert writes == writes[..n - 1] + [writes[n - 1]];
      ApplyWritesKeepsCopiesApart(r, writes[..n - 1]);
    }
  }

  lemma {:induction false} ApplyWritesSnoc<T>(r: Routable<T>, writes: seq<(T, bool)>, w: (T, bool))
    ensures ApplyWrites(r, writes + [w]) == ApplyWrites(r, writes).Set(w.0, w.1)
    decreases |writes|
  {
    if |writes| > 0 {
      assert (writes + [w])[1..] == writes[1..] + [w];
      ApplyWritesSnoc(r.Set(writes[0].0, writes[0].1), writes[1..], w);
    }
  }
}
