/**
 * Pattern follow: whether the display, the launch pad, both or neither
 * follow the pattern a track is playing. `BaseTrackPatternFollow` keeps
 * one such setting and rewrites it in every setter; a track that has the
 * capability holds one as a component.
 */
module PatternFollows {
  import opened Values

  /** `Types::PatternFollow`, in ordinal order. */
  datatype PatternFollow = Off | Display | LaunchPad | DispAndLP

  const PatternFollowCount := 4

  function Ordinal(p: PatternFollow): (r: int)
    ensures 0 <= r < PatternFollowCount
  {
    match p
    case Off => 0
    case Display => 1
    case LaunchPad => 2
    case DispAndLP => 3
  }

  function FromOrdinal(i: int): (p: PatternFollow)
    requires 0 <= i < PatternFollowCount
    ensures Ordinal(p) == i
  {
    if i == 0 then Off else if i == 1 then Display else if i == 2 then LaunchPad else DispAndLP
  }

  /** `ModelUtils::clampedEnum` on a pattern-follow ordinal. */
  function Clamped(ordinal: int): (p: PatternFollow)
    ensures 0 <= ordinal < PatternFollowCount ==> Ordinal(p) == ordinal
  {
    FromOrdinal(ClampedEnum(ordinal, PatternFollowCount))
  }

  /** The display follows the pattern. */
  predicate DisplayFollows(p: PatternFollow) {
    p == Display || p == DispAndLP
  }

  /** The launch pad follows the pattern. */
  predicate LaunchPadFollows(p: PatternFollow) {
    p == LaunchPad || p == DispAndLP
  }

  /**
   * `setPatternFollow(trackDisplay, trackLP)`: the setting in which the
   * display follows exactly when `display` holds and the launch pad
   * exactly when `launchPad` holds.
   */
  function FromFlags(display: bool, launchPad: bool): (p: PatternFollow)
    ensures DisplayFollows(p) <==> display
    ensures LaunchPadFollows(p) <==> launchPad
  {
    if display && launchPad then DispAndLP
    else if display then Display
    else if launchPad then LaunchPad
    else Off
  }

  /** Every setting is the one its two flags describe. */
  lemma FlagsDescribeSetting(p: PatternFollow)
    ensures FromFlags(DisplayFollows(p), LaunchPadFollows(p)) == p
  {
  }

  /**
   * The setting `togglePatternFollowDisplay` moves to: with a launch pad
   * connected the next ordinal modulo 4, otherwise `Display` from `Off` and
   * `Off` from any other setting.
   */
  function Toggled(p: PatternFollow, launchpadConnected: bool): (r: PatternFollow)
    ensures !launchpadConnected ==> (r == Display <==> p == Off) && (r == Off <==> p != Off)
  {
    if launchpadConnected then FromOrdinal((Ordinal(p) + 1) % 4)
    else if p == Off then Display
    else Off
  }

  /** `n` toggles in a row. */
  function ToggledTimes(p: PatternFollow, launchpadConnected: bool, n: nat): PatternFollow
    decreases n
  {
    if n == 0 then p else ToggledTimes(Toggled(p, launchpadConnected), launchpadConnected, n - 1)
  }

  /** With a launch pad, each toggle adds one to the ordinal modulo 4. */
  lemma {:induction false} ToggledTimesOrdinal(p: PatternFollow, n: nat)
    ensures Ordinal(ToggledTimes(p, true, n)) == (Ordinal(p) + n) % 4
    decreases n
  {
    if n > 0 {
      ToggledTimesOrdinal(Toggled(p, true), n - 1);
    }
  }

  /**
   * With a launch pad, toggling cycles through all four settings and four
   * toggles return to the start; without one, two toggles from `Off`
   * return to `Off` by way of `Display`.
   */
  lemma ToggleCycles(p: PatternFollow)
    ensures ToggledTimes(p, true, 4) == p
    ensures forall n: nat :: 0 < n < 4 ==> ToggledTimes(p, true, n) != p
    ensures ToggledTimes(Off, false, 1) == Display && ToggledTimes(Off, false, 2) == Off
  {
    ToggledTimesOrdinal(p, 4);
    forall n: nat | 0 < n < 4
      ensures ToggledTimes(p, true, n) != p
    {
      ToggledTimesOrdinal(p, n);
    }
  }

  /** The pattern-follow setting of a track. */
  class BaseTrackPatternFollow {
    var patternFollow: PatternFollow

    constructor()
      ensures patternFollow == Off
    {
      patternFollow := Off;
    }

    /** `setPatternFollow(PatternFollow)`: the ordinal clamped into the enumeration. */
    method SetPatternFollow(ordinal: int)
      modifies this
      ensures patternFollow == Clamped(ordinal)
      ensures 0 <= ordinal < PatternFollowCount ==> Ordinal(patternFollow) == ordinal
    {
      patternFollow := Clamped(ordinal);
    }

    /** `setPatternFollow(trackDisplay, trackLP)`. */
    method SetPatternFollowFlags(trackDisplay: bool, trackLP: bool)
      modifies this
      ensures DisplayFollows(patternFollow) == trackDisplay
      ensures LaunchPadFollows(patternFollow) == trackLP
    {
      if trackDisplay && trackLP {
        SetPatternFollow(Ordinal(DispAndLP));
        return;
      } else if trackDisplay {
        SetPatternFollow(Ordinal(Display));
        return;
      } else if trackLP {
        SetPatternFollow(Ordinal(LaunchPad));
        return;
      }
      SetPatternFollow(Ordinal(Off));
    }

    /** `setPatternFollowDisplay`: sets whether the display follows and keeps the launch pad's part. */
    method SetPatternFollowDisplay(trackDisplay: bool)
      modifies this
      ensures DisplayFollows(patternFollow) == trackDisplay
      ensures LaunchPadFollows(patternFollow) == LaunchPadFollows(old(patternFollow))
    {
      var lpTracking := patternFollow == LaunchPad || patternFollow == DispAndLP;
      SetPatternFollowFlags(trackDisplay, lpTracking);
    }

    /** `isPatternFollowDisplayOn`. */
    method IsPatternFollowDisplayOn() returns (r: bool)
      ensures r <==> DisplayFollows(patternFollow)
    {
      r := patternFollow == Display || patternFollow == DispAndLP;
    }

    /** `togglePatternFollowDisplay`. */
    method TogglePatternFollowDisplay(isLaunchpadConnected: bool)
      modifies this
      ensures patternFollow == Toggled(old(patternFollow), isLaunchpadConnected)
    {
      var p := patternFollow;
      if isLaunchpadConnected {
        p := FromOrdinal((Ordinal(p) + 1) % 4);
      } else {
        if p == Off {
          p := Display;
        } else {
          p := Off;
        }
      }
      SetPatternFollow(Ordinal(p));
    }

    /** `editPatternFollow`: the setting moved by `value` and clamped into the enumeration. */
    method EditPatternFollow(value: int, shift: bool)
      modifies this
      ensures patternFollow == Clamped(Ordinal(old(patternFollow)) + value)
    {
      SetPatternFollow(Ordinal(patternFollow) + value);
    }
  }
}
