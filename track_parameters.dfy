/**
 * The parameter block that `LogicTrack` and `StochasticTrack` each
 * declare, field for field and setter for setter: play, fill and CV-update
 * modes, the fill-muted flag, and eight routable parameters (slide time,
 * octave, transpose, rotate and four probability biases). It is modelled
 * once, as `TrackParams`, and each track class holds one.
 */
module TrackParameters {
  import opened Values
  import opened Routing

  //----------------------------------------
  // Enumerations
  //----------------------------------------

  /** `FillMode`, in declaration order; `Last` counts the modes. */
  datatype FillMode = None | Gates | NextPattern | Condition | Last

  const FillModeCount := 4

  function FillModeOrdinal(m: FillMode): (r: int)
    ensures 0 <= r <= FillModeCount
    ensures r == FillModeCount <==> m == FillMode.Last
  {
    match m
    case None => 0
    case Gates => 1
    case NextPattern => 2
    case Condition => 3
    case Last => 4
  }

  function FillModeFromOrdinal(i: int): (m: FillMode)
    requires 0 <= i <= FillModeCount
    ensures FillModeOrdinal(m) == i
  {
    if i == 0 then FillMode.None else if i == 1 then Gates else if i == 2 then NextPattern
    else if i == 3 then Condition else FillMode.Last
  }

  /** `fillModeName`: absent for `Last` only. */
  function FillModeName(m: FillMode): (r: Option<string>)
    ensures r.None? <==> m == FillMode.Last
  {
    match m
    case None => Some("None")
    case Gates => Some("Gates")
    case NextPattern => Some("Next Pattern")
    case Condition => Some("Condition")
    case Last => Option.None
  }

  /** `CvUpdateMode`, in declaration order; `Last` counts the modes. */
  datatype CvUpdateMode = Gate | Always | Last

  const CvUpdateModeCount := 2

  function CvUpdateModeOrdinal(m: CvUpdateMode): (r: int)
    ensures 0 <= r <= CvUpdateModeCount
    ensures r == CvUpdateModeCount <==> m == CvUpdateMode.Last
  {
    match m
    case Gate => 0
    case Always => 1
    case Last => 2
  }

  function CvUpdateModeFromOrdinal(i: int): (m: CvUpdateMode)
    requires 0 <= i <= CvUpdateModeCount
    ensures CvUpdateModeOrdinal(m) == i
  {
    if i == 0 then Gate else if i == 1 then Always else CvUpdateMode.Last
  }

  /** `cvUpdateModeName`: absent for `Last` only. */
  function CvUpdateModeName(m: CvUpdateMode): (r: Option<string>)
    ensures r.None? <==> m == CvUpdateMode.Last
  {
    match m
    case Gate => Some("Gate")
    case Always => Some("Always")
    case Last => Option.None
  }

  /**
   * Clamping an ordinal into an enumeration never lands on `Last` and
   * leaves a real mode's ordinal as it is.
   */
  lemma ClampedModesAreReal(ordinal: int)
    ensures FillModeFromOrdinal(ClampedEnum(ordinal, FillModeCount)) != FillMode.Last
    ensures CvUpdateModeFromOrdinal(ClampedEnum(ordinal, CvUpdateModeCount)) != CvUpdateMode.Last
    ensures 0 <= ordinal < FillModeCount ==> FillModeOrdinal(FillModeFromOrdinal(ClampedEnum(ordinal, FillModeCount))) == ordinal
  {
  }

  //----------------------------------------
  // Routable parameters
  //----------------------------------------

  /** The routing targets of the eight routable track parameters. */
  predicate IsTrackTarget(t: Target) {
    t.SlideTime? || t.Octave? || t.Transpose? || t.Rotate?
    || t.GateProbabilityBias? || t.RetriggerProbabilityBias? || t.LengthBias? || t.NoteProbabilityBias?
  }

  /** The four bias ranges: the `Range` of the sequence's matching step value types. */
  datatype BiasRanges = BiasRanges(gateProbability: int, retriggerProbability: int, length: int, noteVariationProbability: int) {
    /** Each range is symmetric around 0 and fits the `int8_t` the bias is stored in. */
    predicate Valid() {
      && 0 <= gateProbability < 128 && 0 <= retriggerProbability < 128
      && 0 <= length < 128 && 0 <= noteVariationProbability < 128
    }
  }

  /** The interval a parameter's setter clamps into. */
  function Bounds(t: Target, ranges: BiasRanges): (b: (int, int))
    requires IsTrackTarget(t)
    ensures ranges.Valid() ==> -128 <= b.0 <= b.1 < 128
    ensures !t.SlideTime? ==> b.0 == -b.1
  {
    match t
    case SlideTime => (0, 100)
    case Octave => (-10, 10)
    case Transpose => (-100, 100)
    case Rotate => (-64, 64)
    case GateProbabilityBias => (-ranges.gateProbability, ranges.gateProbability)
    case RetriggerProbabilityBias => (-ranges.retriggerProbability, ranges.retriggerProbability)
    case LengthBias => (-ranges.length, ranges.length)
    case NoteProbabilityBias => (-ranges.noteVariationProbability, ranges.noteVariationProbability)
  }

  /** Both copies of a routable parameter lie within its setter's bounds. */
  predicate InBounds(r: Routable<int>, b: (int, int)) {
    b.0 <= r.base <= b.1 && b.0 <= r.routed <= b.1
  }

  /**
   * A parameter written through its setter keeps both copies in bounds,
   * whatever value and copy the write names, and reads back as the value
   * clamped.
   */
  lemma SetterKeepsBounds(r: Routable<int>, t: Target, ranges: BiasRanges, value: int, routed: bool)
    requires IsTrackTarget(t) && ranges.Valid() && InBounds(r, Bounds(t, ranges))
    ensures var b := Bounds(t, ranges);
      var r' := r.Set(Clamp(value, b.0, b.1), routed);
      InBounds(r', b) && r'.Get(routed) == Clamp(value, b.0, b.1) && r'.Get(!routed) == r.Get(!routed)
  {
  }

  /** The parameter block of a logic or stochastic track. */
  class TrackParams {
    var trackIndex: Int8
    /** `Types::PlayMode`, by ordinal. */
    var playMode: int
    var fillMode: FillMode
    var fillMuted: bool
    var cvUpdateMode: CvUpdateMode
    var slideTime: Routable<int>
    var octave: Routable<int>
    var transpose: Routable<int>
    var rotate: Routable<int>
    var gateProbabilityBias: Routable<int>
    var retriggerProbabilityBias: Routable<int>
    var lengthBias: Routable<int>
    var noteProbabilityBias: Routable<int>

    /** `Types::PlayMode::Last`. */
    const playModeCount: int
    const biasRanges: BiasRanges
    /** `ModelUtils::adjustedByStep(value, offset, step, shift)`. */
    const adjustedByStep: (int, int, int, bool) -> int

    /** The routable parameter a target names. */
    function Param(t: Target): Routable<int>
      requires IsTrackTarget(t)
      reads this
    {
      match t
      case SlideTime => slideTime
      case Octave => octave
      case Transpose => transpose
      case Rotate => rotate
      case GateProbabilityBias => gateProbabilityBias
      case RetriggerProbabilityBias => retriggerProbabilityBias
      case LengthBias => lengthBias
      case NoteProbabilityBias => noteProbabilityBias
    }

    /**
     * Every mode is a real one and every routable parameter, in both of
     * its copies, lies within the bounds its setter clamps to.
     */
    ghost predicate Valid()
      reads this
    {
      && playModeCount >= 1 && biasRanges.Valid()
      && 0 <= playMode < playModeCount && fillMode != FillMode.Last && cvUpdateMode != CvUpdateMode.Last
      && InBounds(slideTime, Bounds(SlideTime, biasRanges)) && InBounds(octave, Bounds(Octave, biasRanges))
      && InBounds(transpose, Bounds(Transpose, biasRanges)) && InBounds(rotate, Bounds(Rotate, biasRanges))
      && InBounds(gateProbabilityBias, Bounds(GateProbabilityBias, biasRanges))
      && InBounds(retriggerProbabilityBias, Bounds(RetriggerProbabilityBias, biasRanges))
      && InBounds(lengthBias, Bounds(LengthBias, biasRanges))
      && InBounds(noteProbabilityBias, Bounds(NoteProbabilityBias, biasRanges))
    }

    /**
     * The parameters start at the first mode of each enumeration and at
     * zero; the tracks' `clear`, which sets their real defaults, is not
     * part of this model.
     */
    constructor(playModeCount: int, biasRanges: BiasRanges, adjustedByStep: (int, int, int, bool) -> int)
      requires playModeCount >= 1 && biasRanges.Valid()
      ensures Valid() && trackIndex == -1
      ensures this.playModeCount == playModeCount && this.biasRanges == biasRanges
      ensures this.adjustedByStep == adjustedByStep
    {
      this.playModeCount := playModeCount;
      this.biasRanges := biasRanges;
      this.adjustedByStep := adjustedByStep;
      trackIndex := -1;
      playMode, fillMode, fillMuted, cvUpdateMode := 0, FillMode.None, false, Gate;
      slideTime, octave, transpose, rotate := Routable(0, 0), Routable(0, 0), Routable(0, 0), Routable(0, 0);
      gateProbabilityBias, retriggerProbabilityBias := Routable(0, 0), Routable(0, 0);
      lengthBias, noteProbabilityBias := Routable(0, 0), Routable(0, 0);
    }

    /** `isRouted(target)`: whether a route drives `target` on this track. */
    predicate IsRouted(rt: RouteTable, t: Target)
      reads this
    {
      rt.IsRouted(t, trackIndex)
    }

    /** `slideTime()`, `octave()`, ...: the routed copy while routed, the stored one otherwise. */
    function Value(rt: RouteTable, t: Target): (r: int)
      requires Valid() && IsTrackTarget(t)
      reads this
      ensures Bounds(t, biasRanges).0 <= r <= Bounds(t, biasRanges).1
      ensures r == Param(t).Get(IsRouted(rt, t))
    {
      Param(t).Get(IsRouted(rt, t))
    }

    /**
     * `setSlideTime`, `setOctave`, ..., `setNoteProbabilityBias`: the value
     * clamped into the parameter's bounds, written to the routed or the
     * stored copy; every other parameter is kept.
     */
    method SetParam(t: Target, value: int, routed: bool)
      requires Valid() && IsTrackTarget(t)
      modifies this`slideTime, this`octave, this`transpose, this`rotate
      modifies this`gateProbabilityBias, this`retriggerProbabilityBias, this`lengthBias, this`noteProbabilityBias
      ensures Valid()
      ensures Param(t) == old(Param(t)).Set(Clamp(value, Bounds(t, biasRanges).0, Bounds(t, biasRanges).1), routed)
      ensures forall u :: IsTrackTarget(u) && u != t ==> Param(u) == old(Param(u))
    {
      var b := Bounds(t, biasRanges);
      var v := Clamp(value, b.0, b.1);
      match t
      case SlideTime => slideTime := slideTime.Set(v, routed);
      case Octave => octave := octave.Set(v, routed);
      case Transpose => transpose := transpose.Set(v, routed);
      case Rotate => rotate := rotate.Set(v, routed);
      case GateProbabilityBias => gateProbabilityBias := gateProbabilityBias.Set(v, routed);
      case RetriggerProbabilityBias => retriggerProbabilityBias := retriggerProbabilityBias.Set(v, routed);
      case LengthBias => lengthBias := lengthBias.Set(v, routed);
      case NoteProbabilityBias => noteProbabilityBias := noteProbabilityBias.Set(v, routed);
    }

    /** The value an edit by `value` asks for: slide time moves in steps of 5 unless shift is held. */
    function EditedValue(t: Target, current: int, value: int, shift: bool): int
      reads this
    {
      if t.SlideTime? then adjustedByStep(current, value, 5, !shift) else current + value
    }

    /**
     * `editSlideTime`, `editOctave`, ...: nothing while the parameter is
     * routed; otherwise the stored copy moves by the edit and is clamped.
     */
    method EditParam(t: Target, value: int, shift: bool, rt: RouteTable)
      requires Valid() && IsTrackTarget(t)
      modifies this`slideTime, this`octave, this`transpose, this`rotate
      modifies this`gateProbabilityBias, this`retriggerProbabilityBias, this`lengthBias, this`noteProbabilityBias
      ensures Valid()
      ensures IsRouted(rt, t) ==> forall u :: IsTrackTarget(u) ==> Param(u) == old(Param(u))
      ensures !IsRouted(rt, t) ==>
        Param(t) == old(Param(t)).(base := Clamp(EditedValue(t, old(Param(t)).base, value, shift),
                                                 Bounds(t, biasRanges).0, Bounds(t, biasRanges).1))
      ensures forall u :: IsTrackTarget(u) && u != t ==> Param(u) == old(Param(u))
    {
      if !IsRouted(rt, t) {
        SetParam(t, EditedValue(t, Value(rt, t), value, shift), false);
      }
    }

    /** `setPlayMode`: the ordinal clamped into the play modes. */
    method SetPlayMode(ordinal: int)
      requires Valid()
      modifies this`playMode
      ensures Valid()
      ensures playMode == ClampedEnum(ordinal, playModeCount)
    {
      playMode := ClampedEnum(ordinal, playModeCount);
    }

    /** `editPlayMode`: the play mode moved by `value` ordinals, then clamped. */
    method EditPlayMode(value: int, shift: bool)
      requires Valid()
      modifies this`playMode
      ensures Valid()
      ensures playMode == ClampedEnum(old(playMode) + value, playModeCount)
    {
      SetPlayMode(playMode + value);
    }

    /** `setFillMode`: the ordinal clamped into the fill modes. */
    method SetFillMode(ordinal: int)
      requires Valid()
      modifies this`fillMode
      ensures Valid()
      ensures fillMode == FillModeFromOrdinal(ClampedEnum(ordinal, FillModeCount))
      ensures 0 <= ordinal < FillModeCount ==> FillModeOrdinal(fillMode) == ordinal
    {
      fillMode := FillModeFromOrdinal(ClampedEnum(ordinal, FillModeCount));
    }

    /** `editFillMode`. */
    method EditFillMode(value: int, shift: bool)
      requires Valid()
      modifies this`fillMode
      ensures Valid()
      ensures fillMode == FillModeFromOrdinal(ClampedEnum(FillModeOrdinal(old(fillMode)) + value, FillModeCount))
    {
      SetFillMode(FillModeOrdinal(fillMode) + value);
    }

    method SetFillMuted(value: bool)
      requires Valid()
      modifies this`fillMuted
      ensures Valid() && fillMuted == value
    {
      fillMuted := value;
    }

    /** `editFillMuted`: a positive edit turns it on, any other turns it off. */
    method EditFillMuted(value: int, shift: bool)
      requires Valid()
      modifies this`fillMuted
      ensures Valid() && fillMuted == (value > 0)
    {
      SetFillMuted(value > 0);
    }

    /** `setCvUpdateMode`: the ordinal clamped into the CV update modes. */
    method SetCvUpdateMode(ordinal: int)
      requires Valid()
      modifies this`cvUpdateMode
      ensures Valid()
      ensures cvUpdateMode == CvUpdateModeFromOrdinal(ClampedEnum(ordinal, CvUpdateModeCount))
      ensures 0 <= ordinal < CvUpdateModeCount ==> CvUpdateModeOrdinal(cvUpdateMode) == ordinal
    {
      cvUpdateMode := CvUpdateModeFromOrdinal(ClampedEnum(ordinal, CvUpdateModeCount));
    }

    /** `editCvUpdateMode`. */
    method EditCvUpdateMode(value: int, shift: bool)
      requires Valid()
      modifies this`cvUpdateMode
      ensures Valid()
      ensures cvUpdateMode == CvUpdateModeFromOrdinal(ClampedEnum(CvUpdateModeOrdinal(old(cvUpdateMode)) + value, CvUpdateModeCount))
    {
      SetCvUpdateMode(CvUpdateModeOrdinal(cvUpdateMode) + value);
    }

    /** The track's own part of `setTrackIndex`: the index stored in an `int8_t`. */
    method SetTrackIndex(index: int)
      requires Valid()
      modifies this`trackIndex
      ensures Valid() && trackIndex == ToInt8(index)
    {
      trackIndex := ToInt8(index);
    }
  }
}
