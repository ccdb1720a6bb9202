/**
 * `StochasticSequence`: the routable scalar parameters of a stochastic
 * sequence, its first/last step bounds, its loop flags and message, and
 * its fixed array of steps.
 *
 * Each parameter that a route can drive is a `Routable` (a stored and a
 * routed copy); which copy a getter reads depends on whether the routing
 * engine has an active route for that target on the sequence's track. The
 * routing engine's state is the `RouteTable` argument of the getters and
 * of the operations that consult it.
 */
module StochasticSequences {
  import opened Values
  import opened Routing
  import opened Serialize
  import opened StochasticSteps
  import opened StochasticSequenceIO

  /** `StochasticSequence::Message`: the notice the UI shows after an operation. */
  datatype Message = None | LoopOn | LoopOff | Cleared | ReSeed

  /** `NoteVariationProbability::Range` (an `UnsignedValue<4>`), the bound of the length modifier. */
  const LengthModifierRange := 16

  /** The fields of a sequence other than its steps. */
  datatype SequenceState = SequenceState(
    trackIndex: Int8, scale: Routable<Int8>, rootNote: Routable<Int8>, divisor: Routable<Uint16>,
    resetMeasure: Uint8, runMode: Routable<Uint8>, firstStep: Uint8, lastStep: Uint8,
    reseed: Routable<bool>, restProbability2: Routable<Int8>, restProbability4: Routable<Int8>,
    restProbability8: Routable<Int8>, sequenceLastStep: Routable<Uint8>,
    sequenceFirstStep: Routable<Uint8>, lowOctaveRange: Routable<Int8>,
    highOctaveRange: Routable<Int8>, lengthModifier: Routable<Int8>,
    useLoop: bool, clearLoop: bool, message: Message)

  /** The step `clearSteps` leaves at index `i`: a cleared step, with note `i` among the first twelve. */
  function DefaultStep(i: int): Step {
    if 0 <= i < 12 then ClearedStep.(note := i + 64) else ClearedStep
  }

  /**
   * `DefaultStep` is a cleared step (`ClearedIsClearedStep` ties
   * `ClearedStep` to `Step::clear`) followed, among the first twelve
   * steps, by `setNote(i)`: an empty step whose note is its index.
   */
  lemma DefaultStepIsCleared(i: int)
    ensures DefaultStep(i) == if 0 <= i < 12 then ClearedStep.SetNote(i) else ClearedStep
    ensures 0 <= i < 12 ==> DefaultStep(i).Note() == i
    ensures !DefaultStep(i).Gate()
  {
    if 0 <= i < 12 {
      SetNoteStored(ClearedStep, i);
    }
  }

  //----------------------------------------
  // The octave range reset of `clear`
  //----------------------------------------

  /**
   * The two octave-range resets of `clear` as the firmware orders them:
   * the low bound is clamped against the current high bound, then the high
   * bound against the new low bound; both write the stored copies.
   */
  function ClearOctaveRangeAsWritten(low: Routable<Int8>, high: Routable<Int8>,
                                     lowRouted: bool, highRouted: bool): (Routable<Int8>, Routable<Int8>)
  {
    var low' := low.Set(Clamp(0, -10, high.Get(highRouted)), false);
    var high' := high.Set(Clamp(0, low'.Get(lowRouted), 10), false);
    (low', high')
  }

  /**
   * A high bound below zero survives the reset as the low bound: the reset
   * leaves the low bound at `max(-10, high)` instead of 0.
   */
  lemma ClearOctaveRangeAsWrittenKeepsNegativeLow(low: Routable<Int8>, high: Routable<Int8>)
    requires high.base < 0
    ensures ClearOctaveRangeAsWritten(low, high, false, false).0.base == Max(-10, high.base) != 0
    ensures ClearOctaveRangeAsWritten(Routable(-5, 0), Routable(-3, 0), false, false)
      == (Routable(-3, 0), Routable(0, 0))
  {
  }

  /** The octave-range reset `clear` intends: both stored bounds 0, the routed copies kept. */
  function ClearOctaveRange(low: Routable<Int8>, high: Routable<Int8>): (r: (Routable<Int8>, Routable<Int8>))
    ensures r.0.Get(false) == 0 && r.1.Get(false) == 0
    ensures r.0.Get(true) == low.Get(true) && r.1.Get(true) == high.Get(true)
  {
    (low.Set(0, false), high.Set(0, false))
  }

  /** The intended reset agrees with the firmware's whenever the high bound is not negative. */
  lemma ClearOctaveRangeAgrees(low: Routable<Int8>, high: Routable<Int8>)
    requires high.base >= 0
    ensures ClearOctaveRangeAsWritten(low, high, false, false) == ClearOctaveRange(low, high)
  {
  }

  //----------------------------------------
  // Sequence
  //----------------------------------------

  class StochasticSequence {
    var trackIndex: Int8
    var scale: Routable<Int8>
    var rootNote: Routable<Int8>
    var divisor: Routable<Uint16>
    var resetMeasure: Uint8
    var runMode: Routable<Uint8>
    var firstStep: Uint8
    var lastStep: Uint8
    var reseed: Routable<bool>
    var restProbability2: Routable<Int8>
    var restProbability4: Routable<Int8>
    var restProbability8: Routable<Int8>
    var sequenceLastStep: Routable<Uint8>
    var sequenceFirstStep: Routable<Uint8>
    var lowOctaveRange: Routable<Int8>
    var highOctaveRange: Routable<Int8>
    var lengthModifier: Routable<Int8>
    var useLoop: bool
    var clearLoop: bool
    var message: Message

    /** `_steps`, of `CONFIG_STEP_COUNT` steps. */
    const steps: array<Step>

    /** `Scale::Count`, `Types::RunMode::Last` and `Types::Condition::Last`. */
    const scaleCount: int
    const runModeCount: int
    const conditionCount: int
    /** `ModelUtils::clampDivisor`. */
    const clampDivisor: int -> Uint16

    /**
     * The constants fit the fields that hold them: scales and run modes
     * in their byte-wide fields, and the step count between the 16 steps
     * `clear` addresses and the 256 an 8-bit step index reaches.
     */
    predicate Valid() {
      && 1 <= scaleCount <= 128 && 1 <= runModeCount <= 256
      && ValidConditionCount(conditionCount)
      && 16 <= steps.Length <= 256
    }

    function State(): SequenceState
      reads this
    {
      SequenceState(trackIndex, scale, rootNote, divisor, resetMeasure, runMode, firstStep, lastStep,
        reseed, restProbability2, restProbability4, restProbability8, sequenceLastStep,
        sequenceFirstStep, lowOctaveRange, highOctaveRange, lengthModifier, useLoop, clearLoop, message)
    }

    /** `StochasticSequence()`: the fields start cleared, then `clear` runs. */
    constructor(stepCount: nat, scaleCount: int, runModeCount: int, conditionCount: int,
                clampDivisor: int -> Uint16, rt: RouteTable)
      requires 1 <= scaleCount <= 128 && 1 <= runModeCount <= 256
      requires ValidConditionCount(conditionCount) && 16 <= stepCount <= 256
      ensures Valid() && steps.Length == stepCount && fresh(steps)
      ensures trackIndex == -1 && !useLoop && !clearLoop
      ensures scale == Routable(-1, 0) && rootNote == Routable(-1, 0)
      ensures divisor == Routable(clampDivisor(12), 0)
      ensures resetMeasure == 0 && runMode == Routable(0, 0) && firstStep == 0 && lastStep == 0
      ensures sequenceFirstStep == Routable(0, 0) && sequenceLastStep == Routable(15, 0)
      ensures restProbability2 == Routable(0, 0) && restProbability4 == Routable(0, 0) && restProbability8 == Routable(0, 0)
      ensures lowOctaveRange == Routable(0, 0) && highOctaveRange == Routable(0, 0) && lengthModifier == Routable(0, 0)
      ensures reseed == Routable(false, false) && message == Message.None
      ensures forall i :: 0 <= i < steps.Length ==> steps[i] == DefaultStep(i)
    {
      this.scaleCount := scaleCount;
      this.runModeCount := runModeCount;
      this.conditionCount := conditionCount;
      this.clampDivisor := clampDivisor;
      steps := new Step[stepCount](i => ResetStep);
      trackIndex := -1;
      scale, rootNote, divisor := Routable(0, 0), Routable(0, 0), Routable(0, 0);
      resetMeasure, runMode, firstStep, lastStep := 0, Routable(0, 0), 0, 0;
      reseed := Routable(false, false);
      restProbability2, restProbability4, restProbability8 := Routable(0, 0), Routable(0, 0), Routable(0, 0);
      sequenceLastStep, sequenceFirstStep := Routable(0, 0), Routable(0, 0);
      lowOctaveRange, highOctaveRange, lengthModifier := Routable(0, 0), Routable(0, 0), Routable(0, 0);
      useLoop, clearLoop, message := false, false, Message.None;
      new;
      Clear(rt);
    }

    /** `isRouted(target)`: whether a route drives `target` on this sequence's track. */
    predicate IsRouted(rt: RouteTable, target: Target)
      reads this`trackIndex
    {
      rt.IsRouted(target, trackIndex)
    }

    /** `setTrackIndex`: the track this sequence belongs to, stored in an `int8_t`. */
    method SetTrackIndex(index: int)
      modifies this`trackIndex
      ensures trackIndex == ToInt8(index)
      ensures -128 <= index < 128 ==> trackIndex == index
      ensures State() == old(State()).(trackIndex := ToInt8(index))
    {
      trackIndex := ToInt8(index);
    }

    //----------------------------------------
    // Scale and root note
    //----------------------------------------

    function Scale(rt: RouteTable): int
      reads this`scale, this`trackIndex
    {
      scale.Get(IsRouted(rt, Target.Scale))
    }

    /** `setScale`: -1 (the project's scale) up to the last scale. */
    method SetScale(value: int, routed: bool)
      requires Valid()
      modifies this`scale
      ensures scale == old(scale).Set(Clamp(value, -1, scaleCount - 1), routed)
      ensures -1 <= scale.Get(routed) < scaleCount
    {
      scale := scale.Set(Clamp(value, -1, scaleCount - 1), routed);
    }

    /** `indexedScale`: the scale counted from 0 for "default". */
    function IndexedScale(rt: RouteTable): int
      reads this`scale, this`trackIndex
    {
      Scale(rt) + 1
    }

    /** `setIndexedScale`: the stored scale whose index is `index`. */
    method SetIndexedScale(index: int, ghost rt: RouteTable)
      requires Valid()
      modifies this`scale
      ensures scale == old(scale).(base := Clamp(index - 1, -1, scaleCount - 1))
      ensures !IsRouted(rt, Target.Scale) ==> IndexedScale(rt) == Clamp(index, 0, scaleCount)
    {
      SetScale(index - 1, false);
    }

    /** `editScale`: selects the scale `value` unless the scale is routed. */
    method EditScale(value: int, shift: bool, rt: RouteTable)
      requires Valid()
      modifies this`scale
      ensures IsRouted(rt, Target.Scale) ==> scale == old(scale)
      ensures !IsRouted(rt, Target.Scale) ==> scale == old(scale).(base := Clamp(value, -1, scaleCount - 1))
    {
      if !IsRouted(rt, Target.Scale) {
        SetScale(value, false);
      }
    }

    /** `selectedScale`: the sequence's scale, or `defaultScale` when it has none. */
    function SelectedScale(defaultScale: int, rt: RouteTable): (r: int)
      reads this`scale, this`trackIndex
      ensures Scale(rt) >= 0 ==> r == Scale(rt)
      ensures Scale(rt) < 0 ==> r == defaultScale
    {
      if Scale(rt) < 0 then defaultScale else Scale(rt)
    }

    function RootNote(rt: RouteTable): int
      reads this`rootNote, this`trackIndex
    {
      rootNote.Get(IsRouted(rt, Target.RootNote))
    }

    /** `setRootNote`: -1 (the project's root note) or a semitone 0 .. 11. */
    method SetRootNote(value: int, routed: bool)
      modifies this`rootNote
      ensures rootNote == old(rootNote).Set(Clamp(value, -1, 11), routed)
      ensures -1 <= rootNote.Get(routed) <= 11
    {
      rootNote := rootNote.Set(Clamp(value, -1, 11), routed);
    }

    function IndexedRootNote(rt: RouteTable): int
      reads this`rootNote, this`trackIndex
    {
      RootNote(rt) + 1
    }

    method SetIndexedRootNote(index: int, ghost rt: RouteTable)
      modifies this`rootNote
      ensures rootNote == old(rootNote).(base := Clamp(index - 1, -1, 11))
      ensures !IsRouted(rt, Target.RootNote) ==> IndexedRootNote(rt) == Clamp(index, 0, 12)
    {
      SetRootNote(index - 1, false);
    }

    /** `editRootNote`: moves the root note by `value` unless it is routed. */
    method EditRootNote(value: int, shift: bool, rt: RouteTable)
      modifies this`rootNote
      ensures IsRouted(rt, Target.RootNote) ==> rootNote == old(rootNote)
      ensures !IsRouted(rt, Target.RootNote) ==>
        rootNote == old(rootNote).(base := Clamp(old(rootNote.base) + value, -1, 11))
    {
      if !IsRouted(rt, Target.RootNote) {
        SetRootNote(RootNote(rt) + value, false);
      }
    }

    /** `selectedRootNote`: the sequence's root note, or `defaultRootNote` when it has none. */
    function SelectedRootNote(defaultRootNote: int, rt: RouteTable): (r: int)
      reads this`rootNote, this`trackIndex
      ensures RootNote(rt) >= 0 ==> r == RootNote(rt)
      ensures RootNote(rt) < 0 ==> r == defaultRootNote
    {
      if RootNote(rt) < 0 then defaultRootNote else RootNote(rt)
    }

    //----------------------------------------
    // Divisor, reset measure, run mode
    //----------------------------------------

    function Divisor(rt: RouteTable): int
      reads this`divisor, this`trackIndex
    {
      divisor.Get(IsRouted(rt, Target.Divisor))
    }

    method SetDivisor(value: int, routed: bool)
      modifies this`divisor
      ensures divisor == old(divisor).Set(clampDivisor(value), routed)
    {
      divisor := divisor.Set(clampDivisor(value), routed);
    }

    /** `setResetMeasure`: off (0) up to 128 bars; not routable. */
    method SetResetMeasure(value: int)
      modifies this`resetMeasure
      ensures resetMeasure == Clamp(value, 0, 128)
    {
      resetMeasure := Clamp(value, 0, 128);
    }

    function RunMode(rt: RouteTable): int
      reads this`runMode, this`trackIndex
    {
      runMode.Get(IsRouted(rt, Target.RunMode))
    }

    /** `setRunMode`: the mode ordinal clamped to the enumeration. */
    method SetRunMode(value: int, routed: bool)
      requires Valid()
      modifies this`runMode
      ensures runMode == old(runMode).Set(ClampedEnum(value, runModeCount), routed)
      ensures 0 <= runMode.Get(routed) < runModeCount
    {
      runMode := runMode.Set(ClampedEnum(value, runModeCount), routed);
    }

    /** `editRunMode`: the run mode moved by `value` and clamped, unless it is routed. */
    method EditRunMode(value: int, shift: bool, rt: RouteTable)
      requires Valid()
      modifies this`runMode
      ensures IsRouted(rt, Target.RunMode) ==> runMode == old(runMode)
      ensures !IsRouted(rt, Target.RunMode) ==>
        runMode == old(runMode).(base := ClampedEnum(old(RunMode(rt)) + value, runModeCount))
    {
      if !IsRouted(rt, Target.RunMode) {
        SetRunMode(RunMode(rt) + value, false);
      }
    }

    //----------------------------------------
    // First and last step
    //----------------------------------------

    function FirstStep(): int
      reads this`firstStep
    {
      firstStep
    }

    /** `lastStep()`: never before the first step, whatever the stored value. */
    function LastStep(): (r: int)
      reads this`firstStep, this`lastStep
      ensures r >= firstStep && r >= lastStep
      ensures r == firstStep || r == lastStep
    {
      Max(firstStep, lastStep)
    }

    /** The step bounds are ordered and inside the step array. */
    predicate StepBoundsValid()
      reads this`firstStep, this`lastStep
    {
      firstStep <= lastStep < steps.Length
    }

    /** `setFirstStep`: clamped to [0, lastStep()]; the routed flag plays no part. */
    method SetFirstStep(value: int, routed: bool)
      modifies this`firstStep
      ensures firstStep == Clamp(value, 0, old(LastStep()))
      ensures old(StepBoundsValid()) ==> StepBoundsValid()
    {
      firstStep := Clamp(value, 0, LastStep());
    }

    /** `setLastStep`: clamped to [firstStep(), CONFIG_STEP_COUNT - 1]; the routed flag plays no part. */
    method SetLastStep(value: int, routed: bool)
      requires Valid()
      modifies this`lastStep
      ensures lastStep == Clamp(value, firstStep, steps.Length - 1)
      ensures old(firstStep) < steps.Length ==> StepBoundsValid()
    {
      lastStep := Clamp(value, firstStep, steps.Length - 1);
    }

    /** `editFirstStep`: with shift, moves both bounds; otherwise moves the first step. */
    method EditFirstStep(value: int, shift: bool)
      requires Valid()
      modifies this`firstStep, this`lastStep
      ensures !shift ==> firstStep == Clamp(old(firstStep) + value, 0, old(LastStep())) && lastStep == old(lastStep)
      ensures shift ==> OffsetSteps(old(firstStep), old(LastStep()), value)
      ensures old(StepBoundsValid()) ==> StepBoundsValid()
      decreases if shift then 3 else 0
    {
      if shift {
        OffsetFirstAndLastStep(value);
      } else {
        SetFirstStep(FirstStep() + value, false);
      }
    }

    /** `editLastStep`: with shift, moves both bounds; otherwise moves the last step. */
    method EditLastStep(value: int, shift: bool)
      requires Valid()
      modifies this`firstStep, this`lastStep
      ensures !shift ==> lastStep == Clamp(old(LastStep()) + value, firstStep, steps.Length - 1) && firstStep == old(firstStep)
      ensures shift ==> OffsetSteps(old(firstStep), old(LastStep()), value)
      ensures old(StepBoundsValid()) ==> StepBoundsValid()
      decreases if shift then 3 else 0
    {
      if shift {
        OffsetFirstAndLastStep(value);
      } else {
        SetLastStep(LastStep() + value, false);
      }
    }

    /**
     * The outcome of `offsetFirstAndLastStep(value)` from bounds `first`
     * and `last` (the value `lastStep()` had): as long as the last step lay
     * inside the array, both bounds move by `value` clamped so that the
     * window stays inside the array, and the window keeps its length.
     */
    predicate OffsetSteps(first: int, last: int, value: int)
      reads this`firstStep, this`lastStep
    {
      var v := Clamp(value, -first, steps.Length - 1 - last);
      last < steps.Length ==> firstStep == first + v && lastStep == last + v && LastStep() == last + v
    }

    /** `offsetFirstAndLastStep`: moves the later-moving bound second so neither clamps the other. */
    method OffsetFirstAndLastStep(value: int)
      requires Valid()
      modifies this`firstStep, this`lastStep
      ensures OffsetSteps(old(firstStep), old(LastStep()), value)
      ensures old(StepBoundsValid()) ==> StepBoundsValid()
      decreases 1
    {
      var v := Clamp(value, -FirstStep(), steps.Length - 1 - LastStep());
      if v > 0 {
        EditLastStep(v, false);
        EditFirstStep(v, false);
      } else {
        EditFirstStep(v, false);
        EditLastStep(v, false);
      }
    }

    /** `setStepBounds`: both bounds set to `index`, stored as bytes. */
    method SetStepBounds(index: int)
      requires Valid()
      modifies this`firstStep, this`lastStep
      ensures firstStep == ToUint8(index) && lastStep == ToUint8(index)
      ensures 0 <= index < steps.Length ==> StepBoundsValid() && FirstStep() == LastStep() == index
    {
      firstStep := ToUint8(index);
      lastStep := ToUint8(index);
    }

    //----------------------------------------
    // Rest probabilities
    //----------------------------------------

    function RestProbability2(rt: RouteTable): int
      reads this`restProbability2, this`trackIndex
    {
      restProbability2.Get(IsRouted(rt, Target.RestProbability2))
    }

    function RestProbability4(rt: RouteTable): int
      reads this`restProbability4, this`trackIndex
    {
      restProbability4.Get(IsRouted(rt, Target.RestProbability4))
    }

    function RestProbability8(rt: RouteTable): int
      reads this`restProbability8, this`trackIndex
    {
      restProbability8.Get(IsRouted(rt, Target.RestProbability8))
    }

    /**
     * `restProbability()`: the share of the 15 probability units that the
     * 2-, 4- and 8-step rests leave over, never negative.
     */
    function RestProbability(rt: RouteTable): (r: int)
      reads this`restProbability2, this`restProbability4, this`restProbability8, this`trackIndex
      ensures r >= 0
      ensures var used := RestProbability2(rt) + RestProbability4(rt) + RestProbability8(rt);
        (used <= 15 ==> r + used == 15) && (used >= 15 ==> r == 0)
    {
      var p := 15 - RestProbability2(rt) - RestProbability4(rt) - RestProbability8(rt);
      if p < 0 then 0 else p
    }

    method SetRestProbability2(value: int, routed: bool)
      modifies this`restProbability2
      ensures restProbability2 == old(restProbability2).Set(Clamp(value, 0, 15), routed)
    {
      restProbability2 := restProbability2.Set(Clamp(value, 0, 15), routed);
    }

    method SetRestProbability4(value: int, routed: bool)
      modifies this`restProbability4
      ensures restProbability4 == old(restProbability4).Set(Clamp(value, 0, 15), routed)
    {
      restProbability4 := restProbability4.Set(Clamp(value, 0, 15), routed);
    }

    method SetRestProbability8(value: int, routed: bool)
      modifies this`restProbability8
      ensures restProbability8 == old(restProbability8).Set(Clamp(value, 0, 15), routed)
    {
      restProbability8 := restProbability8.Set(Clamp(value, 0, 15), routed);
    }

    method EditRestProbability2(value: int, shift: bool, rt: RouteTable)
      modifies this`restProbability2
      ensures IsRouted(rt, Target.RestProbability2) ==> restProbability2 == old(restProbability2)
      ensures !IsRouted(rt, Target.RestProbability2) ==>
        restProbability2 == old(restProbability2).(base := Clamp(old(restProbability2.base) + value, 0, 15))
    {
      if !IsRouted(rt, Target.RestProbability2) {
        SetRestProbability2(RestProbability2(rt) + value, false);
      }
    }

    method EditRestProbability4(value: int, shift: bool, rt: RouteTable)
      modifies this`restProbability4
      ensures IsRouted(rt, Target.RestProbability4) ==> restProbability4 == old(restProbability4)
      ensures !IsRouted(rt, Target.RestProbability4) ==>
        restProbability4 == old(restProbability4).(base := Clamp(old(restProbability4.base) + value, 0, 15))
    {
      if !IsRouted(rt, Target.RestProbability4) {
        SetRestProbability4(RestProbability4(rt) + value, false);
      }
    }

    method EditRestProbability8(value: int, shift: bool, rt: RouteTable)
      modifies this`restProbability8
      ensures IsRouted(rt, Target.RestProbability8) ==> restProbability8 == old(restProbability8)
      ensures !IsRouted(rt, Target.RestProbability8) ==>
        restProbability8 == old(restProbability8).(base := Clamp(old(restProbability8.base) + value, 0, 15))
    {
      if !IsRouted(rt, Target.RestProbability8) {
        SetRestProbability8(RestProbability8(rt) + value, false);
      }
    }

    //----------------------------------------
    // Reseed
    //----------------------------------------

    function Reseed(rt: RouteTable): bool
      reads this`reseed, this`trackIndex
    {
      reseed.Get(IsRouted(rt, Target.Reseed))
    }

    /**
     * `setReseed`: while Reseed is routed no write lands, not even a
     * routed one; afterwards the reseed message is posted whenever the
     * value the sequence reads is set.
     */
    method SetReseed(value: int, routed: bool, rt: RouteTable)
      modifies this`reseed, this`message
      ensures reseed == if IsRouted(rt, Target.Reseed) then old(reseed) else old(reseed).Set(value != 0, routed)
      ensures message == if Reseed(rt) then Message.ReSeed else old(message)
    {
      if !IsRouted(rt, Target.Reseed) {
        reseed := reseed.Set(value != 0, routed);
      }
      if Reseed(rt) {
        SetMessage(Message.ReSeed);
      }
    }

    //----------------------------------------
    // Sequence loop bounds
    //----------------------------------------

    function SequenceFirstStep(rt: RouteTable): int
      reads this`sequenceFirstStep, this`trackIndex
    {
      sequenceFirstStep.Get(IsRouted(rt, Target.SequenceFirstStep))
    }

    /** `sequenceLastStep()`: never before the sequence's first step. */
    function SequenceLastStep(rt: RouteTable): (r: int)
      reads this`sequenceFirstStep, this`sequenceLastStep, this`trackIndex
      ensures r >= SequenceFirstStep(rt)
      ensures r == SequenceFirstStep(rt) || r == sequenceLastStep.Get(IsRouted(rt, Target.SequenceLastStep))
    {
      Max(SequenceFirstStep(rt), sequenceLastStep.Get(IsRouted(rt, Target.SequenceLastStep)))
    }

    method SetSequenceLastStep(value: int, routed: bool, rt: RouteTable)
      requires Valid()
      modifies this`sequenceLastStep
      ensures sequenceLastStep == old(sequenceLastStep).Set(Clamp(value, old(SequenceFirstStep(rt)), steps.Length - 1), routed)
    {
      sequenceLastStep := sequenceLastStep.Set(Clamp(value, SequenceFirstStep(rt), steps.Length - 1), routed);
    }

    method SetSequenceFirstStep(value: int, routed: bool, rt: RouteTable)
      modifies this`sequenceFirstStep
      ensures sequenceFirstStep == old(sequenceFirstStep).Set(Clamp(value, 0, old(SequenceLastStep(rt))), routed)
    {
      sequenceFirstStep := sequenceFirstStep.Set(Clamp(value, 0, SequenceLastStep(rt)), routed);
    }

    /** The sequence loop bounds are read from their stored copies. */
    predicate LoopBoundsUnrouted(rt: RouteTable)
      reads this`trackIndex
    {
      !IsRouted(rt, Target.SequenceFirstStep) && !IsRouted(rt, Target.SequenceLastStep)
    }

    /** `editSequenceLastStep`: with shift, moves both loop bounds; otherwise the last, unless it is routed. */
    method EditSequenceLastStep(value: int, shift: bool, rt: RouteTable)
      requires Valid()
      modifies this`sequenceFirstStep, this`sequenceLastStep
      ensures !shift ==> sequenceFirstStep == old(sequenceFirstStep)
      ensures !shift ==> sequenceLastStep == if IsRouted(rt, Target.SequenceLastStep) then old(sequenceLastStep)
        else old(sequenceLastStep).Set(Clamp(old(SequenceLastStep(rt)) + value, old(SequenceFirstStep(rt)), steps.Length - 1), false)
      ensures shift && LoopBoundsUnrouted(rt) && !IsRouted(rt, Target.FirstStep) ==>
        OffsetLoop(old(SequenceFirstStep(rt)), old(SequenceLastStep(rt)), value)
      ensures shift ==> LoopOffsetBy(old(sequenceFirstStep), old(sequenceLastStep),
        Clamp(value, -old(SequenceFirstStep(rt)), steps.Length - 1 - old(SequenceLastStep(rt))), rt)
      decreases if shift then 3 else 0
    {
      if shift {
        OffsetSequenceFirstAndLastStep(value, rt);
      } else if !IsRouted(rt, Target.SequenceLastStep) {
        SetSequenceLastStep(SequenceLastStep(rt) + value, false, rt);
      }
    }

    /**
     * `editSequenceFirstStep`: with shift, moves both loop bounds;
     * otherwise the first, unless the track's `FirstStep` target (not
     * `SequenceFirstStep`) is routed.
     */
    method EditSequenceFirstStep(value: int, shift: bool, rt: RouteTable)
      requires Valid()
      modifies this`sequenceFirstStep, this`sequenceLastStep
      ensures !shift ==> sequenceLastStep == old(sequenceLastStep)
      ensures !shift ==> sequenceFirstStep == if IsRouted(rt, Target.FirstStep) then old(sequenceFirstStep)
        else old(sequenceFirstStep).Set(Clamp(old(SequenceFirstStep(rt)) + value, 0, old(SequenceLastStep(rt))), false)
      ensures shift && LoopBoundsUnrouted(rt) && !IsRouted(rt, Target.FirstStep) ==>
        OffsetLoop(old(SequenceFirstStep(rt)), old(SequenceLastStep(rt)), value)
      ensures shift ==> LoopOffsetBy(old(sequenceFirstStep), old(sequenceLastStep),
        Clamp(value, -old(SequenceFirstStep(rt)), steps.Length - 1 - old(SequenceLastStep(rt))), rt)
      decreases if shift then 3 else 0
    {
      if shift {
        OffsetSequenceFirstAndLastStep(value, rt);
      } else if !IsRouted(rt, Target.FirstStep) {
        SetSequenceFirstStep(SequenceFirstStep(rt) + value, false, rt);
      }
    }

    /** As `OffsetSteps`, for the stored sequence loop bounds. */
    predicate OffsetLoop(first: int, last: int, value: int)
      reads this`sequenceFirstStep, this`sequenceLastStep
    {
      var v := Clamp(value, -first, steps.Length - 1 - last);
      last < steps.Length ==> sequenceFirstStep.base == first + v && sequenceLastStep.base == last + v
    }

    /**
     * The stored loop bounds after the two route-gated edits by `v`, from
     * the copies `first` and `last`: the bound that moves away from the
     * other is edited first, and each edit is clamped against the other
     * bound as it reads then. A routed `SequenceLastStep` keeps its stored
     * copy, and so does the stored first step while `FirstStep` is routed.
     */
    predicate LoopOffsetBy(first: Routable<Uint8>, last: Routable<Uint8>, v: int, rt: RouteTable)
      reads this`sequenceFirstStep, this`sequenceLastStep, this`trackIndex
    {
      var routedFirst, routedLast := IsRouted(rt, Target.SequenceFirstStep), IsRouted(rt, Target.SequenceLastStep);
      var gatedFirst := IsRouted(rt, Target.FirstStep);
      var first0 := first.Get(routedFirst);
      var last0 := Max(first0, last.Get(routedLast));
      if v > 0 then
        var lastBase := if routedLast then last.base else Clamp(last0 + v, first0, steps.Length - 1);
        var last1 := Max(first0, if routedLast then last.routed else lastBase);
        && sequenceLastStep.base == lastBase
        && sequenceFirstStep.base == if gatedFirst then first.base else Clamp(first0 + v, 0, last1)
      else
        var firstBase := if gatedFirst then first.base else Clamp(first0 + v, 0, last0);
        var first1 := if routedFirst then first.routed else firstBase;
        && sequenceFirstStep.base == firstBase
        && sequenceLastStep.base == if routedLast then last.base
          else Clamp(Max(first1, last.Get(routedLast)) + v, first1, steps.Length - 1)
    }

    /**
     * `offsetSequenceFirstAndLastStep`: as `offsetFirstAndLastStep`, through
     * the two route-gated edits; when neither loop bound nor the first step
     * is routed, both stored bounds move by the clamped offset.
     */
    method OffsetSequenceFirstAndLastStep(value: int, rt: RouteTable)
      requires Valid()
      modifies this`sequenceFirstStep, this`sequenceLastStep
      ensures LoopBoundsUnrouted(rt) && !IsRouted(rt, Target.FirstStep) ==>
        OffsetLoop(old(SequenceFirstStep(rt)), old(SequenceLastStep(rt)), value)
      ensures LoopOffsetBy(old(sequenceFirstStep), old(sequenceLastStep),
        Clamp(value, -old(SequenceFirstStep(rt)), steps.Length - 1 - old(SequenceLastStep(rt))), rt)
      ensures sequenceFirstStep.routed == old(sequenceFirstStep.routed)
      ensures sequenceLastStep.routed == old(sequenceLastStep.routed)
      decreases 2
    {
      ghost var first, last := sequenceFirstStep, sequenceLastStep;
      var v := Clamp(value, -SequenceFirstStep(rt), steps.Length - 1 - SequenceLastStep(rt));
      if v > 0 {
        OffsetLoopUp(v, rt);
      } else {
        OffsetLoopDown(v, rt);
      }
      if LoopBoundsUnrouted(rt) && !IsRouted(rt, Target.FirstStep) {
        UnroutedLoopOffset(first, last, value, rt);
      }
    }

    /** The `value > 0` branch of `offsetSequenceFirstAndLastStep`: the last bound, then the first. */
    method OffsetLoopUp(v: int, rt: RouteTable)
      requires Valid() && v > 0
      modifies this`sequenceFirstStep, this`sequenceLastStep
      ensures LoopOffsetBy(old(sequenceFirstStep), old(sequenceLastStep), v, rt)
      ensures sequenceFirstStep.routed == old(sequenceFirstStep.routed)
      ensures sequenceLastStep.routed == old(sequenceLastStep.routed)
      decreases 1
    {
      EditSequenceLastStep(v, false, rt);
      EditSequenceFirstStep(v, false, rt);
    }

    /** The other branch of `offsetSequenceFirstAndLastStep`: the first bound, then the last. */
    method OffsetLoopDown(v: int, rt: RouteTable)
      requires Valid() && v <= 0
      modifies this`sequenceFirstStep, this`sequenceLastStep
      ensures LoopOffsetBy(old(sequenceFirstStep), old(sequenceLastStep), v, rt)
      ensures sequenceFirstStep.routed == old(sequenceFirstStep.routed)
      ensures sequenceLastStep.routed == old(sequenceLastStep.routed)
      decreases 1
    {
      EditSequenceFirstStep(v, false, rt);
      EditSequenceLastStep(v, false, rt);
    }

    /**
     * With neither loop bound nor the first step routed, the two edits
     * move the whole loop by the offset clamped to the steps.
     */
    lemma UnroutedLoopOffset(first: Routable<Uint8>, last: Routable<Uint8>, value: int, rt: RouteTable)
      requires LoopBoundsUnrouted(rt) && !IsRouted(rt, Target.FirstStep)
      requires LoopOffsetBy(first, last, Clamp(value, -(first.base as int), steps.Length - 1 - Max(first.base, last.base)), rt)
      ensures OffsetLoop(first.base, Max(first.base, last.base), value)
    {
    }

    /** `sequenceLength()`: the number of steps of the stored loop, both ends included. */
    function SequenceLength(): (r: int)
      reads this`sequenceFirstStep, this`sequenceLastStep
      ensures sequenceFirstStep.base <= sequenceLastStep.base ==> 1 <= r <= sequenceLastStep.base + 1
    {
      sequenceLastStep.base - sequenceFirstStep.base + 1
    }

    /** `bufferLoopLength()`: 16 steps, or more when the stored loop ends beyond step 15. */
    function BufferLoopLength(): (r: int)
      reads this`sequenceLastStep
      ensures r >= 16 && r > sequenceLastStep.base
      ensures r == 16 || r == sequenceLastStep.base + 1
    {
      if sequenceLastStep.base > 15 then sequenceLastStep.base + 1 else 16
    }

    //----------------------------------------
    // Loop flags and message
    //----------------------------------------

    /** `setUseLoop()`: toggles the loop and posts LoopOn or LoopOff accordingly. */
    method ToggleUseLoop()
      modifies this`useLoop, this`message
      ensures useLoop == !old(useLoop)
      ensures message == if useLoop then Message.LoopOn else Message.LoopOff
    {
      useLoop := !useLoop;
      if useLoop {
        SetMessage(Message.LoopOn);
      } else {
        SetMessage(Message.LoopOff);
      }
    }

    method SetUseLoop(value: bool)
      modifies this`useLoop
      ensures useLoop == value
    {
      useLoop := value;
    }

    /** `setClearLoop`: posts the cleared message when the flag is set. */
    method SetClearLoop(value: bool)
      modifies this`clearLoop, this`message
      ensures clearLoop == value
      ensures message == if value then Message.Cleared else old(message)
    {
      clearLoop := value;
      if clearLoop {
        SetMessage(Message.Cleared);
      }
    }

    method SetMessage(m: Message)
      modifies this`message
      ensures message == m
    {
      message := m;
    }

    //----------------------------------------
    // Octave range and length modifier
    //----------------------------------------

    function LowOctaveRange(rt: RouteTable): int
      reads this`lowOctaveRange, this`trackIndex
    {
      lowOctaveRange.Get(IsRouted(rt, Target.LowOctaveRange))
    }

    function HighOctaveRange(rt: RouteTable): int
      reads this`highOctaveRange, this`trackIndex
    {
      highOctaveRange.Get(IsRouted(rt, Target.HighOctaveRange))
    }

    /** `setLowOctaveRange`: from -10 up to the current high bound. */
    method SetLowOctaveRange(value: int, routed: bool, rt: RouteTable)
      modifies this`lowOctaveRange
      ensures lowOctaveRange == old(lowOctaveRange).Set(Clamp(value, -10, old(HighOctaveRange(rt))), routed)
    {
      lowOctaveRange := lowOctaveRange.Set(Clamp(value, -10, HighOctaveRange(rt)), routed);
    }

    /** `setHighOctaveRange`: from the current low bound up to 10. */
    method SetHighOctaveRange(value: int, routed: bool, rt: RouteTable)
      modifies this`highOctaveRange
      ensures highOctaveRange == old(highOctaveRange).Set(Clamp(value, old(LowOctaveRange(rt)), 10), routed)
    {
      highOctaveRange := highOctaveRange.Set(Clamp(value, LowOctaveRange(rt), 10), routed);
    }

    method EditLowOctaveRange(value: int, shift: bool, rt: RouteTable)
      modifies this`lowOctaveRange
      ensures IsRouted(rt, Target.LowOctaveRange) ==> lowOctaveRange == old(lowOctaveRange)
      ensures !IsRouted(rt, Target.LowOctaveRange) ==>
        lowOctaveRange == old(lowOctaveRange).(base := Clamp(old(lowOctaveRange.base) + value, -10, HighOctaveRange(rt)))
    {
      if !IsRouted(rt, Target.LowOctaveRange) {
        SetLowOctaveRange(LowOctaveRange(rt) + value, false, rt);
      }
    }

    method EditHighOctaveRange(value: int, shift: bool, rt: RouteTable)
      modifies this`highOctaveRange
      ensures IsRouted(rt, Target.HighOctaveRange) ==> highOctaveRange == old(highOctaveRange)
      ensures !IsRouted(rt, Target.HighOctaveRange) ==>
        highOctaveRange == old(highOctaveRange).(base := Clamp(old(highOctaveRange.base) + value, LowOctaveRange(rt), 10))
    {
      if !IsRouted(rt, Target.HighOctaveRange) {
        SetHighOctaveRange(HighOctaveRange(rt) + value, false, rt);
      }
    }

    function LengthModifier(rt: RouteTable): int
      reads this`lengthModifier, this`trackIndex
    {
      lengthModifier.Get(IsRouted(rt, Target.LengthModifier))
    }

    method SetLengthModifier(value: int, routed: bool)
      modifies this`lengthModifier
      ensures lengthModifier == old(lengthModifier).Set(Clamp(value, -LengthModifierRange, LengthModifierRange), routed)
    {
      lengthModifier := lengthModifier.Set(Clamp(value, -LengthModifierRange, LengthModifierRange), routed);
    }

    method EditLengthModifier(value: int, shift: bool, rt: RouteTable)
      modifies this`lengthModifier
      ensures IsRouted(rt, Target.LengthModifier) ==> lengthModifier == old(lengthModifier)
      ensures !IsRouted(rt, Target.LengthModifier) ==>
        lengthModifier == old(lengthModifier).(base :=
          Clamp(old(lengthModifier.base) + value, -LengthModifierRange, LengthModifierRange))
    {
      if !IsRouted(rt, Target.LengthModifier) {
        SetLengthModifier(LengthModifier(rt) + value, false);
      }
    }

    //----------------------------------------
    // Routing
    //----------------------------------------

    /**
     * `writeRouted`: a route's integer value written, as a routed write,
     * to the parameter the target names; any other target changes nothing.
     * The firmware's single switch is split over three groups of targets;
     * each group ignores the targets of the others.
     */
    method WriteRouted(target: Target, value: int, rt: RouteTable)
      requires Valid()
      modifies this`scale, this`rootNote, this`divisor, this`runMode, this`firstStep, this`lastStep,
        this`reseed, this`message, this`restProbability2, this`restProbability4, this`restProbability8,
        this`sequenceFirstStep, this`sequenceLastStep, this`lowOctaveRange, this`highOctaveRange,
        this`lengthModifier
      ensures PlaybackWritten(target, value)
      ensures VariationWritten(target, value, rt)
      ensures LoopWritten(target, value, rt)
    {
      if IsPlaybackTarget(target) {
        WriteRoutedPlayback(target, value, rt);
      } else if IsVariationTarget(target) {
        WriteRoutedVariation(target, value, rt);
      } else {
        WriteRoutedLoop(target, value, rt);
      }
    }

    /** The targets `WriteRoutedPlayback` serves. */
    static predicate IsPlaybackTarget(t: Target) {
      t.Scale? || t.RootNote? || t.Divisor? || t.RunMode? || t.FirstStep? || t.LastStep?
    }

    /** The targets `WriteRoutedVariation` serves. */
    static predicate IsVariationTarget(t: Target) {
      t.Reseed? || t.RestProbability2? || t.RestProbability4? || t.RestProbability8?
    }

    /**
     * A routed write to scale, root note, divisor, run mode or the step
     * bounds: the target's routed copy set through its setter; the others
     * of the group kept.
     */
    twostate predicate PlaybackWritten(target: Target, value: int)
      requires Valid()
      reads this
    {
      && scale == (if target.Scale? then old(scale).Set(Clamp(value, -1, scaleCount - 1), true) else old(scale))
      && rootNote == (if target.RootNote? then old(rootNote).Set(Clamp(value, -1, 11), true) else old(rootNote))
      && divisor == (if target.Divisor? then old(divisor).Set(clampDivisor(value), true) else old(divisor))
      && runMode == (if target.RunMode? then old(runMode).Set(ClampedEnum(value, runModeCount), true) else old(runMode))
      && firstStep == (if target.FirstStep? then Clamp(value, 0, old(LastStep())) else old(firstStep))
      && lastStep == (if target.LastStep? then Clamp(value, firstStep, steps.Length - 1) else old(lastStep))
    }

    /**
     * A routed write to reseed or a rest probability: reseed is taken only
     * while it is not routed, and a set reseed raises the message.
     */
    twostate predicate VariationWritten(target: Target, value: int, rt: RouteTable)
      reads this
    {
      && reseed == (if target.Reseed? && !IsRouted(rt, Target.Reseed) then old(reseed).Set(value != 0, true) else old(reseed))
      && message == (if target.Reseed? && Reseed(rt) then Message.ReSeed else old(message))
      && restProbability2 == (if target.RestProbability2? then old(restProbability2).Set(Clamp(value, 0, 15), true)
                              else old(restProbability2))
      && restProbability4 == (if target.RestProbability4? then old(restProbability4).Set(Clamp(value, 0, 15), true)
                              else old(restProbability4))
      && restProbability8 == (if target.RestProbability8? then old(restProbability8).Set(Clamp(value, 0, 15), true)
                              else old(restProbability8))
    }

    /** A routed write to a loop bound, an octave bound or the length modifier, each clamped against its partner. */
    twostate predicate LoopWritten(target: Target, value: int, rt: RouteTable)
      requires Valid()
      reads this
    {
      && sequenceFirstStep == (if target.SequenceFirstStep?
           then old(sequenceFirstStep).Set(Clamp(value, 0, old(SequenceLastStep(rt))), true) else old(sequenceFirstStep))
      && sequenceLastStep == (if target.SequenceLastStep?
           then old(sequenceLastStep).Set(Clamp(value, old(SequenceFirstStep(rt)), steps.Length - 1), true)
           else old(sequenceLastStep))
      && lowOctaveRange == (if target.LowOctaveRange?
           then old(lowOctaveRange).Set(Clamp(value, -10, old(HighOctaveRange(rt))), true) else old(lowOctaveRange))
      && highOctaveRange == (if target.HighOctaveRange?
           then old(highOctaveRange).Set(Clamp(value, old(LowOctaveRange(rt)), 10), true) else old(highOctaveRange))
      && lengthModifier == (if target.LengthModifier?
           then old(lengthModifier).Set(Clamp(value, -LengthModifierRange, LengthModifierRange), true)
           else old(lengthModifier))
    }

    /** `writeRouted` for scale, root note, divisor, run mode and the step bounds. */
    method WriteRoutedPlayback(target: Target, value: int, rt: RouteTable)
      requires Valid() && IsPlaybackTarget(target)
      modifies this`scale, this`rootNote, this`divisor, this`runMode, this`firstStep, this`lastStep
      ensures PlaybackWritten(target, value) && VariationWritten(target, value, rt) && LoopWritten(target, value, rt)
    {
      match target {
        case Scale => SetScale(value, true);
        case RootNote => SetRootNote(value, true);
        case Divisor => SetDivisor(value, true);
        case RunMode => SetRunMode(value, true);
        case FirstStep => SetFirstStep(value, true);
        case LastStep => SetLastStep(value, true);
      }
    }

    /** `writeRouted` for reseed and the rest probabilities. */
    method WriteRoutedVariation(target: Target, value: int, rt: RouteTable)
      requires Valid() && IsVariationTarget(target)
      modifies this`reseed, this`message, this`restProbability2, this`restProbability4, this`restProbability8
      ensures PlaybackWritten(target, value) && VariationWritten(target, value, rt) && LoopWritten(target, value, rt)
    {
      match target {
        case Reseed => SetReseed(value, true, rt);
        case RestProbability2 => SetRestProbability2(value, true);
        case RestProbability4 => SetRestProbability4(value, true);
        case RestProbability8 => SetRestProbability8(value, true);
      }
    }

    /** `writeRouted` for the loop bounds, the octave range and the length modifier; any other target changes nothing. */
    method WriteRoutedLoop(target: Target, value: int, rt: RouteTable)
      requires Valid() && !IsPlaybackTarget(target) && !IsVariationTarget(target)
      modifies this`sequenceFirstStep, this`sequenceLastStep, this`lowOctaveRange, this`highOctaveRange,
        this`lengthModifier
      ensures PlaybackWritten(target, value) && VariationWritten(target, value, rt) && LoopWritten(target, value, rt)
    {
      match target {
        case SequenceFirstStep => SetSequenceFirstStep(value, true, rt);
        case SequenceLastStep => SetSequenceLastStep(value, true, rt);
        case LowOctaveRange => SetLowOctaveRange(value, true, rt);
        case HighOctaveRange => SetHighOctaveRange(value, true, rt);
        case LengthModifier => SetLengthModifier(value, true);
        case _ =>
      }
    }

    //----------------------------------------
    // Steps
    //----------------------------------------

    /** `isEmpty`: none of the first twelve steps has its gate set. */
    method IsEmpty() returns (r: bool)
      requires Valid()
      ensures r <==> forall i :: 0 <= i < 12 ==> !steps[i].Gate()
    {
      assert 12 <= steps.Length;
      for i := 0 to 12
        invariant forall j :: 0 <= j < i ==> !steps[j].Gate()
      {
        if steps[i].Gate() {
          return false;
        }
      }
      return true;
    }

    /** The first twelve steps differ from what `clearSteps` leaves. */
    predicate Edited()
      requires Valid()
      reads steps
    {
      exists i :: 0 <= i < 12 && steps[i] != DefaultStep(i)
    }

    /**
     * `isEdited`: compares each of the first twelve steps with a cleared
     * step given that step's note. The firmware compares raw words, which
     * is comparing steps (`StepEquality`).
     */
    method IsEdited() returns (r: bool)
      requires Valid()
      ensures r == Edited()
    {
      assert 12 <= steps.Length;
      for i := 0 to 12
        invariant forall j :: 0 <= j < i ==> steps[j] == DefaultStep(j)
      {
        if steps[i] != DefaultStep(i) {
          return true;
        }
      }
      return false;
    }

    /**
     * `clearSteps`: every step cleared (`Step::clear` leaves `ClearedStep`,
     * `ClearedIsClearedStep`), then the first twelve given notes 0 .. 11;
     * afterwards no step has its gate set.
     */
    method ClearSteps()
      requires Valid()
      modifies steps
      ensures forall i :: 0 <= i < steps.Length ==> steps[i] == DefaultStep(i)
      ensures forall i :: 0 <= i < steps.Length ==> !steps[i].Gate()
      ensures !Edited()
    {
      ClearEachStep();
      NumberFirstSteps();
      forall i | 0 <= i < 12 {
        SetNoteStored(ClearedStep, i);
      }
    }

    /** The first loop of `clearSteps`: `clear` on every step. */
    method ClearEachStep()
      modifies steps
      ensures forall i :: 0 <= i < steps.Length ==> steps[i] == ClearedStep
    {
      for i := 0 to steps.Length
        invariant forall j :: 0 <= j < i ==> steps[j] == ClearedStep
      {
        steps[i] := ClearedStep;
      }
    }

    /** The second loop of `clearSteps`: `setNote(i)` on each of the first twelve steps. */
    method NumberFirstSteps()
      requires Valid()
      modifies steps
      ensures forall i :: 0 <= i < 12 ==> steps[i] == old(steps[i]).SetNote(i)
      ensures forall i :: 12 <= i < steps.Length ==> steps[i] == old(steps[i])
    {
      for i := 0 to 12
        invariant forall j :: 0 <= j < i ==> steps[j] == old(steps[j]).SetNote(j)
        invariant forall j :: i <= j < steps.Length ==> steps[j] == old(steps[j])
      {
        steps[i] := steps[i].SetNote(i);
      }
    }

    /**
     * `setGates`: gate `k` of the list (non-zero is on) goes to step `k`,
     * for as many steps as the array holds; the other fields and steps
     * are kept.
     */
    method SetGates(gates: seq<int>)
      modifies steps
      ensures forall k :: 0 <= k < steps.Length ==>
        steps[k] == if k < |gates| then old(steps[k]).SetGate(gates[k] != 0) else old(steps[k])
    {
      var step := 0;
      for i := 0 to |gates|
        invariant step == Min(i, steps.Length)
        invariant forall k :: 0 <= k < steps.Length ==>
          steps[k] == if k < step then old(steps[k]).SetGate(gates[k] != 0) else old(steps[k])
      {
        if step < steps.Length {
          steps[step] := steps[step].SetGate(gates[i] != 0);
          step := step + 1;
        }
      }
    }

    /** `setNotes`: note `k` of the list goes to step `k`, for as many steps as the array holds. */
    method SetNotes(notes: seq<int>)
      modifies steps
      ensures forall k :: 0 <= k < steps.Length ==>
        steps[k] == if k < |notes| then old(steps[k]).SetNote(notes[k]) else old(steps[k])
    {
      var step := 0;
      for i := 0 to |notes|
        invariant step == Min(i, steps.Length)
        invariant forall k :: 0 <= k < steps.Length ==>
          steps[k] == if k < step then old(steps[k]).SetNote(notes[k]) else old(steps[k])
      {
        if step < steps.Length {
          steps[step] := steps[step].SetNote(notes[i]);
          step := step + 1;
        }
      }
    }

    /**
     * `duplicateSteps`: the window of steps is doubled by moving the last
     * step on by the window's length, clamped to the array; copying the
     * steps into the new half is done by a helper that is not part of this
     * model, so the steps are kept here.
     */
    method DuplicateSteps()
      requires Valid()
      modifies this`lastStep
      ensures lastStep == Clamp(2 * old(LastStep()) - firstStep + 1, firstStep, steps.Length - 1)
      ensures old(StepBoundsValid()) ==> StepBoundsValid()
      ensures old(StepBoundsValid()) && 2 * old(lastStep) - firstStep + 1 < steps.Length ==>
        lastStep - firstStep + 1 == 2 * (old(lastStep) - firstStep + 1)
    {
      SetLastStep(LastStep() + (LastStep() - FirstStep() + 1), false);
    }

    //----------------------------------------
    // Clear
    //----------------------------------------

    /**
     * `clear`: every parameter back to its default through its setter,
     * in the firmware's order, with the octave range reset to 0..0 (see
     * `ClearOctaveRangeAsWritten` for the order the firmware uses), and
     * the steps cleared. Routed copies are kept; where a setter clamps
     * against a routed value, the stored default follows that value.
     */
    method Clear(rt: RouteTable)
      requires Valid()
      modifies this`scale, this`rootNote, this`divisor, this`resetMeasure, this`runMode
      modifies this`firstStep, this`lastStep, this`sequenceFirstStep, this`sequenceLastStep
      modifies this`lengthModifier, this`restProbability2, this`restProbability4, this`restProbability8
      modifies this`lowOctaveRange, this`highOctaveRange, this`useLoop, this`reseed, this`message, steps
      ensures scale == old(scale).(base := -1) && rootNote == old(rootNote).(base := -1)
      ensures divisor == old(divisor).(base := clampDivisor(12))
      ensures resetMeasure == 0 && runMode == old(runMode).(base := 0)
      ensures firstStep == 0 && lastStep == 0 && StepBoundsValid()
      ensures sequenceFirstStep == old(sequenceFirstStep).(base := 0)
      ensures sequenceLastStep == old(sequenceLastStep).(base := Clamp(15, SequenceFirstStep(rt), steps.Length - 1))
      ensures lengthModifier == old(lengthModifier).(base := 0)
      ensures restProbability2 == old(restProbability2).(base := 0)
      ensures restProbability4 == old(restProbability4).(base := 0)
      ensures restProbability8 == old(restProbability8).(base := 0)
      ensures lowOctaveRange == old(lowOctaveRange).(base := 0)
      ensures highOctaveRange == old(highOctaveRange).(base := 0)
      ensures !useLoop
      ensures reseed == if IsRouted(rt, Target.Reseed) then old(reseed) else old(reseed).(base := false)
      ensures message == if Reseed(rt) then Message.ReSeed else old(message)
      ensures trackIndex == old(trackIndex) && clearLoop == old(clearLoop)
      ensures forall i :: 0 <= i < steps.Length ==> steps[i] == DefaultStep(i)
      ensures !Edited()
    {
      ClearPlayback();
      ClearStepBounds(rt);
      ClearVariation(rt);
      ClearSteps();
    }

    /** The start of `clear`: scale, root note, divisor, reset measure and run mode. */
    method ClearPlayback()
      requires Valid()
      modifies this`scale, this`rootNote, this`divisor, this`resetMeasure, this`runMode
      ensures scale == old(scale).(base := -1) && rootNote == old(rootNote).(base := -1)
      ensures divisor == old(divisor).(base := clampDivisor(12))
      ensures resetMeasure == 0 && runMode == old(runMode).(base := 0)
    {
      SetScale(-1, false);
      SetRootNote(-1, false);
      SetDivisor(12, false);
      SetResetMeasure(0);
      SetRunMode(0, false);
    }

    /** The step bounds `clear` resets: the first and last step, then the sequence loop bounds. */
    method ClearStepBounds(rt: RouteTable)
      requires Valid()
      modifies this`firstStep, this`lastStep, this`sequenceFirstStep, this`sequenceLastStep
      ensures firstStep == 0 && lastStep == 0
      ensures sequenceFirstStep == old(sequenceFirstStep).(base := 0)
      ensures sequenceLastStep == old(sequenceLastStep).(base := Clamp(15, SequenceFirstStep(rt), steps.Length - 1))
    {
      SetFirstStep(0, false);
      SetLastStep(0, false);
      SetSequenceFirstStep(0, false, rt);
      SetSequenceLastStep(15, false, rt);
    }

    /** The rest of `clear`: length modifier, rest probabilities, octave range, loop and reseed. */
    method ClearVariation(rt: RouteTable)
      modifies this`lengthModifier, this`restProbability2, this`restProbability4, this`restProbability8,
        this`lowOctaveRange, this`highOctaveRange, this`useLoop, this`reseed, this`message
      ensures lengthModifier == old(lengthModifier).(base := 0)
      ensures restProbability2 == old(restProbability2).(base := 0)
      ensures restProbability4 == old(restProbability4).(base := 0)
      ensures restProbability8 == old(restProbability8).(base := 0)
      ensures lowOctaveRange == old(lowOctaveRange).(base := 0)
      ensures highOctaveRange == old(highOctaveRange).(base := 0)
      ensures !useLoop
      ensures reseed == if IsRouted(rt, Target.Reseed) then old(reseed) else old(reseed).(base := false)
      ensures message == if Reseed(rt) then Message.ReSeed else old(message)
    {
      SetLengthModifier(0, false);
      SetRestProbability2(0, false);
      SetRestProbability4(0, false);
      SetRestProbability8(0, false);
      var (low, high) := ClearOctaveRange(lowOctaveRange, highOctaveRange);
      lowOctaveRange, highOctaveRange := low, high;
      SetUseLoop(false);
      SetReseed(0, false, rt);
    }

    //----------------------------------------
    // Serialization
    //----------------------------------------

    /** The parameters `write` emits. */
    function Saved(): SavedFields
      reads this
    {
      SavedFields(scale.base, rootNote.base, divisor.base, resetMeasure, runMode.base,
        firstStep, lastStep, restProbability2, restProbability4, restProbability8, lengthModifier,
        lowOctaveRange, highOctaveRange, sequenceFirstStep, sequenceLastStep)
    }

    /** `write`: the parameters, then every step. */
    function Write(): seq<Byte>
      reads this, steps
    {
      WriteSequence(Saved(), steps[..])
    }

    /** Stores the parameters `read` consumes; the routed copies of scale, root note, divisor and run mode are kept. */
    method Restore(f: SavedFields)
      modifies this`scale, this`rootNote, this`divisor, this`resetMeasure, this`runMode, this`firstStep, this`lastStep,
        this`restProbability2, this`restProbability4, this`restProbability8, this`lengthModifier,
        this`lowOctaveRange, this`highOctaveRange, this`sequenceFirstStep, this`sequenceLastStep
      ensures Saved() == f
      ensures scale.routed == old(scale.routed) && rootNote.routed == old(rootNote.routed)
      ensures divisor.routed == old(divisor.routed) && runMode.routed == old(runMode.routed)
    {
      RestoreHeader(f);
      RestoreRests(f);
      RestoreLoop(f);
    }

    method RestoreHeader(f: SavedFields)
      modifies this`scale, this`rootNote, this`divisor, this`resetMeasure, this`runMode, this`firstStep, this`lastStep
      ensures scale == old(scale).(base := f.scale) && rootNote == old(rootNote).(base := f.rootNote)
      ensures divisor == old(divisor).(base := f.divisor) && runMode == old(runMode).(base := f.runMode)
      ensures resetMeasure == f.resetMeasure && firstStep == f.firstStep && lastStep == f.lastStep
    {
      scale, rootNote, divisor := scale.(base := f.scale), rootNote.(base := f.rootNote), divisor.(base := f.divisor);
      resetMeasure, runMode := f.resetMeasure, runMode.(base := f.runMode);
      firstStep, lastStep := f.firstStep, f.lastStep;
    }

    method RestoreRests(f: SavedFields)
      modifies this`restProbability2, this`restProbability4, this`restProbability8, this`lengthModifier,
        this`lowOctaveRange, this`highOctaveRange
      ensures restProbability2 == f.restProbability2 && restProbability4 == f.restProbability4
      ensures restProbability8 == f.restProbability8 && lengthModifier == f.lengthModifier
      ensures lowOctaveRange == f.lowOctaveRange && highOctaveRange == f.highOctaveRange
    {
      restProbability2, restProbability4, restProbability8 := f.restProbability2, f.restProbability4, f.restProbability8;
      lengthModifier, lowOctaveRange, highOctaveRange := f.lengthModifier, f.lowOctaveRange, f.highOctaveRange;
    }

    method RestoreLoop(f: SavedFields)
      modifies this`sequenceFirstStep, this`sequenceLastStep
      ensures sequenceFirstStep == f.sequenceFirstStep && sequenceLastStep == f.sequenceLastStep
    {
      sequenceFirstStep, sequenceLastStep := f.sequenceFirstStep, f.sequenceLastStep;
    }

    /**
     * `read`: the parameters and steps of a stream of the given version;
     * a stream too short for them leaves the sequence as it was and
     * yields false.
     */
    method Read(data: seq<Byte>, version: int) returns (ok: bool)
      requires Valid()
      modifies this`scale, this`rootNote, this`divisor, this`resetMeasure, this`runMode, this`firstStep, this`lastStep,
        this`restProbability2, this`restProbability4, this`restProbability8, this`lengthModifier,
        this`lowOctaveRange, this`highOctaveRange, this`sequenceFirstStep, this`sequenceLastStep, steps
      ensures var r := ReadSequence(data, version, old(Saved()), steps.Length, conditionCount);
        && ok == r.Some?
        && (ok ==> Saved() == r.value.value.0 && steps[..] == r.value.value.1)
        && (!ok ==> Saved() == old(Saved()) && steps[..] == old(steps[..]))
      ensures scale.routed == old(scale.routed) && rootNote.routed == old(rootNote.routed)
      ensures divisor.routed == old(divisor.routed) && runMode.routed == old(runMode.routed)
    {
      var r := ReadSequence(data, version, Saved(), steps.Length, conditionCount);
      if r.None? {
        return false;
      }
      var (f, s) := r.value.value;
      Restore(f);
      forall i | 0 <= i < steps.Length {
        steps[i] := s[i];
      }
      return true;
    }
  }

  /**
   * What `write` followed by `read` of the current format gives back: the
   * saved parameters and every step, whatever the sequence held before.
   */
  lemma WriteReadSequence(s: StochasticSequence, prior: SavedFields, version: int)
    requires s.Valid() && version >= 37
    ensures ReadSequence(s.Write(), version, prior, s.steps.Length, s.conditionCount)
      == Some(Decoded((s.Saved(), s.steps[..]), []))
  {
    assert s.Write() + [] == s.Write();
    SequenceRoundTrip(s.Saved(), s.steps[..], [], version, prior, s.conditionCount);
  }
}
