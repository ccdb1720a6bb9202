/**
 * The button matrix: how step, track and function buttons map to key
 * codes (`MatrixMap`), and the `Key` of a button event, a code together
 * with the set of buttons held at the time.
 *
 * Codes are `column * 8 + row`: steps 8 .. 15 in column 0, steps 0 .. 7 in
 * column 1, tracks in column 2, the global buttons in column 3, the
 * function buttons in column 4 and the encoder at 40.
 */
module Keys {

  //----------------------------------------
  // MatrixMap
  //----------------------------------------

  /** `fromStep`: the code of step button `step`; steps 0 .. 7 sit above steps 8 .. 15. */
  function FromStep(step: int): int {
    if step < 8 then 8 + step else step - 8
  }

  /** `isStep`: whether a code is a step button's. */
  predicate IsStepIndex(index: int) {
    index >= FromStep(8) && index <= FromStep(7)
  }

  /** `toStep`: the step number of a step button's code. */
  function ToStep(index: int): (r: int)
    ensures IsStepIndex(index) ==> 0 <= r <= 15 && FromStep(r) == index
  {
    if index >= FromStep(0) then index - FromStep(0) else index - FromStep(8) + 8
  }

  function FromTrack(track: int): int {
    16 + track
  }

  /** `isTrack`: whether a code is a track button's. */
  predicate IsTrackIndex(index: int) {
    index >= FromTrack(0) && index <= FromTrack(7)
  }

  function ToTrack(index: int): (r: int)
    ensures IsTrackIndex(index) ==> 0 <= r <= 7 && FromTrack(r) == index
  {
    index - FromTrack(0)
  }

  function FromFunction(function_: int): int {
    32 + function_
  }

  /** `isFunction`: whether a code is a function button's. */
  predicate IsFunctionIndex(index: int) {
    index >= FromFunction(0) && index <= FromFunction(4)
  }

  function ToFunction(index: int): (r: int)
    ensures IsFunctionIndex(index) ==> 0 <= r <= 4 && FromFunction(r) == index
  {
    index - FromFunction(0)
  }

  /**
   * `fromStep` is a bijection of the step numbers 0 .. 15 onto the step
   * codes, which are exactly 0 .. 15, and `toStep` is its inverse.
   */
  lemma StepCodes(step: int, index: int)
    ensures 0 <= step <= 15 ==> IsStepIndex(FromStep(step)) && ToStep(FromStep(step)) == step
    ensures IsStepIndex(index) <==> 0 <= index <= 15
    ensures IsStepIndex(index) ==> FromStep(ToStep(index)) == index
  {
  }

  /** Track codes are 16 .. 23, each the code of one track 0 .. 7. */
  lemma TrackCodes(track: int, index: int)
    ensures ToTrack(FromTrack(track)) == track
    ensures IsTrackIndex(index) <==> 16 <= index <= 23
    ensures 0 <= track <= 7 <==> IsTrackIndex(FromTrack(track))
  {
  }

  /** Function codes are 32 .. 36. */
  lemma FunctionCodes(index: int)
    ensures IsFunctionIndex(index) <==> 32 <= index <= 36
    ensures IsFunctionIndex(index) ==> 0 <= ToFunction(index) <= 4
  {
  }

  //----------------------------------------
  // Key codes
  //----------------------------------------

  const NoKey := -1
  const Play := 24
  const Tempo := 25
  const Pattern := 26
  const Performer := 27
  const Left := 28
  const Right := 29
  const Shift := 30
  const Page := 31
  /** The home button is the page button. */
  const Home := 31
  const Encoder := 40

  /** A global button: codes 24 .. 31. */
  predicate IsGlobalCode(code: int) {
    24 <= code <= 31
  }

  /** The button groups do not overlap: steps, tracks, globals, functions and the encoder. */
  lemma GroupsDisjoint(code: int)
    ensures !(IsStepIndex(code) && IsTrackIndex(code))
    ensures !(IsStepIndex(code) && IsGlobalCode(code)) && !(IsTrackIndex(code) && IsGlobalCode(code))
    ensures !(IsFunctionIndex(code) && (IsStepIndex(code) || IsTrackIndex(code) || IsGlobalCode(code)))
    ensures code == Encoder ==> !IsStepIndex(code) && !IsTrackIndex(code) && !IsGlobalCode(code) && !IsFunctionIndex(code)
  {
  }

  /**
   * `isPageKey`: the buttons that select a page while the page button is
   * held: clock, pattern, performer and overview among the globals,
   * project, layout, routing, MIDI output, user scale and system among the
   * tracks, and sequence edit, sequence, track, song and monitor among the
   * steps.
   */
  predicate IsPageKey(code: int) {
    || code == Tempo || code == Pattern || code == Performer || code == Left
    || code == FromTrack(0) || code == FromTrack(1) || code == FromTrack(2) || code == FromTrack(3)
    || code == FromTrack(4)
    || code == FromStep(0) || code == FromStep(1) || code == FromStep(2) || code == FromStep(3)
    || code == FromTrack(7) || code == FromStep(7)
  }

  /** The page keys are five globals, six track buttons and the step buttons 0 .. 3 and 7. */
  lemma PageKeys(code: int)
    ensures IsPageKey(code) <==>
      (25 <= code <= 28) || (16 <= code <= 20) || code == 23 || (8 <= code <= 11) || code == 15
  {
  }

  //----------------------------------------
  // Key
  //----------------------------------------

  /** A button event: the button's code and the buttons held (`KeyState`). */
  datatype Key = Key(code: int, state: set<int>) {
    predicate ShiftModifier() { Shift in state }
    predicate PageModifier() { Page in state }

    predicate IsHome() { code == Home }
    predicate IsShift() { code == Shift }
    predicate IsEncoder() { code == Encoder }

    /** `isGlobal`: the play or tempo button. */
    predicate IsGlobal() { code == Play || code == Tempo }

    predicate IsTrack() { IsTrackIndex(code) }
    function Track(): int { ToTrack(code) }

    predicate IsStep() { IsStepIndex(code) }
    function Step(): int { ToStep(code) }

    predicate IsFunction() { IsFunctionIndex(code) }
    function Function(): int { ToFunction(code) }

    /** `isTrackSelect`: a track button without the page button held. */
    predicate IsTrackSelect() { !PageModifier() && IsTrack() }

    /** `isPageSelect`: a page key with the page button held. */
    predicate IsPageSelect() { PageModifier() && IsPageKey(code) }

    /** `pageSelect`: a track button selects 0 .. 7, a step button 8 .. 23, any other -1. */
    function PageSelect(): (r: int)
      ensures IsTrack() ==> r == Track() && 0 <= r <= 7
      ensures IsStep() ==> r == Step() + 8 && 8 <= r <= 23
      ensures !IsTrack() && !IsStep() ==> r == -1
    {
      if IsTrack() then Track() else if IsStep() then Step() + 8 else -1
    }

    /** `isQuickEdit`: a step button of the second half with the page button held. */
    predicate IsQuickEdit() { PageModifier() && IsStep() && Step() >= 8 }

    function QuickEdit(): (r: int)
      ensures IsQuickEdit() ==> 0 <= r <= 7
    {
      Step() - 8
    }

    /** `isContextMenu`: the shift button pressed while shift is held. */
    predicate IsContextMenu() { ShiftModifier() && IsShift() }
  }

  /**
   * The quick-edit buttons are the step buttons 8 .. 15 with the page
   * button held, whose codes are 0 .. 7, and each selects quick edit
   * `code`; a track-select key is never a page-select key of the same
   * button state.
   */
  lemma QuickEditKeys(k: Key)
    ensures k.IsQuickEdit() <==> k.PageModifier() && 0 <= k.code <= 7
    ensures k.IsQuickEdit() ==> k.QuickEdit() == k.code
    ensures !(k.IsTrackSelect() && k.IsPageSelect())
  {
  }
}
