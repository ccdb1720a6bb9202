/**
 * `StochasticSequence::Step`: one step of a stochastic sequence, packed
 * into two 32-bit words of bit fields. A step is a value (the firmware
 * copies steps into and out of the step array and compares them by their
 * raw words), so it is modelled as the record of its raw bit-field
 * contents, each typed to its width, and each in-place setter as a
 * function returning the updated step. `Data0` and `Data1` pack the record
 * into the two words; `FromWords` unpacks them.
 *
 * A field of type `UnsignedValue<N>` holds 0 .. 2^N - 1 and stores the
 * value itself; a `SignedValue<N>` holds -2^(N-1) .. 2^(N-1) - 1 and stores
 * the value less that minimum. Every setter clamps into the type's range.
 */
module StochasticSteps {
  import opened BitField
  import opened Values
  import opened Serialize

  type Raw3 = x: int | 0 <= x < 8
  type Raw4 = x: int | 0 <= x < 16
  type Raw7 = x: int | 0 <= x < 128

  /** `Types::Condition::Off`, the first condition. */
  const ConditionOff := 0

  /**
   * The number of `Types::Condition` enumerators: at least one (`Off`) and,
   * as the header's static assertion demands, no more than the 7-bit
   * condition field holds.
   */
  predicate ValidConditionCount(n: int) {
    1 <= n <= 128
  }

  /** `StageRepeatMode`. */
  datatype StageRepeatMode = Each | First | Middle | Last | Odd | Even | Triplets | Random

  function StageRepeatModeOrdinal(m: StageRepeatMode): int {
    match m
    case Each => 0
    case First => 1
    case Middle => 2
    case Last => 3
    case Odd => 4
    case Even => 5
    case Triplets => 6
    case Random => 7
  }

  //----------------------------------------
  // Layers
  //----------------------------------------

  datatype Layer =
    | Gate | GateProbability | GateOffset | Retrigger | RetriggerProbability
    | StageRepeats | StageRepeatsMode | Length | LengthVariationRange
    | LengthVariationProbability | NoteVariationProbability | NoteOctave
    | NoteOctaveProbability | Slide | Condition | LastLayer

  /** `layerName`: the display name, absent for `Last`. */
  function LayerName(layer: Layer): (r: Option<string>)
    ensures r.None? <==> layer == LastLayer
  {
    match layer
    case Gate => Some("GATE")
    case GateProbability => Some("GATE PROB")
    case GateOffset => Some("GATE OFFSET")
    case Slide => Some("SLIDE")
    case Retrigger => Some("RETRIG")
    case RetriggerProbability => Some("RETRIG PROB")
    case Length => Some("LENGTH")
    case LengthVariationRange => Some("LENGTH RANGE")
    case LengthVariationProbability => Some("LENGTH PROB")
    case NoteOctave => Some("OCTAVE")
    case NoteOctaveProbability => Some("OCTAVE PROB")
    case NoteVariationProbability => Some("NOTE PROB")
    case Condition => Some("CONDITION")
    case StageRepeats => Some("REPEAT")
    case StageRepeatsMode => Some("REPEAT MODE")
    case LastLayer => None
  }

  /** `layerRange`: the smallest and largest value of a layer, the `Min` and `Max` of its value type. */
  function LayerRange(layer: Layer): (r: (int, int))
    ensures r.0 <= r.1
  {
    match layer
    case Gate => (0, 1)
    case Slide => (0, 1)
    case GateOffset => (-8, 7)
    case GateProbability => (0, 15)
    case Retrigger => (0, 7)
    case RetriggerProbability => (0, 15)
    case Length => (0, 15)
    case LengthVariationRange => (-8, 7)
    case LengthVariationProbability => (0, 15)
    case NoteOctave => (-4, 3)
    case NoteOctaveProbability => (0, 15)
    case NoteVariationProbability => (0, 15)
    case Condition => (0, 127)
    case StageRepeats => (0, 7)
    case StageRepeatsMode => (0, 7)
    case LastLayer => (0, 0)
  }

  //----------------------------------------
  // Step
  //----------------------------------------

  /** The raw contents of every bit field; `Widths0` and `Widths1` give their order and widths. */
  datatype Step = Step(
    // first word
    gate: bool, slide: bool, length: Raw4, lengthVariationRange: Raw4,
    lengthVariationProbability: Raw4, note: Raw7, noteOctave: Raw3,
    noteVariationProbability: Raw4, noteOctaveProbability: Raw4,
    // second word
    bypassScale: bool, retrigger: Raw3, gateProbability: Raw4,
    retriggerProbability: Raw4, gateOffset: Raw4, condition: Raw7,
    stageRepeats: Raw3, stageRepeatMode: Raw3,
    /** The three unused top bits of the second word. */
    spare: Raw3)
  {
    /** `_data0.raw`: the fields of the first word, lowest first. */
    function Data0(): Word32 {
      Put(Bit(gate), 1, Put(Bit(slide), 1, Put(length, 4, Put(lengthVariationRange, 4,
      Put(lengthVariationProbability, 4, Put(note, 7, Put(noteOctave, 3,
      Put(noteVariationProbability, 4, Put(noteOctaveProbability, 4, [])))))))))
    }

    /** `_data1.raw`: the fields of the second word, lowest first. */
    function Data1(): Word32 {
      Put(Bit(bypassScale), 1, Put(retrigger, 3, Put(gateProbability, 4, Put(retriggerProbability, 4,
      Put(gateOffset, 4, Put(condition, 7, Put(stageRepeats, 3, Put(stageRepeatMode, 3,
      Put(spare, 3, [])))))))))
    }

    // gate

    function Gate(): bool { gate }

    function SetGate(gate: bool): (r: Step)
      ensures r.Gate() == gate
    {
      this.(gate := gate)
    }

    function ToggleGate(): (r: Step)
      ensures r.Gate() == !Gate()
    {
      SetGate(!Gate())
    }

    // gateProbability: UnsignedValue<4>

    function GateProbability(): int { gateProbability }

    function SetGateProbability(p: int): (r: Step)
      ensures r.GateProbability() == Clamp(p, 0, 15)
    {
      this.(gateProbability := Clamp(p, 0, 15))
    }

    // gateOffset: SignedValue<4>

    function GateOffset(): int { gateOffset - 8 }

    function SetGateOffset(offset: int): (r: Step)
      ensures r.GateOffset() == Clamp(offset, -8, 7)
    {
      this.(gateOffset := Clamp(offset, -8, 7) + 8)
    }

    // slide

    function Slide(): bool { slide }

    function SetSlide(slide: bool): (r: Step)
      ensures r.Slide() == slide
    {
      this.(slide := slide)
    }

    function ToggleSlide(): (r: Step)
      ensures r.Slide() == !Slide()
    {
      SetSlide(!Slide())
    }

    // retrigger: UnsignedValue<3>

    function Retrigger(): int { retrigger }

    function SetRetrigger(retrigger: int): (r: Step)
      ensures r.Retrigger() == Clamp(retrigger, 0, 7)
    {
      this.(retrigger := Clamp(retrigger, 0, 7))
    }

    // retriggerProbability: UnsignedValue<4>

    function RetriggerProbability(): int { retriggerProbability }

    function SetRetriggerProbability(p: int): (r: Step)
      ensures r.RetriggerProbability() == Clamp(p, 0, 15)
    {
      this.(retriggerProbability := Clamp(p, 0, 15))
    }

    // length: UnsignedValue<4>

    function Length(): int { length }

    function SetLength(length: int): (r: Step)
      ensures r.Length() == Clamp(length, 0, 15)
    {
      this.(length := Clamp(length, 0, 15))
    }

    // lengthVariationRange: SignedValue<4>

    function LengthVariationRange(): int { lengthVariationRange - 8 }

    function SetLengthVariationRange(range: int): (r: Step)
      ensures r.LengthVariationRange() == Clamp(range, -8, 7)
    {
      this.(lengthVariationRange := Clamp(range, -8, 7) + 8)
    }

    // lengthVariationProbability: UnsignedValue<4>

    function LengthVariationProbability(): int { lengthVariationProbability }

    function SetLengthVariationProbability(p: int): (r: Step)
      ensures r.LengthVariationProbability() == Clamp(p, 0, 15)
    {
      this.(lengthVariationProbability := Clamp(p, 0, 15))
    }

    // note: SignedValue<7>

    function Note(): int { note - 64 }

    function SetNote(note: int): (r: Step)
      ensures r.Note() == Clamp(note, -64, 63)
    {
      this.(note := Clamp(note, -64, 63) + 64)
    }

    // noteOctave: SignedValue<3>

    function NoteOctave(): int { noteOctave - 4 }

    function SetNoteOctave(octave: int): (r: Step)
      ensures r.NoteOctave() == Clamp(octave, -4, 3)
    {
      this.(noteOctave := Clamp(octave, -4, 3) + 4)
    }

    // noteOctaveProbability: UnsignedValue<4>

    function NoteOctaveProbability(): int { noteOctaveProbability }

    function SetNoteOctaveProbability(p: int): (r: Step)
      ensures r.NoteOctaveProbability() == Clamp(p, 0, 15)
    {
      this.(noteOctaveProbability := Clamp(p, 0, 15))
    }

    // noteVariationProbability: UnsignedValue<4>

    function NoteVariationProbability(): int { noteVariationProbability }

    function SetNoteVariationProbability(p: int): (r: Step)
      ensures r.NoteVariationProbability() == Clamp(p, 0, 15)
    {
      this.(noteVariationProbability := Clamp(p, 0, 15))
    }

    // condition: the ordinal of a `Types::Condition`

    function Condition(): int { condition }

    /** `setCondition`: the ordinal clamped into the enum (`ModelUtils::clampedEnum`). */
    function SetCondition(condition: int, conditionCount: int): (r: Step)
      requires ValidConditionCount(conditionCount)
      ensures r.Condition() == ClampedEnum(condition, conditionCount)
    {
      this.(condition := ClampedEnum(condition, conditionCount))
    }

    // stageRepeats: UnsignedValue<3>

    function StageRepeats(): int { stageRepeats }

    function SetStageRepeats(repeats: int): (r: Step)
      ensures r.StageRepeats() == Clamp(repeats, 0, 7)
    {
      this.(stageRepeats := Clamp(repeats, 0, 7))
    }

    // stageRepeatMode: the ordinal of a `StageRepeatMode`

    function StageRepeatMode(): int { stageRepeatMode }

    /**
     * `setStageRepeatsMode`: the mode is stored without a clamp, so an
     * ordinal cast from an arbitrary integer keeps only its low 3 bits.
     */
    function SetStageRepeatsMode(mode: int): (r: Step)
      ensures r.StageRepeatMode() == mode % 8
    {
      LowBits3(mode);
      this.(stageRepeatMode := FromBits(ToBits(mode, 3)))
    }

    // bypassScale

    function BypassScale(): bool { bypassScale }

    function SetBypassScale(bypass: bool): (r: Step)
      ensures r.BypassScale() == bypass
    {
      this.(bypassScale := bypass)
    }

    function ToggleBypassScale(): (r: Step)
      ensures r.BypassScale() == !BypassScale()
    {
      SetBypassScale(!BypassScale())
    }

    //----------------------------------------
    // Layer view
    //----------------------------------------

    /** `layerValue`: the value of one layer, a flag as 0 or 1; 0 for `Last`. */
    function LayerValue(layer: Layer): int {
      match layer
      case Gate => if Gate() then 1 else 0
      case Slide => if Slide() then 1 else 0
      case GateProbability => GateProbability()
      case GateOffset => GateOffset()
      case Retrigger => Retrigger()
      case RetriggerProbability => RetriggerProbability()
      case Length => Length()
      case LengthVariationRange => LengthVariationRange()
      case LengthVariationProbability => LengthVariationProbability()
      case NoteOctave => NoteOctave()
      case NoteOctaveProbability => NoteOctaveProbability()
      case NoteVariationProbability => NoteVariationProbability()
      case Condition => Condition()
      case StageRepeats => StageRepeats()
      case StageRepeatsMode => StageRepeatMode()
      case LastLayer => 0
    }

    /** `setLayerValue`: writes one layer through its setter; `Last` changes nothing. */
    function SetLayerValue(layer: Layer, value: int, conditionCount: int): Step
      requires ValidConditionCount(conditionCount)
    {
      match layer
      case Gate => SetGate(value != 0)
      case Slide => SetSlide(value != 0)
      case GateProbability => SetGateProbability(value)
      case GateOffset => SetGateOffset(value)
      case Retrigger => SetRetrigger(value)
      case RetriggerProbability => SetRetriggerProbability(value)
      case Length => SetLength(value)
      case LengthVariationRange => SetLengthVariationRange(value)
      case LengthVariationProbability => SetLengthVariationProbability(value)
      case NoteOctave => SetNoteOctave(value)
      case NoteOctaveProbability => SetNoteOctaveProbability(value)
      case NoteVariationProbability => SetNoteVariationProbability(value)
      case Condition => SetCondition(value, conditionCount)
      case StageRepeats => SetStageRepeats(value)
      case StageRepeatsMode => SetStageRepeatsMode(value)
      case LastLayer => this
    }

    /** `write`: both raw words, first word first. */
    function Write(): (r: seq<Byte>)
      ensures |r| == 8
    {
      EncodeBits(Data0()) + EncodeBits(Data1())
    }
  }


  //----------------------------------------
  // Bit layout
  //----------------------------------------

  /** The largest raw values of the 1-, 3-, 4- and 7-bit fields. */
  lemma FieldWidths()
    ensures Pow2(1) == 2 && Pow2(3) == 8 && Pow2(4) == 16 && Pow2(7) == 128
  {
  }

  /** Reads the fields of the two raw words at their bit offsets. */
  function FromWords(data0: Word32, data1: Word32): Step {
    FieldWidths();
    Step(
      data0[0], data0[1], FromBits(data0[2..6]), FromBits(data0[6..10]), FromBits(data0[10..14]),
      FromBits(data0[14..21]), FromBits(data0[21..24]), FromBits(data0[24..28]), FromBits(data0[28..32]),
      data1[0], FromBits(data1[1..4]), FromBits(data1[4..8]), FromBits(data1[8..12]), FromBits(data1[12..16]),
      FromBits(data1[16..23]), FromBits(data1[23..26]), FromBits(data1[26..29]), FromBits(data1[29..32]))
  }

  /** A cast mode ordinal keeps its low 3 bits. */
  lemma LowBits3(v: int)
    ensures FromBits(ToBits(v, 3)) == v % 8
  {
    var q0, q1, q2 := v / 2, v / 2 / 2, v / 2 / 2 / 2;
    var b0, b1, b2 := ToBits(q1, 1), ToBits(q0, 2), ToBits(v, 3);
    assert b0[1..] == ToBits(q2, 0);
    assert b1[1..] == b0;
    assert b2[1..] == b1;
    assert FromBits(b0) == q1 % 2;
    assert FromBits(b1) == q0 % 2 + 2 * (q1 % 2);
    assert FromBits(b2) == v % 2 + 2 * (q0 % 2) + 4 * (q1 % 2);
    assert v == v % 2 + 2 * (q0 % 2) + 4 * (q1 % 2) + 8 * q2;
  }

  /** The first word's fields are disjoint and read back at their offsets. */
  lemma FirstWordRoundTrip(s: Step, data1: Word32)
    ensures var t := FromWords(s.Data0(), data1);
      t.gate == s.gate && t.slide == s.slide && t.length == s.length
      && t.lengthVariationRange == s.lengthVariationRange
      && t.lengthVariationProbability == s.lengthVariationProbability && t.note == s.note
      && t.noteOctave == s.noteOctave && t.noteVariationProbability == s.noteVariationProbability
      && t.noteOctaveProbability == s.noteOctaveProbability
  {
    FieldWidths();
    var d := s.Data0();
    var r8 := Put(s.noteOctaveProbability, 4, []);
    var r7 := Put(s.noteVariationProbability, 4, r8);
    var r6 := Put(s.noteOctave, 3, r7);
    var r5 := Put(s.note, 7, r6);
    var r4 := Put(s.lengthVariationProbability, 4, r5);
    var r3 := Put(s.lengthVariationRange, 4, r4);
    var r2 := Put(s.length, 4, r3);
    var r1 := Put(Bit(s.slide), 1, r2);
    assert d[0..] == Put(Bit(s.gate), 1, r1);
    GetPut(d, 0, Bit(s.gate), 1, r1);
    GetPut(d, 1, Bit(s.slide), 1, r2);
    GetPut(d, 2, s.length, 4, r3);
    GetPut(d, 6, s.lengthVariationRange, 4, r4);
    GetPut(d, 10, s.lengthVariationProbability, 4, r5);
    GetPut(d, 14, s.note, 7, r6);
    GetPut(d, 21, s.noteOctave, 3, r7);
    GetPut(d, 24, s.noteVariationProbability, 4, r8);
    GetPut(d, 28, s.noteOctaveProbability, 4, []);
    BitField1(d, 0);
    BitField1(d, 1);
  }

  /** The second word's fields are disjoint and read back at their offsets. */
  lemma SecondWordRoundTrip(data0: Word32, s: Step)
    ensures var t := FromWords(data0, s.Data1());
      t.bypassScale == s.bypassScale && t.retrigger == s.retrigger
      && t.gateProbability == s.gateProbability && t.retriggerProbability == s.retriggerProbability
      && t.gateOffset == s.gateOffset && t.condition == s.condition
      && t.stageRepeats == s.stageRepeats && t.stageRepeatMode == s.stageRepeatMode && t.spare == s.spare
  {
    FieldWidths();
    var d := s.Data1();
    var r8 := Put(s.spare, 3, []);
    var r7 := Put(s.stageRepeatMode, 3, r8);
    var r6 := Put(s.stageRepeats, 3, r7);
    var r5 := Put(s.condition, 7, r6);
    var r4 := Put(s.gateOffset, 4, r5);
    var r3 := Put(s.retriggerProbability, 4, r4);
    var r2 := Put(s.gateProbability, 4, r3);
    var r1 := Put(s.retrigger, 3, r2);
    assert d[0..] == Put(Bit(s.bypassScale), 1, r1);
    GetPut(d, 0, Bit(s.bypassScale), 1, r1);
    GetPut(d, 1, s.retrigger, 3, r2);
    GetPut(d, 4, s.gateProbability, 4, r3);
    GetPut(d, 8, s.retriggerProbability, 4, r4);
    GetPut(d, 12, s.gateOffset, 4, r5);
    GetPut(d, 16, s.condition, 7, r6);
    GetPut(d, 23, s.stageRepeats, 3, r7);
    GetPut(d, 26, s.stageRepeatMode, 3, r8);
    GetPut(d, 29, s.spare, 3, []);
    BitField1(d, 0);
  }

  /** Unpacking the words of a step gives the step back. */
  lemma WordsRoundTrip(s: Step)
    ensures FromWords(s.Data0(), s.Data1()) == s
  {
    FirstWordRoundTrip(s, s.Data1());
    SecondWordRoundTrip(s.Data0(), s);
  }

  /** The first word's fields cover all of its bits. */
  lemma FirstWordCovered(data0: Word32, data1: Word32)
    ensures FromWords(data0, data1).Data0() == data0
  {
    var d := data0;
    PutGet(d, 28, 4);
    PutGet(d, 24, 4);
    PutGet(d, 21, 3);
    PutGet(d, 14, 7);
    PutGet(d, 10, 4);
    PutGet(d, 6, 4);
    PutGet(d, 2, 4);
    PutGet(d, 1, 1);
    PutGet(d, 0, 1);
    BitField1(d, 0);
    BitField1(d, 1);
    assert d[32..] == [];
    assert d[0..] == d;
  }

  /** The second word's fields, the unused top bits included, cover all of its bits. */
  lemma SecondWordCovered(data0: Word32, data1: Word32)
    ensures FromWords(data0, data1).Data1() == data1
  {
    var d := data1;
    PutGet(d, 29, 3);
    PutGet(d, 26, 3);
    PutGet(d, 23, 3);
    PutGet(d, 16, 7);
    PutGet(d, 12, 4);
    PutGet(d, 8, 4);
    PutGet(d, 4, 4);
    PutGet(d, 1, 3);
    PutGet(d, 0, 1);
    BitField1(d, 0);
    assert d[32..] == [];
    assert d[0..] == d;
  }

  /** Every pair of words is the image of exactly the step they unpack to. */
  lemma FieldsCoverWords(data0: Word32, data1: Word32)
    ensures FromWords(data0, data1).Data0() == data0
    ensures FromWords(data0, data1).Data1() == data1
  {
    FirstWordCovered(data0, data1);
    SecondWordCovered(data0, data1);
  }

  /** `operator==` compares the raw words, which is comparing every field. */
  lemma StepEquality(a: Step, b: Step)
    ensures a == b <==> a.Data0() == b.Data0() && a.Data1() == b.Data1()
  {
    WordsRoundTrip(a);
    WordsRoundTrip(b);
  }

  //----------------------------------------
  // Clear and defaults
  //----------------------------------------

  /** The step `clear` starts from: the first raw word 0, the second 1 (only the bypass-scale bit). */
  const ResetStep := FromWords(Zeros(32), [true] + Zeros(31))

  /** The raw reset leaves the unused top bits clear. */
  lemma ResetStepSpare()
    ensures ResetStep.spare == 0
  {
    assert ([true] + Zeros(31))[29..32] == Zeros(3);
    FromZeros(3);
  }

  /** The setter calls of `Step::clear`, in order, applied to `s`. */
  function ClearFields(s: Step, conditionCount: int): Step
    requires ValidConditionCount(conditionCount)
  {
    s.SetGate(false)
      .SetGateProbability(15)                // GateProbability::Max
      .SetGateOffset(0)
      .SetSlide(false)
      .SetBypassScale(true)
      .SetRetrigger(0)
      .SetRetriggerProbability(15)           // RetriggerProbability::Max
      .SetLength(7)                          // Length::Max / 2
      .SetLengthVariationRange(0)
      .SetLengthVariationProbability(15)     // LengthVariationProbability::Max
      .SetNote(0)
      .SetNoteOctave(0)
      .SetNoteOctaveProbability(15)          // NoteOctaveProbability::Max
      .SetNoteVariationProbability(0)
      .SetCondition(ConditionOff, conditionCount)
      .SetStageRepeats(0)
      .SetStageRepeatsMode(StageRepeatModeOrdinal(Each))
  }

  /** `Step::clear`, which is also what the `Step()` constructor does. */
  function Cleared(conditionCount: int): Step
    requires ValidConditionCount(conditionCount)
  {
    ClearFields(ResetStep, conditionCount)
  }

  lemma ClearFieldsFirst(s: Step)
    ensures s.SetGate(false).SetGateProbability(15).SetGateOffset(0).SetSlide(false)
      .SetBypassScale(true).SetRetrigger(0)
      == s.(gate := false, gateProbability := 15, gateOffset := 8, slide := false,
            bypassScale := true, retrigger := 0)
  {
  }

  lemma ClearFieldsMiddle(s: Step)
    ensures s.SetRetriggerProbability(15).SetLength(7).SetLengthVariationRange(0)
      .SetLengthVariationProbability(15).SetNote(0).SetNoteOctave(0)
      == s.(retriggerProbability := 15, length := 7, lengthVariationRange := 8,
            lengthVariationProbability := 15, note := 64, noteOctave := 4)
  {
  }

  lemma ClearFieldsLast(s: Step, conditionCount: int)
    requires ValidConditionCount(conditionCount)
    ensures s.SetNoteOctaveProbability(15).SetNoteVariationProbability(0)
      .SetCondition(ConditionOff, conditionCount).SetStageRepeats(0).SetStageRepeatsMode(0)
      == s.(noteOctaveProbability := 15, noteVariationProbability := 0, condition := 0,
            stageRepeats := 0, stageRepeatMode := 0)
  {
    LowBits3(0);
  }

  /**
   * `clear` sets every field, whatever the step held before, except the
   * unused top bits, which the raw reset clears.
   */
  lemma ClearFieldsDefaults(s: Step, conditionCount: int)
    requires ValidConditionCount(conditionCount)
    ensures ClearFields(s, conditionCount)
      == Step(false, false, 7, 8, 15, 64, 4, 0, 15, true, 0, 15, 15, 8, 0, 0, 0, s.spare)
  {
    ClearFieldsFirst(s);
    var s1 := s.(gate := false, gateProbability := 15, gateOffset := 8, slide := false,
                 bypassScale := true, retrigger := 0);
    ClearFieldsMiddle(s1);
    var s2 := s1.(retriggerProbability := 15, length := 7, lengthVariationRange := 8,
                  lengthVariationProbability := 15, note := 64, noteOctave := 4);
    ClearFieldsLast(s2, conditionCount);
  }

  /**
   * A cleared step: gate, slide and offsets off, the probabilities other
   * than note variation at their maximum, length at half its range, scale
   * bypassed, condition `Off`, no stage repeats, repeat mode `Each`, and
   * the unused bits clear; the number of conditions plays no part.
   */
  lemma ClearedDefaults(conditionCount: int)
    requires ValidConditionCount(conditionCount)
    ensures var s := Cleared(conditionCount);
      && !s.Gate() && s.GateProbability() == 15 && s.GateOffset() == 0 && !s.Slide()
      && s.BypassScale() && s.Retrigger() == 0 && s.RetriggerProbability() == 15
      && s.Length() == 7 && s.LengthVariationRange() == 0 && s.LengthVariationProbability() == 15
      && s.Note() == 0 && s.NoteOctave() == 0 && s.NoteOctaveProbability() == 15
      && s.NoteVariationProbability() == 0 && s.Condition() == ConditionOff
      && s.StageRepeats() == 0 && s.StageRepeatMode() == StageRepeatModeOrdinal(Each)
      && s.spare == 0
    ensures forall n :: ValidConditionCount(n) ==> Cleared(n) == Cleared(conditionCount)
  {
    ResetStepSpare();
    forall n | ValidConditionCount(n)
      ensures Cleared(n) == Step(false, false, 7, 8, 15, 64, 4, 0, 15, true, 0, 15, 15, 8, 0, 0, 0, 0)
    {
      ClearFieldsDefaults(ResetStep, n);
    }
  }

  /** The step `clear` leaves, field by field (`ClearedIsClearedStep`). */
  const ClearedStep := Step(false, false, 7, 8, 15, 64, 4, 0, 15, true, 0, 15, 15, 8, 0, 0, 0, 0)

  /** Whatever the number of conditions, `clear` leaves `ClearedStep`. */
  lemma ClearedIsClearedStep(conditionCount: int)
    requires ValidConditionCount(conditionCount)
    ensures Cleared(conditionCount) == ClearedStep
  {
    ResetStepSpare();
    ClearFieldsDefaults(ResetStep, conditionCount);
  }

  /** `setNote` stores a note in range offset by 64. */
  lemma SetNoteStored(s: Step, n: int)
    requires -64 <= n < 64
    ensures s.SetNote(n) == s.(note := n + 64)
  {
  }

  /** `clear` forgets everything: two steps cleared are equal. */
  lemma ClearForgets(a: Step, b: Step, conditionCount: int)
    requires ValidConditionCount(conditionCount)
    requires a.spare == b.spare
    ensures ClearFields(a, conditionCount) == ClearFields(b, conditionCount)
  {
    ClearFieldsDefaults(a, conditionCount);
    ClearFieldsDefaults(b, conditionCount);
  }

  /** `layerDefaultValue`: the value a layer has on a cleared step. */
  function LayerDefaultValue(layer: Layer, conditionCount: int): int
    requires ValidConditionCount(conditionCount)
  {
    Cleared(conditionCount).LayerValue(layer)
  }

  /**
   * The layer defaults: the maximum probability for gate, retrigger,
   * length variation and octave, half the range for length, and 0 for
   * every other layer (`Last` included); each lies in its layer's range.
   */
  lemma LayerDefaults(layer: Layer, conditionCount: int)
    requires ValidConditionCount(conditionCount)
    ensures LayerDefaultValue(layer, conditionCount) ==
      match layer
      case GateProbability => 15
      case RetriggerProbability => 15
      case LengthVariationProbability => 15
      case NoteOctaveProbability => 15
      case Length => 7
      case _ => 0
    ensures LayerRange(layer).0 <= LayerDefaultValue(layer, conditionCount) <= LayerRange(layer).1
  {
    ClearedDefaults(conditionCount);
  }

  //----------------------------------------
  // Layer properties
  //----------------------------------------

  /** The value `setLayerValue` stores for a layer: clamped to its range, or cast for a flag or the repeat mode. */
  function StoredLayerValue(layer: Layer, value: int, conditionCount: int): int
    requires ValidConditionCount(conditionCount)
  {
    match layer
    case Gate => if value != 0 then 1 else 0
    case Slide => if value != 0 then 1 else 0
    case Condition => ClampedEnum(value, conditionCount)
    case StageRepeatsMode => value % 8
    case LastLayer => 0
    case _ => Clamp(value, LayerRange(layer).0, LayerRange(layer).1)
  }

  /** Every layer value lies in the layer's range. */
  lemma LayerValueInRange(s: Step, layer: Layer)
    ensures LayerRange(layer).0 <= s.LayerValue(layer) <= LayerRange(layer).1
  {
  }

  /**
   * `setLayerValue` then `layerValue` reads back the stored value of the
   * layer written, and every other layer keeps its value; writing `Last`
   * changes nothing.
   */
  lemma SetLayerValueReadsBack(s: Step, layer: Layer, value: int, conditionCount: int)
    requires ValidConditionCount(conditionCount)
    ensures s.SetLayerValue(layer, value, conditionCount).LayerValue(layer)
      == StoredLayerValue(layer, value, conditionCount)
    ensures forall other :: other != layer ==>
      s.SetLayerValue(layer, value, conditionCount).LayerValue(other) == s.LayerValue(other)
    ensures layer == LastLayer ==> s.SetLayerValue(layer, value, conditionCount) == s
  {
  }

  /**
   * Writing back the value a layer holds leaves the step unchanged (for the
   * condition layer, as long as the stored condition is a valid one).
   */
  lemma SetLayerValueOwnValue(s: Step, layer: Layer, conditionCount: int)
    requires ValidConditionCount(conditionCount)
    requires layer == Condition ==> s.condition < conditionCount
    ensures s.SetLayerValue(layer, s.LayerValue(layer), conditionCount) == s
  {
    if layer == StageRepeatsMode {
      LowBits3(s.stageRepeatMode);
    }
  }

  /** Toggling a flag twice restores the step. */
  lemma ToggleTwiceRestores(s: Step)
    ensures s.ToggleGate().ToggleGate() == s
    ensures s.ToggleSlide().ToggleSlide() == s
    ensures s.ToggleBypassScale().ToggleBypassScale() == s
  {
  }

  //----------------------------------------
  // Serialization
  //----------------------------------------

  /** The number of bytes a step takes in a stream of the given project version. */
  function StepSize(version: int): nat {
    if version < 27 then 6 else 8
  }

  /** `Step::read` for the current format: both raw words. */
  function ReadCurrentStep(data: seq<Byte>): (r: Option<Decoded<Step>>)
    ensures r.Some? <==> |data| >= 8
    ensures r.Some? ==> r.value.rest == data[8..]
  {
    var w0 :- DecodeBits(data, 4);
    var w1 :- DecodeBits(w0.rest, 4);
    Some(Decoded(FromWords(w0.value, w1.value), w1.rest))
  }

  /**
   * The second word read from a 16-bit value, the upper bits clear; before
   * version 5 only the low 5 bits are kept.
   */
  function LegacyData1(stored: seq<bool>, version: int): Word32
    requires |stored| == 16
  {
    var data1 := stored + Zeros(16);
    if version < 5 then data1[..5] + Zeros(27) else data1
  }

  /** From version 5 on, the low 16 bits of the second word come from the stored value, the rest are 0. */
  lemma WidenedData1Fields(data0: Word32, stored: seq<bool>, version: int)
    requires |stored| == 16 && version >= 5
    ensures var t := FromWords(data0, LegacyData1(stored, version));
      && t.bypassScale == stored[0] && t.retrigger == FromBits(stored[1..4])
      && t.gateProbability == FromBits(stored[4..8])
      && t.retriggerProbability == FromBits(stored[8..12])
      && t.gateOffset == FromBits(stored[12..16])
      && t.condition == 0 && t.stageRepeats == 0 && t.stageRepeatMode == 0 && t.spare == 0
  {
    SliceOfPadded(stored, 16, 1, 4);
    SliceOfPadded(stored, 16, 4, 8);
    SliceOfPadded(stored, 16, 8, 12);
    SliceOfPadded(stored, 16, 12, 16);
    SliceOfPadded(stored, 16, 16, 23);
    SliceOfPadded(stored, 16, 23, 26);
    SliceOfPadded(stored, 16, 26, 29);
    SliceOfPadded(stored, 16, 29, 32);
    FromZeros(3);
    FromZeros(7);
  }

  /**
   * Before version 5, the second word keeps bypass scale, retrigger and
   * the low bit of gate probability; every other field is 0.
   */
  lemma MaskedData1Fields(data0: Word32, stored: seq<bool>, version: int)
    requires |stored| == 16 && version < 5
    ensures var t := FromWords(data0, LegacyData1(stored, version));
      && t.bypassScale == stored[0] && t.retrigger == FromBits(stored[1..4])
      && t.gateProbability == Bit(stored[4]) && t.retriggerProbability == 0 && t.gateOffset == 0
      && t.condition == 0 && t.stageRepeats == 0 && t.stageRepeatMode == 0 && t.spare == 0
  {
    var low := stored[..5];
    assert LegacyData1(stored, version) == low + Zeros(27);
    SliceOfPadded(low, 27, 1, 4);
    SliceOfPadded(low, 27, 4, 8);
    SliceOfPadded(low, 27, 8, 12);
    SliceOfPadded(low, 27, 12, 16);
    SliceOfPadded(low, 27, 16, 23);
    SliceOfPadded(low, 27, 23, 26);
    SliceOfPadded(low, 27, 26, 29);
    SliceOfPadded(low, 27, 29, 32);
    FromZeros(3);
    FromZeros(4);
    FromZeros(7);
    FromBitsPadded(low[4..], 3);
    BitField1(stored, 4);
    assert low[4..] == stored[4..5];
    assert low[1..4] == stored[1..4];
  }

  /** The step read from an older stream's first word and 16-bit second word. */
  function LegacyStep(data0: Word32, stored: seq<bool>, version: int, conditionCount: int): Step
    requires |stored| == 16 && ValidConditionCount(conditionCount)
  {
    var s := FromWords(data0, LegacyData1(stored, version));
    var s := if version < 7 then s.SetGateOffset(0) else s;
    if version < 12 then s.SetCondition(ConditionOff, conditionCount) else s
  }

  /**
   * `Step::read` before version 27, when the second word was 16 bits wide;
   * before version 5 only its low 5 bits were kept; before version 7 there
   * was no gate offset and before version 12 no condition.
   */
  function ReadLegacyStep(data: seq<Byte>, version: int, conditionCount: int): (r: Option<Decoded<Step>>)
    requires ValidConditionCount(conditionCount)
    ensures r.Some? <==> |data| >= 6
    ensures r.Some? ==> r.value.rest == data[6..]
  {
    var w0 :- DecodeBits(data, 4);
    var w1 :- DecodeBits(w0.rest, 2);
    Some(Decoded(LegacyStep(w0.value, w1.value, version, conditionCount), w1.rest))
  }

  /** `Step::read`; a stream too short for the step gives `None`. */
  function ReadStep(data: seq<Byte>, version: int, conditionCount: int): (r: Option<Decoded<Step>>)
    requires ValidConditionCount(conditionCount)
    ensures r.Some? <==> |data| >= StepSize(version)
    ensures r.Some? ==> r.value.rest == data[StepSize(version)..]
  {
    if version < 27 then ReadLegacyStep(data, version, conditionCount) else ReadCurrentStep(data)
  }

  /** A step written and read back in the current format is the same step, followed by the same bytes. */
  lemma WriteReadStep(s: Step, rest: seq<Byte>, version: int, conditionCount: int)
    requires ValidConditionCount(conditionCount) && version >= 27
    ensures ReadStep(s.Write() + rest, version, conditionCount) == Some(Decoded(s, rest))
  {
    TwoWordsRoundTrip(s.Data0(), s.Data1(), rest);
    WordsRoundTrip(s);
  }

  /** In the current format every 8 bytes are a step, and writing it gives the same bytes. */
  lemma ReadWriteStep(data: seq<Byte>, version: int, conditionCount: int)
    requires ValidConditionCount(conditionCount) && version >= 27 && |data| >= 8
    ensures ReadStep(data, version, conditionCount).value.value.Write() == data[..8]
  {
    ReadCurrentWrite(data);
  }

  lemma ReadCurrentWrite(data: seq<Byte>)
    requires |data| >= 8
    ensures ReadCurrentStep(data).value.value.Write() == data[..8]
  {
    var w0 := DecodeBits(data, 4).value;
    var w1 := DecodeBits(w0.rest, 4).value;
    var d0, d1: Word32 := w0.value, w1.value;
    assert ReadCurrentStep(data).value.value == FromWords(d0, d1);
    WriteFromWords(d0, d1);
    TwoWordsBytesRoundTrip(data, 4, 4);
  }

  /** The step two words unpack to writes the bytes of those words. */
  lemma WriteFromWords(data0: Word32, data1: Word32)
    ensures FromWords(data0, data1).Write() == EncodeBits(data0) + EncodeBits(data1)
  {
    FieldsCoverWords(data0, data1);
  }

  /**
   * An older step keeps its first word; of the 16-bit second word, bypass
   * scale and retrigger are kept, gate and retrigger probability only from
   * version 5 on (before it, the low bit of gate probability survives the
   * mask), the gate offset only from version 7 on; the condition is `Off`,
   * and the stage repeat fields and the unused bits, which lie above the
   * stored 16 bits, are 0.
   */
  lemma LegacyStepFields(data0: Word32, stored: seq<bool>, version: int, conditionCount: int)
    requires |stored| == 16 && ValidConditionCount(conditionCount) && version < 27
    ensures var s := LegacyStep(data0, stored, version, conditionCount);
      && s.Data0() == data0
      && s.BypassScale() == stored[0] && s.Retrigger() == FromBits(stored[1..4])
      && s.GateProbability() == (if version < 5 then Bit(stored[4]) else FromBits(stored[4..8]))
      && s.RetriggerProbability() == (if version < 5 then 0 else FromBits(stored[8..12]))
      && s.GateOffset() == (if version < 7 then 0 else FromBits(stored[12..16]) - 8)
      && s.Condition() == ConditionOff && s.StageRepeats() == 0
      && s.StageRepeatMode() == StageRepeatModeOrdinal(Each) && s.spare == 0
  {
    FirstWordCovered(data0, LegacyData1(stored, version));
    if version < 5 {
      MaskedData1Fields(data0, stored, version);
    } else {
      WidenedData1Fields(data0, stored, version);
    }
  }
}
