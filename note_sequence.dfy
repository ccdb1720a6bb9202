/**
 * `NoteSequence`: the step record of a note sequence, packed into two
 * 32-bit words (the first filled to bit 31, the second holding 16 bits of
 * fields), and the sequence's routable scale and root note.
 *
 * As for the stochastic step, a step is a value: the record of its raw
 * bit-field contents, each typed to its width, with each in-place setter
 * a function returning the updated step. `Data0` and `Data1` pack the
 * record into its words and `FromWords` unpacks them.
 */
module NoteSequences {
  import opened BitField
  import opened Values
  import opened Routing

  type Raw2 = x: int | 0 <= x < 4
  type Raw3 = x: int | 0 <= x < 8
  type Raw4 = x: int | 0 <= x < 16
  type Raw7 = x: int | 0 <= x < 128
  type Raw16 = x: int | 0 <= x < 0x1_0000

  /**
   * The number of `Types::Condition` enumerators: at least `Off`, and no
   * more than the 7-bit condition field holds (the header's static assertion).
   */
  predicate ValidConditionCount(n: int) {
    1 <= n <= 128
  }

  //----------------------------------------
  // Layers
  //----------------------------------------

  datatype Layer =
    | Gate | GateProbability | GateOffset | Slide | Retrigger | RetriggerProbability
    | Length | LengthVariationRange | LengthVariationProbability | Note
    | NoteVariationRange | NoteVariationProbability | Condition | LastLayer

  /** `layerName`: the display name, absent only for `Last`. */
  function LayerName(layer: Layer): (r: Option<string>)
    ensures r.None? <==> layer == LastLayer
  {
    match layer
    case Gate => Some("GATE")
    case GateProbability => Some("GATE PROB")
    case GateOffset => Some("GATE OFFSET")
    case Slide => Some("SLIDE")
    case Retrigger => Some("RETRIG")
    case RetriggerProbability => Some("RETRIG PROB")
    case Length => Some("LENGTH")
    case LengthVariationRange => Some("LENGTH RANGE")
    case LengthVariationProbability => Some("LENGTH PROB")
    case Note => Some("NOTE")
    case NoteVariationRange => Some("NOTE RANGE")
    case NoteVariationProbability => Some("NOTE PROB")
    case Condition => Some("CONDITION")
    case LastLayer => Option.None
  }

  //----------------------------------------
  // Step
  //----------------------------------------

  /** The raw contents of every bit field, in the order of their bit offsets. */
  datatype Step = Step(
    // first word
    gate: bool, slide: bool, gateProbability: Raw3, length: Raw3,
    lengthVariationRange: Raw4, lengthVariationProbability: Raw3, note: Raw7,
    noteVariationRange: Raw7, noteVariationProbability: Raw3,
    // second word
    retrigger: Raw2, retriggerProbability: Raw3, gateOffset: Raw4, condition: Raw7,
    /** The 16 unused top bits of the second word. */
    spare: Raw16)
  {
    /** `_data0.raw`: the fields of the first word, lowest first. */
    function Data0(): Word32 {
      Put(Bit(gate), 1, Put(Bit(slide), 1, Put(gateProbability, 3, Put(length, 3,
      Put(lengthVariationRange, 4, Put(lengthVariationProbability, 3, Put(note, 7,
      Put(noteVariationRange, 7, Put(noteVariationProbability, 3, [])))))))))
    }

    /** `_data1.raw`: the fields of the second word, lowest first. */
    function Data1(): Word32 {
      Put(retrigger, 2, Put(retriggerProbability, 3, Put(gateOffset, 4, Put(condition, 7,
      Put(spare, 16, [])))))
    }

    // gate and slide

    function Gate(): bool { gate }

    function SetGate(gate: bool): (r: Step)
      ensures r.Gate() == gate
    {
      this.(gate := gate)
    }

    function ToggleGate(): (r: Step)
      ensures r.Gate() == !Gate()
    {
      SetGate(!Gate())
    }

    function Slide(): bool { slide }

    function SetSlide(slide: bool): (r: Step)
      ensures r.Slide() == slide
    {
      this.(slide := slide)
    }

    function ToggleSlide(): (r: Step)
      ensures r.Slide() == !Slide()
    {
      SetSlide(!Slide())
    }

    // gateProbability: UnsignedValue<3>

    function GateProbability(): int { gateProbability }

    function SetGateProbability(p: int): (r: Step)
      ensures r.GateProbability() == Clamp(p, 0, 7)
    {
      this.(gateProbability := Clamp(p, 0, 7))
    }

    // gateOffset: SignedValue<4>, of which only the non-negative half is used

    function GateOffset(): int { gateOffset - 8 }

    /** `setGateOffset`: clamped to [-8, 7], then raised to at least 0. */
    function SetGateOffset(offset: int): (r: Step)
      ensures r.GateOffset() == Max(0, Clamp(offset, -8, 7))
    {
      this.(gateOffset := Max(0, Clamp(offset, -8, 7)) + 8)
    }

    // retrigger: UnsignedValue<2>

    function Retrigger(): int { retrigger }

    function SetRetrigger(retrigger: int): (r: Step)
      ensures r.Retrigger() == Clamp(retrigger, 0, 3)
    {
      this.(retrigger := Clamp(retrigger, 0, 3))
    }

    // retriggerProbability: UnsignedValue<3>

    function RetriggerProbability(): int { retriggerProbability }

    function SetRetriggerProbability(p: int): (r: Step)
      ensures r.RetriggerProbability() == Clamp(p, 0, 7)
    {
      this.(retriggerProbability := Clamp(p, 0, 7))
    }

    // length: UnsignedValue<3>

    function Length(): int { length }

    function SetLength(length: int): (r: Step)
      ensures r.Length() == Clamp(length, 0, 7)
    {
      this.(length := Clamp(length, 0, 7))
    }

    // lengthVariationRange: SignedValue<4>

    function LengthVariationRange(): int { lengthVariationRange - 8 }

    function SetLengthVariationRange(range: int): (r: Step)
      ensures r.LengthVariationRange() == Clamp(range, -8, 7)
    {
      this.(lengthVariationRange := Clamp(range, -8, 7) + 8)
    }

    // lengthVariationProbability: UnsignedValue<3>

    function LengthVariationProbability(): int { lengthVariationProbability }

    function SetLengthVariationProbability(p: int): (r: Step)
      ensures r.LengthVariationProbability() == Clamp(p, 0, 7)
    {
      this.(lengthVariationProbability := Clamp(p, 0, 7))
    }

    // note: SignedValue<7>

    function Note(): int { note - 64 }

    function SetNote(note: int): (r: Step)
      ensures r.Note() == Clamp(note, -64, 63)
    {
      this.(note := Clamp(note, -64, 63) + 64)
    }

    // noteVariationRange: SignedValue<7>

    function NoteVariationRange(): int { noteVariationRange - 64 }

    function SetNoteVariationRange(range: int): (r: Step)
      ensures r.NoteVariationRange() == Clamp(range, -64, 63)
    {
      this.(noteVariationRange := Clamp(range, -64, 63) + 64)
    }

    // noteVariationProbability: UnsignedValue<3>

    function NoteVariationProbability(): int { noteVariationProbability }

    function SetNoteVariationProbability(p: int): (r: Step)
      ensures r.NoteVariationProbability() == Clamp(p, 0, 7)
    {
      this.(noteVariationProbability := Clamp(p, 0, 7))
    }

    // condition: the ordinal of a `Types::Condition`

    function Condition(): int { condition }

    /** `setCondition`: the ordinal clamped into the enum (`ModelUtils::clampedEnum`). */
    function SetCondition(condition: int, conditionCount: int): (r: Step)
      requires ValidConditionCount(conditionCount)
      ensures r.Condition() == ClampedEnum(condition, conditionCount)
    {
      this.(condition := ClampedEnum(condition, conditionCount))
    }
  }

  //----------------------------------------
  // Bit layout
  //----------------------------------------

  /** The largest raw values of the field widths in use. */
  lemma FieldWidths()
    ensures Pow2(1) == 2 && Pow2(2) == 4 && Pow2(3) == 8 && Pow2(4) == 16 && Pow2(7) == 128
    ensures Pow2(16) == 0x1_0000
  {
  }

  /** Reads the fields of the two raw words at their bit offsets. */
  function FromWords(data0: Word32, data1: Word32): Step {
    FieldWidths();
    Step(
      data0[0], data0[1], FromBits(data0[2..5]), FromBits(data0[5..8]), FromBits(data0[8..12]),
      FromBits(data0[12..15]), FromBits(data0[15..22]), FromBits(data0[22..29]), FromBits(data0[29..32]),
      FromBits(data1[0..2]), FromBits(data1[2..5]), FromBits(data1[5..9]), FromBits(data1[9..16]),
      FromBits(data1[16..32]))
  }

  /** The first word's fields are disjoint and read back at their offsets. */
  lemma FirstWordRoundTrip(s: Step, data1: Word32)
    ensures var t := FromWords(s.Data0(), data1);
      t.gate == s.gate && t.slide == s.slide && t.gateProbability == s.gateProbability
      && t.length == s.length && t.lengthVariationRange == s.lengthVariationRange
      && t.lengthVariationProbability == s.lengthVariationProbability && t.note == s.note
      && t.noteVariationRange == s.noteVariationRange
      && t.noteVariationProbability == s.noteVariationProbability
  {
    FieldWidths();
    var d := s.Data0();
    var r8 := Put(s.noteVariationProbability, 3, []);
    var r7 := Put(s.noteVariationRange, 7, r8);
    var r6 := Put(s.note, 7, r7);
    var r5 := Put(s.lengthVariationProbability, 3, r6);
    var r4 := Put(s.lengthVariationRange, 4, r5);
    var r3 := Put(s.length, 3, r4);
    var r2 := Put(s.gateProbability, 3, r3);
    var r1 := Put(Bit(s.slide), 1, r2);
    assert d[0..] == Put(Bit(s.gate), 1, r1);
    GetPut(d, 0, Bit(s.gate), 1, r1);
    GetPut(d, 1, Bit(s.slide), 1, r2);
    GetPut(d, 2, s.gateProbability, 3, r3);
    GetPut(d, 5, s.length, 3, r4);
    GetPut(d, 8, s.lengthVariationRange, 4, r5);
    GetPut(d, 12, s.lengthVariationProbability, 3, r6);
    GetPut(d, 15, s.note, 7, r7);
    GetPut(d, 22, s.noteVariationRange, 7, r8);
    GetPut(d, 29, s.noteVariationProbability, 3, []);
    BitField1(d, 0);
    BitField1(d, 1);
  }

  /** The second word's fields are disjoint and read back at their offsets. */
  lemma SecondWordRoundTrip(data0: Word32, s: Step)
    ensures var t := FromWords(data0, s.Data1());
      t.retrigger == s.retrigger && t.retriggerProbability == s.retriggerProbability
      && t.gateOffset == s.gateOffset && t.condition == s.condition && t.spare == s.spare
  {
    FieldWidths();
    var d := s.Data1();
    var r4 := Put(s.spare, 16, []);
    var r3 := Put(s.condition, 7, r4);
    var r2 := Put(s.gateOffset, 4, r3);
    var r1 := Put(s.retriggerProbability, 3, r2);
    assert d[0..] == Put(s.retrigger, 2, r1);
    GetPut(d, 0, s.retrigger, 2, r1);
    GetPut(d, 2, s.retriggerProbability, 3, r2);
    GetPut(d, 5, s.gateOffset, 4, r3);
    GetPut(d, 9, s.condition, 7, r4);
    GetPut(d, 16, s.spare, 16, []);
  }

  /** Unpacking the words of a step gives the step back. */
  lemma WordsRoundTrip(s: Step)
    ensures FromWords(s.Data0(), s.Data1()) == s
  {
    FirstWordRoundTrip(s, s.Data1());
    SecondWordRoundTrip(s.Data0(), s);
  }

  /** The first word's fields cover all of its bits. */
  lemma FirstWordCovered(data0: Word32, data1: Word32)
    ensures FromWords(data0, data1).Data0() == data0
  {
    var d := data0;
    PutGet(d, 29, 3);
    PutGet(d, 22, 7);
    PutGet(d, 15, 7);
    PutGet(d, 12, 3);
    PutGet(d, 8, 4);
    PutGet(d, 5, 3);
    PutGet(d, 2, 3);
    PutGet(d, 1, 1);
    PutGet(d, 0, 1);
    BitField1(d, 0);
    BitField1(d, 1);
    assert d[32..] == [];
    assert d[0..] == d;
  }

  /** The second word's fields, the unused top bits included, cover all of its bits. */
  lemma SecondWordCovered(data0: Word32, data1: Word32)
    ensures FromWords(data0, data1).Data1() == data1
  {
    var e := data1;
    PutGet(e, 16, 16);
    PutGet(e, 9, 7);
    PutGet(e, 5, 4);
    PutGet(e, 2, 3);
    PutGet(e, 0, 2);
    assert e[32..] == [];
    assert e[0..] == e;
  }

  /** Every pair of words is the image of exactly the step they unpack to. */
  lemma FieldsCoverWords(data0: Word32, data1: Word32)
    ensures FromWords(data0, data1).Data0() == data0
    ensures FromWords(data0, data1).Data1() == data1
  {
    FirstWordCovered(data0, data1);
    SecondWordCovered(data0, data1);
  }

  /** `operator==` compares both raw words, which is comparing every field. */
  lemma StepEquality(a: Step, b: Step)
    ensures a == b <==> a.Data0() == b.Data0() && a.Data1() == b.Data1()
  {
    WordsRoundTrip(a);
    WordsRoundTrip(b);
  }

  /**
   * Every setter writes its own field and no other: two steps that agree
   * on every field but one still agree on it after the setter of that one.
   */
  lemma SettersTouchOneField(s: Step, x: int)
    ensures s.SetNote(x) == s.(note := s.SetNote(x).note)
    ensures s.SetNoteVariationRange(x) == s.(noteVariationRange := s.SetNoteVariationRange(x).noteVariationRange)
    ensures s.SetGateOffset(x).Data0() == s.Data0()
    ensures s.SetNote(x).Data1() == s.Data1()
    ensures s.SetRetrigger(x).Data0() == s.Data0()
    ensures s.SetLength(x).Data1() == s.Data1()
  {
  }

  /**
   * A gate offset never reads back negative, and a non-negative offset in
   * range is stored as given.
   */
  lemma GateOffsetNonNegative(s: Step, x: int)
    ensures 0 <= s.SetGateOffset(x).GateOffset() <= 7
    ensures 0 <= x <= 7 ==> s.SetGateOffset(x).GateOffset() == x
    ensures x < 0 ==> s.SetGateOffset(x).GateOffset() == 0
  {
  }

  /** Toggling a flag twice restores the step. */
  lemma ToggleTwiceRestores(s: Step)
    ensures s.ToggleGate().ToggleGate() == s
    ensures s.ToggleSlide().ToggleSlide() == s
  {
  }

  //----------------------------------------
  // Sequence
  //----------------------------------------

  /**
   * The routable parameters of a note sequence, the index of the track
   * whose routes apply to them, and the step array.
   */
  class NoteSequence {
    var trackIndex: Int8
    var scale: Routable<Int8>
    var rootNote: Routable<Int8>

    /** `_steps`, of `CONFIG_STEP_COUNT` steps. */
    const steps: array<Step>

    /** `Scale::Count`: the number of scales, each addressable by the byte-wide scale field. */
    const scaleCount: int

    predicate Valid() {
      1 <= scaleCount <= 128
    }

    constructor(steps: array<Step>, scaleCount: int)
      requires 1 <= scaleCount <= 128
      ensures Valid() && this.steps == steps && trackIndex == -1
      ensures scale.base == -1 && rootNote.base == -1
    {
      this.steps := steps;
      this.scaleCount := scaleCount;
      trackIndex := -1;
      scale := Routable(-1, -1);
      rootNote := Routable(-1, -1);
    }

    predicate IsRouted(rt: RouteTable, target: Target)
      reads this
    {
      rt.IsRouted(target, trackIndex)
    }

    // scale

    function Scale(rt: RouteTable): int
      reads this
    {
      scale.Get(IsRouted(rt, Target.Scale))
    }

    /** `setScale`: -1 (the project's scale) up to the last scale. */
    method SetScale(value: int, routed: bool)
      requires Valid()
      modifies this`scale
      ensures scale == old(scale).Set(Clamp(value, -1, scaleCount - 1), routed)
      ensures -1 <= scale.Get(routed) < scaleCount
    {
      scale := scale.Set(Clamp(value, -1, scaleCount - 1), routed);
    }

    /** `indexedScale`: the scale counted from 0 for "default". */
    function IndexedScale(rt: RouteTable): (r: int)
      reads this
      ensures r - 1 == Scale(rt)
    {
      Scale(rt) + 1
    }

    /** `setIndexedScale`: stores the scale whose index is `index`. */
    method SetIndexedScale(index: int, ghost rt: RouteTable)
      requires Valid()
      modifies this`scale
      ensures scale == old(scale).(base := Clamp(index - 1, -1, scaleCount - 1))
      ensures !IsRouted(rt, Target.Scale) ==> IndexedScale(rt) == Clamp(index, 0, scaleCount)
    {
      SetScale(index - 1, false);
    }

    /** `editScale`: moves the stored scale by `value` unless the scale is routed. */
    method EditScale(value: int, shift: bool, rt: RouteTable)
      requires Valid()
      modifies this`scale
      ensures IsRouted(rt, Target.Scale) ==> scale == old(scale)
      ensures !IsRouted(rt, Target.Scale) ==>
        scale == old(scale).(base := Clamp(old(scale.base) + value, -1, scaleCount - 1))
    {
      if !IsRouted(rt, Target.Scale) {
        SetScale(Scale(rt) + value, false);
      }
    }

    /** `selectedScale`: the index of the sequence's scale, or `defaultScale` when it has none. */
    function SelectedScale(defaultScale: int, rt: RouteTable): (r: int)
      reads this
      ensures Scale(rt) >= 0 ==> r == Scale(rt)
      ensures Scale(rt) < 0 ==> r == defaultScale
    {
      if Scale(rt) < 0 then defaultScale else Scale(rt)
    }

    // rootNote

    function RootNote(rt: RouteTable): int
      reads this
    {
      rootNote.Get(IsRouted(rt, Target.RootNote))
    }

    /** `setRootNote`: -1 (the project's root note) or a semitone 0 .. 11. */
    method SetRootNote(value: int, routed: bool)
      modifies this`rootNote
      ensures rootNote == old(rootNote).Set(Clamp(value, -1, 11), routed)
      ensures -1 <= rootNote.Get(routed) <= 11
    {
      rootNote := rootNote.Set(Clamp(value, -1, 11), routed);
    }

    /** `indexedRootNote`: the root note counted from 0 for "default". */
    function IndexedRootNote(rt: RouteTable): (r: int)
      reads this
      ensures r - 1 == RootNote(rt)
    {
      RootNote(rt) + 1
    }

    method SetIndexedRootNote(index: int, ghost rt: RouteTable)
      modifies this`rootNote
      ensures rootNote == old(rootNote).(base := Clamp(index - 1, -1, 11))
      ensures !IsRouted(rt, Target.RootNote) ==> IndexedRootNote(rt) == Clamp(index, 0, 12)
    {
      SetRootNote(index - 1, false);
    }

    /** `editRootNote`: moves the stored root note by `value` unless it is routed. */
    method EditRootNote(value: int, shift: bool, rt: RouteTable)
      modifies this`rootNote
      ensures IsRouted(rt, Target.RootNote) ==> rootNote == old(rootNote)
      ensures !IsRouted(rt, Target.RootNote) ==>
        rootNote == old(rootNote).(base := Clamp(old(rootNote.base) + value, -1, 11))
    {
      if !IsRouted(rt, Target.RootNote) {
        SetRootNote(RootNote(rt) + value, false);
      }
    }

    /** `selectedRootNote`: the sequence's root note, or `defaultRootNote` when it has none. */
    function SelectedRootNote(defaultRootNote: int, rt: RouteTable): (r: int)
      reads this
      ensures RootNote(rt) >= 0 ==> r == RootNote(rt)
      ensures RootNote(rt) < 0 ==> r == defaultRootNote
    {
      if RootNote(rt) < 0 then defaultRootNote else RootNote(rt)
    }
  }
}
