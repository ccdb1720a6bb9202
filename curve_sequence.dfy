/**
 * `CurveSequence`: the step record of a curve sequence, a 32-bit word of
 * shape and range fields and a 16-bit word of gate fields, and the
 * sequence's voltage range.
 *
 * As for the other step records, a step is a value: the record of its
 * raw bit-field contents, with each in-place setter a function returning
 * the updated step. `setMin` and `setMax` write two fields in order, the
 * bound given and then the other bound, so that after either call the
 * minimum does not exceed the maximum.
 */
module CurveSequences {
  import opened BitField
  import opened Values

  type Raw3 = x: int | 0 <= x < 8
  type Raw4 = x: int | 0 <= x < 16
  type Raw6 = x: int | 0 <= x < 64
  type Raw8 = x: int | 0 <= x < 256
  type Raw9 = x: int | 0 <= x < 512

  datatype Layer =
    | Shape | ShapeVariation | ShapeVariationProbability | Min | Max | Gate | GateProbability | LastLayer

  /** `layerName`: the display name, absent only for `Last`. */
  function LayerName(layer: Layer): (r: Option<string>)
    ensures r.None? <==> layer == LastLayer
  {
    match layer
    case Shape => Some("SHAPE")
    case ShapeVariation => Some("SHAPE VAR")
    case ShapeVariationProbability => Some("SHAPE PROB")
    case Min => Some("MIN")
    case Max => Some("MAX")
    case Gate => Some("GATE")
    case GateProbability => Some("GATE PROB")
    case LastLayer => Option.None
  }

  //----------------------------------------
  // Step
  //----------------------------------------

  /** The raw contents of every bit field, in the order of their bit offsets. */
  datatype Step = Step(
    // first word (32 bits)
    shape: Raw6, shapeVariation: Raw6, shapeVariationProbability: Raw4, min: Raw8, max: Raw8,
    // second word (16 bits)
    gate: Raw4, gateProbability: Raw3,
    /** The 9 unused top bits of the second word. */
    spare: Raw9)
  {
    /** `_data0.raw`. */
    function Data0(): Word32 {
      Put(shape, 6, Put(shapeVariation, 6, Put(shapeVariationProbability, 4, Put(min, 8, Put(max, 8, [])))))
    }

    /** `_data1.raw`, a 16-bit word. */
    function Data1(): Word16 {
      Put(gate, 4, Put(gateProbability, 3, Put(spare, 9, [])))
    }

    // shape and shapeVariation: a `Curve::Type` in a 6-bit field

    function Shape(): int { shape }

    /**
     * `setShape`: clamped to the curve types (`curveCount` is `Curve::Last`);
     * the 6-bit field keeps the low bits of what it is given.
     */
    function SetShape(shape: int, curveCount: int): (r: Step)
      ensures curveCount <= 64 ==> r.Shape() == Clamp(shape, 0, curveCount - 1)
      ensures r == this.(shape := r.shape)
    {
      this.(shape := Clamp(shape, 0, curveCount - 1) % 64)
    }

    function ShapeVariation(): int { shapeVariation }

    function SetShapeVariation(shape: int, curveCount: int): (r: Step)
      ensures curveCount <= 64 ==> r.ShapeVariation() == Clamp(shape, 0, curveCount - 1)
      ensures r == this.(shapeVariation := r.shapeVariation)
    {
      this.(shapeVariation := Clamp(shape, 0, curveCount - 1) % 64)
    }

    // shapeVariationProbability: a 4-bit field holding 0 .. 8

    function ShapeVariationProbability(): int { shapeVariationProbability }

    function SetShapeVariationProbability(p: int): (r: Step)
      ensures r.ShapeVariationProbability() == Clamp(p, 0, 8)
    {
      this.(shapeVariationProbability := Clamp(p, 0, 8))
    }

    // min and max: UnsignedValue<8>

    function Min(): int { min }
    function Max(): int { max }

    /** `setMin`: stores the clamped minimum, then raises the maximum to it. */
    function SetMin(x: int): (r: Step)
      ensures r.Min() == Clamp(x, 0, 255)
      ensures r.Max() == Values.Max(Max(), r.Min())
      ensures r.Min() <= r.Max()
    {
      var s := this.(min := Clamp(x, 0, 255));
      s.(max := Values.Max(s.max, s.min))
    }

    /** `setMax`: stores the clamped maximum, then lowers the minimum to it. */
    function SetMax(x: int): (r: Step)
      ensures r.Max() == Clamp(x, 0, 255)
      ensures r.Min() == Values.Min(Min(), r.Max())
      ensures r.Min() <= r.Max()
    {
      var s := this.(max := Clamp(x, 0, 255));
      s.(min := Values.Min(s.min, s.max))
    }

    // gate: UnsignedValue<4>; gateProbability: UnsignedValue<3>

    function Gate(): int { gate }

    function SetGate(gate: int): (r: Step)
      ensures r.Gate() == Clamp(gate, 0, 15)
    {
      this.(gate := Clamp(gate, 0, 15))
    }

    function GateProbability(): int { gateProbability }

    function SetGateProbability(p: int): (r: Step)
      ensures r.GateProbability() == Clamp(p, 0, 7)
    {
      this.(gateProbability := Clamp(p, 0, 7))
    }

    /** `operator==`: compares the first raw word only. */
    predicate Equals(other: Step) {
      Data0() == other.Data0()
    }
  }

  //----------------------------------------
  // Bit layout
  //----------------------------------------

  lemma FieldWidths()
    ensures Pow2(3) == 8 && Pow2(4) == 16 && Pow2(6) == 64 && Pow2(8) == 256 && Pow2(9) == 512
  {
  }

  /** Reads the fields of the two raw words at their bit offsets. */
  function FromWords(data0: Word32, data1: Word16): Step {
    FieldWidths();
    Step(
      FromBits(data0[0..6]), FromBits(data0[6..12]), FromBits(data0[12..16]),
      FromBits(data0[16..24]), FromBits(data0[24..32]),
      FromBits(data1[0..4]), FromBits(data1[4..7]), FromBits(data1[7..16]))
  }

  /** The first word's fields are disjoint and read back at their offsets. */
  lemma FirstWordRoundTrip(s: Step, data1: Word16)
    ensures var t := FromWords(s.Data0(), data1);
      t.shape == s.shape && t.shapeVariation == s.shapeVariation
      && t.shapeVariationProbability == s.shapeVariationProbability
      && t.min == s.min && t.max == s.max
  {
    FieldWidths();
    var d := s.Data0();
    var r4 := Put(s.max, 8, []);
    var r3 := Put(s.min, 8, r4);
    var r2 := Put(s.shapeVariationProbability, 4, r3);
    var r1 := Put(s.shapeVariation, 6, r2);
    assert d[0..] == Put(s.shape, 6, r1);
    GetPut(d, 0, s.shape, 6, r1);
    GetPut(d, 6, s.shapeVariation, 6, r2);
    GetPut(d, 12, s.shapeVariationProbability, 4, r3);
    GetPut(d, 16, s.min, 8, r4);
    GetPut(d, 24, s.max, 8, []);
  }

  /** The second word's fields are disjoint and read back at their offsets. */
  lemma SecondWordRoundTrip(data0: Word32, s: Step)
    ensures var t := FromWords(data0, s.Data1());
      t.gate == s.gate && t.gateProbability == s.gateProbability && t.spare == s.spare
  {
    FieldWidths();
    var d := s.Data1();
    var r2 := Put(s.spare, 9, []);
    var r1 := Put(s.gateProbability, 3, r2);
    assert d[0..] == Put(s.gate, 4, r1);
    GetPut(d, 0, s.gate, 4, r1);
    GetPut(d, 4, s.gateProbability, 3, r2);
    GetPut(d, 7, s.spare, 9, []);
  }

  /** Unpacking the words of a step gives the step back. */
  lemma WordsRoundTrip(s: Step)
    ensures FromWords(s.Data0(), s.Data1()) == s
  {
    FirstWordRoundTrip(s, s.Data1());
    SecondWordRoundTrip(s.Data0(), s);
  }

  /**
   * `operator==` is equality of the shape and range fields alone: two
   * steps compare equal exactly when those agree, whatever their gates.
   */
  lemma EqualsComparesFirstWord(a: Step, b: Step)
    ensures a.Equals(b) <==>
      a.shape == b.shape && a.shapeVariation == b.shapeVariation
      && a.shapeVariationProbability == b.shapeVariationProbability
      && a.min == b.min && a.max == b.max
  {
    FirstWordRoundTrip(a, a.Data1());
    FirstWordRoundTrip(b, a.Data1());
  }

  /** Steps that differ only in their gate fields compare equal. */
  lemma EqualsIgnoresGates(s: Step, gate: int, p: int)
    ensures s.SetGate(gate).SetGateProbability(p).Equals(s)
  {
  }

  //----------------------------------------
  // The range invariant
  //----------------------------------------

  /** A call of `setMin` or `setMax` with its argument. */
  datatype BoundEdit = SetMinTo(value: int) | SetMaxTo(value: int)

  function ApplyEdit(s: Step, e: BoundEdit): Step {
    match e
    case SetMinTo(x) => s.SetMin(x)
    case SetMaxTo(x) => s.SetMax(x)
  }

  /** The calls applied in order. */
  function ApplyEdits(s: Step, edits: seq<BoundEdit>): Step
    decreases |edits|
  {
    if |edits| == 0 then s else ApplyEdits(ApplyEdit(s, edits[0]), edits[1..])
  }

  /**
   * After any non-empty sequence of `setMin`/`setMax` calls the minimum
   * does not exceed the maximum, both lie in [0, 255], and the bound the
   * last call set holds its clamped argument.
   */
  lemma {:induction false} EditsKeepRangeOrdered(s: Step, edits: seq<BoundEdit>)
    requires |edits| > 0 || s.Min() <= s.Max()
    ensures var t := ApplyEdits(s, edits);
      && t.Min() <= t.Max()
      && (|edits| > 0 && edits[|edits| - 1].SetMinTo? ==> t.Min() == Clamp(edits[|edits| - 1].value, 0, 255))
      && (|edits| > 0 && edits[|edits| - 1].SetMaxTo? ==> t.Max() == Clamp(edits[|edits| - 1].value, 0, 255))
    decreases |edits|
  {
    if |edits| > 0 {
      var s1 := ApplyEdit(s, edits[0]);
      EditsKeepRangeOrdered(s1, edits[1..]);
      if |edits| > 1 {
        assert edits[1..][|edits[1..]| - 1] == edits[|edits| - 1];
      }
    }
  }

  /** Once ordered, the bounds stay ordered through any sequence of calls, the empty one included. */
  lemma EditsPreserveRangeOrder(s: Step, edits: seq<BoundEdit>)
    requires s.Min() <= s.Max()
    ensures ApplyEdits(s, edits).Min() <= ApplyEdits(s, edits).Max()
  {
    EditsKeepRangeOrdered(s, edits);
  }

  /** `setMin` with a value in range leaves an ordered pair alone above it. */
  lemma SetMinKeepsLargerMax(s: Step, x: int)
    requires 0 <= x <= s.Max()
    ensures s.SetMin(x) == s.(min := x)
  {
  }

  //----------------------------------------
  // Sequence
  //----------------------------------------

  /** The voltage range of a curve sequence, and its steps. */
  class CurveSequence {
    /** The ordinal of a `Types::VoltageRange`. */
    var range: int

    /** `_steps`, of `CONFIG_STEP_COUNT` steps. */
    const steps: array<Step>

    /** `Types::VoltageRange::Last`. */
    const voltageRangeCount: int

    predicate Valid()
      reads this
    {
      voltageRangeCount >= 1 && 0 <= range < voltageRangeCount
    }

    constructor(steps: array<Step>, voltageRangeCount: int)
      requires voltageRangeCount >= 1
      ensures Valid() && this.steps == steps && range == 0
    {
      this.steps := steps;
      this.voltageRangeCount := voltageRangeCount;
      range := 0;
    }

    /** `setRange`: the ordinal clamped into the enumeration. */
    method SetRange(value: int)
      requires voltageRangeCount >= 1
      modifies this`range
      ensures range == ClampedEnum(value, voltageRangeCount)
      ensures Valid()
    {
      range := ClampedEnum(value, voltageRangeCount);
    }

    /** `editRange`: the range moved by `value` and clamped into the enumeration. */
    method EditRange(value: int, shift: bool)
      requires voltageRangeCount >= 1
      modifies this`range
      ensures range == ClampedEnum(old(range) + value, voltageRangeCount)
      ensures Valid()
    {
      SetRange(range + value);
    }
  }
}
