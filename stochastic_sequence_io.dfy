/**
 * The byte image of a `StochasticSequence` (`write` and `read`): the
 * stored copies of the scalar parameters, then every step in index order
 * with no count in front. The rest-probability, length-modifier, octave
 * range and sequence loop parameters are written as whole `Routable`
 * values, that is their stored copy followed by their routed copy; the
 * others are written as their stored copy only.
 */
module StochasticSequenceIO {
  import opened Values
  import opened Routing
  import opened Serialize
  import opened StochasticSteps

  /** The parameters a sequence writes, as stored in their C++ field types. */
  datatype SavedFields = SavedFields(
    scale: Int8, rootNote: Int8, divisor: Uint16, resetMeasure: Uint8, runMode: Uint8,
    firstStep: Uint8, lastStep: Uint8,
    restProbability2: Routable<Int8>, restProbability4: Routable<Int8>,
    restProbability8: Routable<Int8>, lengthModifier: Routable<Int8>,
    lowOctaveRange: Routable<Int8>, highOctaveRange: Routable<Int8>,
    sequenceFirstStep: Routable<Uint8>, sequenceLastStep: Routable<Uint8>)

  //----------------------------------------
  // Routable values
  //----------------------------------------

  function EncodeRoutableI8(r: Routable<Int8>): (b: seq<Byte>)
    ensures |b| == 2
  {
    EncodeI8(r.base) + EncodeI8(r.routed)
  }

  function DecodeRoutableI8(data: seq<Byte>): (r: Option<Decoded<Routable<Int8>>>)
    ensures r.Some? <==> |data| >= 2
    ensures r.Some? ==> r.value.rest == data[2..]
  {
    var b :- DecodeI8(data);
    var v :- DecodeI8(b.rest);
    Some(Decoded(Routable(b.value, v.value), v.rest))
  }

  function EncodeRoutableU8(r: Routable<Uint8>): (b: seq<Byte>)
    ensures |b| == 2
  {
    EncodeU8(r.base) + EncodeU8(r.routed)
  }

  function DecodeRoutableU8(data: seq<Byte>): (r: Option<Decoded<Routable<Uint8>>>)
    ensures r.Some? <==> |data| >= 2
    ensures r.Some? ==> r.value.rest == data[2..]
  {
    var b :- DecodeU8(data);
    var v :- DecodeU8(b.rest);
    Some(Decoded(Routable(b.value, v.value), v.rest))
  }

  lemma RoutableI8RoundTrip(r: Routable<Int8>, rest: seq<Byte>)
    ensures DecodeRoutableI8(EncodeRoutableI8(r) + rest) == Some(Decoded(r, rest))
  {
    assert EncodeRoutableI8(r) + rest == EncodeI8(r.base) + (EncodeI8(r.routed) + rest);
    I8RoundTrip(r.base, EncodeI8(r.routed) + rest);
    I8RoundTrip(r.routed, rest);
  }

  lemma RoutableU8RoundTrip(r: Routable<Uint8>, rest: seq<Byte>)
    ensures DecodeRoutableU8(EncodeRoutableU8(r) + rest) == Some(Decoded(r, rest))
  {
    assert EncodeRoutableU8(r) + rest == EncodeU8(r.base) + (EncodeU8(r.routed) + rest);
    U8RoundTrip(r.base, EncodeU8(r.routed) + rest);
    U8RoundTrip(r.routed, rest);
  }

  //----------------------------------------
  // Parameters
  //----------------------------------------

  /** The parameters every version holds: scale to last step. */
  function WriteHeader(s: SavedFields): (b: seq<Byte>)
    ensures |b| == 8
  {
    EncodeI8(s.scale) + (EncodeI8(s.rootNote) + (EncodeU16(s.divisor) + (EncodeU8(s.resetMeasure)
    + (EncodeU8(s.runMode) + (EncodeU8(s.firstStep) + EncodeU8(s.lastStep))))))
  }

  /** Reads the header fields into `prior`; before version 10 the divisor is one byte. */
  function ReadHeader(data: seq<Byte>, version: int, prior: SavedFields): (r: Option<Decoded<SavedFields>>)
    ensures r.Some? <==> |data| >= (if version < 10 then 7 else 8)
    ensures r.Some? ==> r.value.rest == data[(if version < 10 then 7 else 8)..]
  {
    var scale :- DecodeI8(data);
    var rootNote :- DecodeI8(scale.rest);
    var divisor :- if version < 10 then DecodeU8(rootNote.rest) else DecodeU16(rootNote.rest);
    var resetMeasure :- DecodeU8(divisor.rest);
    var runMode :- DecodeU8(resetMeasure.rest);
    var firstStep :- DecodeU8(runMode.rest);
    var lastStep :- DecodeU8(firstStep.rest);
    Some(Decoded(prior.(scale := scale.value, rootNote := rootNote.value, divisor := divisor.value,
      resetMeasure := resetMeasure.value, runMode := runMode.value, firstStep := firstStep.value,
      lastStep := lastStep.value), lastStep.rest))
  }

  /** The parameters added in version 36: rest probabilities, length modifier, octave range. */
  function WriteRests(s: SavedFields): (b: seq<Byte>)
    ensures |b| == 12
  {
    EncodeRoutableI8(s.restProbability2) + (EncodeRoutableI8(s.restProbability4)
    + (EncodeRoutableI8(s.restProbability8) + (EncodeRoutableI8(s.lengthModifier)
    + (EncodeRoutableI8(s.lowOctaveRange) + EncodeRoutableI8(s.highOctaveRange)))))
  }

  /** Reads the version 36 fields into `prior`; an older stream holds none and keeps `prior`'s. */
  function ReadRests(data: seq<Byte>, version: int, prior: SavedFields): (r: Option<Decoded<SavedFields>>)
    ensures version < 36 ==> r == Some(Decoded(prior, data))
    ensures version >= 36 ==> (r.Some? <==> |data| >= 12)
    ensures version >= 36 && r.Some? ==> r.value.rest == data[12..]
  {
    if version < 36 then Some(Decoded(prior, data))
    else
      var p2 :- DecodeRoutableI8(data);
      var p4 :- DecodeRoutableI8(p2.rest);
      var p8 :- DecodeRoutableI8(p4.rest);
      var lengthModifier :- DecodeRoutableI8(p8.rest);
      var low :- DecodeRoutableI8(lengthModifier.rest);
      var high :- DecodeRoutableI8(low.rest);
      Some(Decoded(prior.(restProbability2 := p2.value, restProbability4 := p4.value,
        restProbability8 := p8.value, lengthModifier := lengthModifier.value,
        lowOctaveRange := low.value, highOctaveRange := high.value), high.rest))
  }

  /** The parameters added in version 37: the sequence loop bounds. */
  function WriteLoop(s: SavedFields): (b: seq<Byte>)
    ensures |b| == 4
  {
    EncodeRoutableU8(s.sequenceFirstStep) + EncodeRoutableU8(s.sequenceLastStep)
  }

  /** Reads the version 37 fields into `prior`; an older stream holds none and keeps `prior`'s. */
  function ReadLoop(data: seq<Byte>, version: int, prior: SavedFields): (r: Option<Decoded<SavedFields>>)
    ensures version < 37 ==> r == Some(Decoded(prior, data))
    ensures version >= 37 ==> (r.Some? <==> |data| >= 4)
    ensures version >= 37 && r.Some? ==> r.value.rest == data[4..]
  {
    if version < 37 then Some(Decoded(prior, data))
    else
      var first :- DecodeRoutableU8(data);
      var last :- DecodeRoutableU8(first.rest);
      Some(Decoded(prior.(sequenceFirstStep := first.value, sequenceLastStep := last.value), last.rest))
  }

  /** The parameters in the order `write` emits them. */
  function WriteFields(s: SavedFields): seq<Byte> {
    WriteHeader(s) + (WriteRests(s) + WriteLoop(s))
  }

  /** The parameters as `read` consumes them, starting from the sequence's current ones. */
  function ReadFields(data: seq<Byte>, version: int, prior: SavedFields): Option<Decoded<SavedFields>> {
    var h :- ReadHeader(data, version, prior);
    var r :- ReadRests(h.rest, version, h.value);
    ReadLoop(r.rest, version, r.value)
  }

  lemma HeaderRoundTrip(s: SavedFields, rest: seq<Byte>, version: int, prior: SavedFields)
    requires version >= 10
    ensures ReadHeader(WriteHeader(s) + rest, version, prior)
      == Some(Decoded(prior.(scale := s.scale, rootNote := s.rootNote, divisor := s.divisor,
           resetMeasure := s.resetMeasure, runMode := s.runMode, firstStep := s.firstStep,
           lastStep := s.lastStep), rest))
  {
    var r6 := EncodeU8(s.lastStep) + rest;
    var r5 := EncodeU8(s.firstStep) + r6;
    var r4 := EncodeU8(s.runMode) + r5;
    var r3 := EncodeU8(s.resetMeasure) + r4;
    var r2 := EncodeU16(s.divisor) + r3;
    var r1 := EncodeI8(s.rootNote) + r2;
    assert WriteHeader(s) + rest == EncodeI8(s.scale) + r1;
    I8RoundTrip(s.scale, r1);
    I8RoundTrip(s.rootNote, r2);
    U16RoundTrip(s.divisor, r3);
    U8RoundTrip(s.resetMeasure, r4);
    U8RoundTrip(s.runMode, r5);
    U8RoundTrip(s.firstStep, r6);
    U8RoundTrip(s.lastStep, rest);
  }

  lemma RestsRoundTrip(s: SavedFields, rest: seq<Byte>, version: int, prior: SavedFields)
    requires version >= 36
    ensures ReadRests(WriteRests(s) + rest, version, prior)
      == Some(Decoded(prior.(restProbability2 := s.restProbability2, restProbability4 := s.restProbability4,
           restProbability8 := s.restProbability8, lengthModifier := s.lengthModifier,
           lowOctaveRange := s.lowOctaveRange, highOctaveRange := s.highOctaveRange), rest))
  {
    var r5 := EncodeRoutableI8(s.highOctaveRange) + rest;
    var r4 := EncodeRoutableI8(s.lowOctaveRange) + r5;
    var r3 := EncodeRoutableI8(s.lengthModifier) + r4;
    var r2 := EncodeRoutableI8(s.restProbability8) + r3;
    var r1 := EncodeRoutableI8(s.restProbability4) + r2;
    assert WriteRests(s) + rest == EncodeRoutableI8(s.restProbability2) + r1;
    RoutableI8RoundTrip(s.restProbability2, r1);
    RoutableI8RoundTrip(s.restProbability4, r2);
    RoutableI8RoundTrip(s.restProbability8, r3);
    RoutableI8RoundTrip(s.lengthModifier, r4);
    RoutableI8RoundTrip(s.lowOctaveRange, r5);
    RoutableI8RoundTrip(s.highOctaveRange, rest);
  }

  lemma LoopRoundTrip(s: SavedFields, rest: seq<Byte>, version: int, prior: SavedFields)
    requires version >= 37
    ensures ReadLoop(WriteLoop(s) + rest, version, prior)
      == Some(Decoded(prior.(sequenceFirstStep := s.sequenceFirstStep,
           sequenceLastStep := s.sequenceLastStep), rest))
  {
    var r1 := EncodeRoutableU8(s.sequenceLastStep) + rest;
    assert WriteLoop(s) + rest == EncodeRoutableU8(s.sequenceFirstStep) + r1;
    RoutableU8RoundTrip(s.sequenceFirstStep, r1);
    RoutableU8RoundTrip(s.sequenceLastStep, rest);
  }

  /** In the current format the parameters read back as written, whatever the sequence held before. */
  lemma FieldsRoundTrip(s: SavedFields, rest: seq<Byte>, version: int, prior: SavedFields)
    requires version >= 37
    ensures ReadFields(WriteFields(s) + rest, version, prior) == Some(Decoded(s, rest))
  {
    var l := WriteLoop(s) + rest;
    var r := WriteRests(s) + l;
    assert WriteFields(s) + rest == WriteHeader(s) + r;
    HeaderRoundTrip(s, r, version, prior);
    var h := prior.(scale := s.scale, rootNote := s.rootNote, divisor := s.divisor,
      resetMeasure := s.resetMeasure, runMode := s.runMode, firstStep := s.firstStep,
      lastStep := s.lastStep);
    RestsRoundTrip(s, l, version, h);
    var h2 := h.(restProbability2 := s.restProbability2, restProbability4 := s.restProbability4,
      restProbability8 := s.restProbability8, lengthModifier := s.lengthModifier,
      lowOctaveRange := s.lowOctaveRange, highOctaveRange := s.highOctaveRange);
    LoopRoundTrip(s, rest, version, h2);
  }

  /**
   * An older stream: the header is read (a one-byte divisor before
   * version 10), the version 36 fields keep their prior values before
   * version 36, and the loop bounds keep theirs before version 37.
   */
  lemma ReadFieldsLegacy(data: seq<Byte>, version: int, prior: SavedFields)
    requires version < 37
    ensures var r := ReadFields(data, version, prior);
      var size := (if version < 10 then 7 else 8) + (if version < 36 then 0 else 12);
      && (r.Some? <==> |data| >= size)
      && (r.Some? ==> r.value.rest == data[size..])
      && (r.Some? ==> (r.value.value.sequenceFirstStep == prior.sequenceFirstStep
                       && r.value.value.sequenceLastStep == prior.sequenceLastStep))
      && (r.Some? && version < 36 ==>
            && r.value.value.restProbability2 == prior.restProbability2
            && r.value.value.restProbability4 == prior.restProbability4
            && r.value.value.restProbability8 == prior.restProbability8
            && r.value.value.lengthModifier == prior.lengthModifier
            && r.value.value.lowOctaveRange == prior.lowOctaveRange
            && r.value.value.highOctaveRange == prior.highOctaveRange)
  {
    var h := ReadHeader(data, version, prior);
    if h.Some? {
      var r := ReadRests(h.value.rest, version, h.value.value);
      if r.Some? {
        assert ReadLoop(r.value.rest, version, r.value.value) == Some(r.value);
        assert ReadFields(data, version, prior) == Some(r.value);
      }
    }
  }

  //----------------------------------------
  // Steps
  //----------------------------------------

  /** `Step::write` as the writer `writeArray` applies to each step. */
  function StepWriter(): Step -> seq<Byte> {
    (s: Step) => s.Write()
  }

  /** `Step::read` for the given version as the reader `readArray` applies to each step. */
  function StepReader(version: int, conditionCount: int): seq<Byte> -> Option<Decoded<Step>>
    requires ValidConditionCount(conditionCount)
  {
    d => ReadStep(d, version, conditionCount)
  }

  /** `writeArray` of steps: every step in index order. */
  function WriteSteps(steps: seq<Step>): (b: seq<Byte>)
    ensures |b| == 8 * |steps|
  {
    WriteArraySize(steps, StepWriter(), 8);
    WriteArray(steps, StepWriter())
  }

  /** `readArray` of steps: `count` steps in index order. */
  function ReadSteps(data: seq<Byte>, count: nat, version: int, conditionCount: int): (r: Option<Decoded<seq<Step>>>)
    requires ValidConditionCount(conditionCount)
    ensures r.Some? ==> |r.value.value| == count
  {
    ReadArray(data, count, StepReader(version, conditionCount))
  }

  /** The step array takes the step size times the count: it fails only on shorter input and consumes exactly that much. */
  lemma ReadStepsSize(data: seq<Byte>, count: nat, version: int, conditionCount: int)
    requires ValidConditionCount(conditionCount)
    ensures var r := ReadSteps(data, count, version, conditionCount);
      && (r.Some? <==> |data| >= count * StepSize(version))
      && (r.Some? ==> r.value.rest == data[count * StepSize(version)..])
  {
    var read := StepReader(version, conditionCount);
    assert FixedSize(read, StepSize(version)) by {
      forall d: seq<Byte>
        ensures (read(d).Some? <==> |d| >= StepSize(version))
        ensures read(d).Some? ==> read(d).value.rest == d[StepSize(version)..]
      {
        assert read(d) == ReadStep(d, version, conditionCount);
      }
    }
    ReadArraySize(data, count, read, StepSize(version));
  }

  /** In the current format the steps read back as written. */
  lemma StepsRoundTrip(steps: seq<Step>, rest: seq<Byte>, version: int, conditionCount: int)
    requires ValidConditionCount(conditionCount) && version >= 27
    ensures ReadSteps(WriteSteps(steps) + rest, |steps|, version, conditionCount) == Some(Decoded(steps, rest))
  {
    var write, read := StepWriter(), StepReader(version, conditionCount);
    forall s, r ensures read(write(s) + r) == Some(Decoded(s, r)) {
      WriteReadStep(s, r, version, conditionCount);
    }
    ArrayRoundTrip(steps, rest, write, read);
  }
  //----------------------------------------
  // Sequence
  //----------------------------------------

  /** `StochasticSequence::write`: the parameters, then the steps. */
  function WriteSequence(fields: SavedFields, steps: seq<Step>): (b: seq<Byte>)
    ensures |b| == 24 + 8 * |steps|
  {
    WriteFields(fields) + WriteSteps(steps)
  }

  /** `StochasticSequence::read` of `count` steps, starting from the parameters `prior`. */
  function ReadSequence(data: seq<Byte>, version: int, prior: SavedFields, count: nat, conditionCount: int)
    : (r: Option<Decoded<(SavedFields, seq<Step>)>>)
    requires ValidConditionCount(conditionCount)
    ensures r.Some? ==> |r.value.value.1| == count
  {
    var f :- ReadFields(data, version, prior);
    var s :- ReadSteps(f.rest, count, version, conditionCount);
    Some(Decoded((f.value, s.value), s.rest))
  }

  /** In the current format a sequence reads back as written, whatever the reader held before. */
  lemma SequenceRoundTrip(fields: SavedFields, steps: seq<Step>, rest: seq<Byte>, version: int,
                          prior: SavedFields, conditionCount: int)
    requires ValidConditionCount(conditionCount) && version >= 37
    ensures ReadSequence(WriteSequence(fields, steps) + rest, version, prior, |steps|, conditionCount)
      == Some(Decoded((fields, steps), rest))
  {
    ConcatAssoc(WriteFields(fields), WriteSteps(steps), rest);
    FieldsRoundTrip(fields, WriteSteps(steps) + rest, version, prior);
    StepsRoundTrip(steps, rest, version, conditionCount);
  }
}
