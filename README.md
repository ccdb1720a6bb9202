# Performer sequencer data model in Dafny

This project models the core of the data model of the Performer eurorack
sequencer firmware:

- the packed step records of note, curve and stochastic sequences;
- the stochastic sequence with its parameters, its step array and its
  project-file format;
- the parameter block shared by logic and stochastic tracks;
- the `Track` tagged union over the track kinds;
- the pattern-follow setting of a track;
- the UI page stack (`PageManager`);
- the key-code map of the front panel (`Key`).

Each step record is a Dafny `datatype` holding the raw contents of its bit
fields. The two raw words are built from those fields at their bit offsets
(`Data0`, `Data1`), and each in-place setter becomes a function that returns
the updated step. The objects the firmware updates in place are Dafny
`class`es: sequences, tracks, the parameter block, the pattern-follow
setting and the page manager. Their setters are methods with `modifies`
clauses. A `Routable` value keeps a base copy and a routed copy. Which
targets are routed for which track comes from the routing table, which is
passed in as a `RouteTable` value.

Files:

- `values.dfy`: clamping, the enum clamp, and the 8- and 16-bit integer casts.
- `bitfield.dfy`: bit words as `seq<bool>`, lowest bit first, and field packing.
- `serialize.dfy`: little-endian byte encoding of integers and raw words.
- `routing.dfy`: routing targets, the routing table and `Routable`.
- `stochastic_step.dfy`: `StochasticSequence::Step`.
- `stochastic_sequence.dfy`: `StochasticSequence`.
- `stochastic_sequence_io.dfy`: the stochastic sequence's file format.
- `note_sequence.dfy`: `NoteSequence`, its step and its scale and root-note settings.
- `curve_sequence.dfy`: `CurveSequence`, its step and its voltage range.
- `track_parameters.dfy`: the parameter block that logic and stochastic tracks share.
- `logic_track.dfy`: `LogicTrack`.
- `stochastic_track.dfy`: `StochasticTrack`.
- `track.dfy`: `Track`.
- `pattern_follow.dfy`: `BaseTrackPatternFollow`.
- `page_manager.dfy`: `PageManager`.
- `key.dfy`: `Key` and `MatrixMap`.

## Model

| member | source | states |
|---|---|---|
| StochasticSteps.LayerName | src/apps/sequencer/model/StochasticSequence.h:61-82 | every real layer has a display name; only `Last` has none |
| StochasticSteps.LayerRange | src/apps/sequencer/model/StochasticSequence.cpp:7-37 | each layer's value range is non-empty |
| StochasticSteps.Step.SetGate | src/apps/sequencer/model/StochasticSequence.h:130-132 | the gate reads back as set |
| StochasticSteps.Step.ToggleGate | src/apps/sequencer/model/StochasticSequence.h:130-134 | toggling inverts the gate |
| StochasticSteps.Step.SetGateProbability | src/apps/sequencer/model/StochasticSequence.h:136-141 | the probability reads back clamped to 0..15 |
| StochasticSteps.Step.SetGateOffset | src/apps/sequencer/model/StochasticSequence.h:143-148 | the signed offset reads back clamped to -8..7; it is stored with a bias of 8 |
| StochasticSteps.Step.SetSlide | src/apps/sequencer/model/StochasticSequence.h:150-156 | the slide flag reads back as set |
| StochasticSteps.Step.ToggleSlide | src/apps/sequencer/model/StochasticSequence.h:150-156 | toggling inverts the slide flag |
| StochasticSteps.Step.SetRetrigger | src/apps/sequencer/model/StochasticSequence.h:160-165 | the retrigger count reads back clamped to 0..7 |
| StochasticSteps.Step.SetRetriggerProbability | src/apps/sequencer/model/StochasticSequence.h:167-172 | the probability reads back clamped to 0..15 |
| StochasticSteps.Step.SetLength | src/apps/sequencer/model/StochasticSequence.h:174-179 | the length reads back clamped to 0..15 |
| StochasticSteps.Step.SetLengthVariationRange | src/apps/sequencer/model/StochasticSequence.h:181-186 | the signed range reads back clamped to -8..7 |
| StochasticSteps.Step.SetLengthVariationProbability | src/apps/sequencer/model/StochasticSequence.h:188-193 | the probability reads back clamped to 0..15 |
| StochasticSteps.Step.SetNote | src/apps/sequencer/model/StochasticSequence.h:195-200 | the signed note reads back clamped to -64..63 |
| StochasticSteps.Step.SetNoteOctave | src/apps/sequencer/model/StochasticSequence.h:202-207 | the signed octave reads back clamped to -4..3 |
| StochasticSteps.Step.SetNoteOctaveProbability | src/apps/sequencer/model/StochasticSequence.h:209-214 | the probability reads back clamped to 0..15 |
| StochasticSteps.Step.SetNoteVariationProbability | src/apps/sequencer/model/StochasticSequence.h:216-221 | the probability reads back clamped to 0..15 |
| StochasticSteps.Step.SetCondition | src/apps/sequencer/model/StochasticSequence.h:223-226 | the condition reads back as its ordinal clamped into the enumeration |
| StochasticSteps.Step.SetStageRepeats | src/apps/sequencer/model/StochasticSequence.h:114-117 | the repeat count reads back clamped to 0..7 |
| StochasticSteps.Step.SetStageRepeatsMode | src/apps/sequencer/model/StochasticSequence.h:119-127 | the mode is stored unclamped, so only its low 3 bits are kept |
| StochasticSteps.Step.SetBypassScale | src/apps/sequencer/model/StochasticSequence.h:232-238 | the bypass flag reads back as set |
| StochasticSteps.Step.ToggleBypassScale | src/apps/sequencer/model/StochasticSequence.h:232-238 | toggling inverts the bypass flag |
| StochasticSteps.Step.Write | src/apps/sequencer/model/StochasticSequence.cpp:194-197 | a step is written as 8 bytes, its two raw words |
| StochasticSteps.LowBits3 | src/apps/sequencer/model/StochasticSequence.h:119-127 | a 3-bit field keeps its value modulo 8 |
| StochasticSteps.FirstWordRoundTrip | src/apps/sequencer/model/StochasticSequence.h:259-271 | every field of the first word reads back from its bit offset |
| StochasticSteps.SecondWordRoundTrip | src/apps/sequencer/model/StochasticSequence.h:272-284 | every field of the second word reads back from its bit offset |
| StochasticSteps.WordsRoundTrip | src/apps/sequencer/model/StochasticSequence.h:259-284 | unpacking a step's two raw words gives the step back |
| StochasticSteps.FieldsCoverWords | src/apps/sequencer/model/StochasticSequence.h:259-284 | the fields cover both words: packing the unpacked fields gives back any pair of raw words |
| StochasticSteps.StepEquality | src/apps/sequencer/model/StochasticSequence.h:251-257 | two steps are equal exactly when both raw words are equal |
| StochasticSteps.ClearedDefaults | src/apps/sequencer/model/StochasticSequence.cpp:172-192 | `Step::clear` gives the listed default for every field, whatever the condition count |
| StochasticSteps.ClearForgets | src/apps/sequencer/model/StochasticSequence.cpp:172-192 | clearing forgets every field the setters write |
| StochasticSteps.LayerDefaults | src/apps/sequencer/model/StochasticSequence.cpp:39-79 | each layer's default value, and that it lies within the layer's range |
| StochasticSteps.LayerValueInRange | src/apps/sequencer/model/StochasticSequence.cpp:81-118 | every layer value a step reports lies within that layer's range |
| StochasticSteps.SetLayerValueReadsBack | src/apps/sequencer/model/StochasticSequence.cpp:120-170 | writing a layer changes that layer alone, to the value its setter stores; `Last` changes nothing |
| StochasticSteps.SetLayerValueOwnValue | src/apps/sequencer/model/StochasticSequence.cpp:81-170 | writing back a layer's own value leaves the step unchanged |
| StochasticSteps.ToggleTwiceRestores | src/apps/sequencer/model/StochasticSequence.h:130-238 | two toggles of gate, slide or bypass restore the step |
| StochasticSteps.ReadCurrentStep | src/apps/sequencer/model/StochasticSequence.cpp:211-214 | reading the current format takes exactly 8 bytes and fails only on short input |
| StochasticSteps.WidenedData1Fields | src/apps/sequencer/model/StochasticSequence.cpp:200-202 | a 16-bit legacy second word is widened: its fields are kept and the upper fields read as 0 |
| StochasticSteps.MaskedData1Fields | src/apps/sequencer/model/StochasticSequence.cpp:203-205 | before version 5 the second word is masked to its low 5 bits |
| StochasticSteps.ReadLegacyStep | src/apps/sequencer/model/StochasticSequence.cpp:199-210 | reading a legacy step takes exactly 6 bytes and fails only on short input |
| StochasticSteps.ReadStep | src/apps/sequencer/model/StochasticSequence.cpp:199-216 | a step read takes 6 or 8 bytes by version and fails only on short input |
| StochasticSteps.WriteReadStep | src/apps/sequencer/model/StochasticSequence.cpp:194-216 | reading a written step gives the step back, followed by the rest of the input |
| StochasticSteps.ReadWriteStep | src/apps/sequencer/model/StochasticSequence.cpp:194-216 | writing a step that was read gives back the 8 bytes it was read from |
| StochasticSteps.LegacyStepFields | src/apps/sequencer/model/StochasticSequence.cpp:199-210 | a legacy step: gate offset 0 before version 7, condition off, and the masked probabilities before version 5 |
| StochasticSequences.DefaultStepIsCleared | src/apps/sequencer/model/StochasticSequence.cpp:293-301 | a cleared step whose note is its index among the first twelve; its gate is off |
| StochasticSequences.ClearOctaveRangeAsWrittenKeepsNegativeLow | src/apps/sequencer/model/StochasticSequence.cpp:285-286 | clearing keeps a negative low octave range when the high one is negative (see Findings) |
| StochasticSequences.ClearOctaveRange | src/apps/sequencer/model/StochasticSequence.cpp:285-286 | clearing sets both octave ranges to 0 and keeps their routed copies |
| StochasticSequences.ClearOctaveRangeAgrees | src/apps/sequencer/model/StochasticSequence.cpp:285-286 | the corrected clear agrees with the code when the high octave range is not negative |
| StochasticSequences.StochasticSequence.constructor | src/apps/sequencer/model/StochasticSequence.h:742 | a new sequence holds the values `clear()` sets: scale and root note -1, the clamped divisor of 12, reset measure, run mode and step bounds 0, the loop 0..15, zero rest, octave and length bases, no reseed, no message, and the default steps; track index -1 and the loop flags off |
| StochasticSequences.StochasticSequence.SetTrackIndex | src/apps/sequencer/model/StochasticSequence.h:760 | the index is stored in an `int8_t`, and every other parameter keeps its value |
| StochasticSequences.StochasticSequence.SetScale | src/apps/sequencer/model/StochasticSequence.h:300-302 | the scale is clamped to -1 (the default scale) up to the last scale, in the chosen copy |
| StochasticSequences.StochasticSequence.SetIndexedScale | src/apps/sequencer/model/StochasticSequence.h:304-307 | the stored scale becomes the index minus one, clamped, and the routed copy is kept; unrouted, the indexed scale reads back clamped to 0..scale count |
| StochasticSequences.StochasticSequence.EditScale | src/apps/sequencer/model/StochasticSequence.h:309-313 | a routed scale is left alone; otherwise the base copy is set to the clamped value |
| StochasticSequences.StochasticSequence.SelectedScale | src/apps/sequencer/model/StochasticSequence.h:320-322 | the sequence's own scale, or the default when it has none |
| StochasticSequences.StochasticSequence.SetRootNote | src/apps/sequencer/model/StochasticSequence.h:327-329 | the root note is clamped to -1..11 in the chosen copy |
| StochasticSequences.StochasticSequence.SetIndexedRootNote | src/apps/sequencer/model/StochasticSequence.h:331-334 | the stored root note becomes the index minus one, clamped to -1..11, and the routed copy is kept; unrouted, the indexed root note reads back clamped to 0..12 |
| StochasticSequences.StochasticSequence.EditRootNote | src/apps/sequencer/model/StochasticSequence.h:336-340 | a routed root note is left alone; otherwise it moves by the edit value and is clamped |
| StochasticSequences.StochasticSequence.SelectedRootNote | src/apps/sequencer/model/StochasticSequence.h:351-353 | the sequence's own root note, or the default when it has none |
| StochasticSequences.StochasticSequence.SetDivisor | src/apps/sequencer/model/StochasticSequence.h:358-360 | the divisor goes through the divisor clamp into the chosen copy |
| StochasticSequences.StochasticSequence.SetResetMeasure | src/apps/sequencer/model/StochasticSequence.h:384-386 | the reset measure is clamped to 0..128 |
| StochasticSequences.StochasticSequence.SetRunMode | src/apps/sequencer/model/StochasticSequence.h:403-405 | the run mode is clamped into the enumeration |
| StochasticSequences.StochasticSequence.EditRunMode | src/apps/sequencer/model/StochasticSequence.h:407-411 | a routed run mode is left alone; otherwise it moves by the edit value and is clamped into the enumeration |
| StochasticSequences.StochasticSequence.LastStep | src/apps/sequencer/model/StochasticSequence.h:442-445 | the last step is never before the first step |
| StochasticSequences.StochasticSequence.SetFirstStep | src/apps/sequencer/model/StochasticSequence.h:424-426 | the first step is clamped to 0..last step, and the bounds stay ordered |
| StochasticSequences.StochasticSequence.SetLastStep | src/apps/sequencer/model/StochasticSequence.h:447-449 | the last step is clamped to first step..step count - 1 |
| StochasticSequences.StochasticSequence.EditFirstStep | src/apps/sequencer/model/StochasticSequence.h:428-434 | the first step moves and is clamped; with shift both bounds are offset; the bounds stay ordered |
| StochasticSequences.StochasticSequence.EditLastStep | src/apps/sequencer/model/StochasticSequence.h:451-457 | the last step moves and is clamped; with shift both bounds are offset; the bounds stay ordered |
| StochasticSequences.StochasticSequence.OffsetFirstAndLastStep | src/apps/sequencer/model/StochasticSequence.h:762-771 | both bounds move by the offset, limited so that the window stays inside the steps |
| StochasticSequences.StochasticSequence.SetStepBounds | src/apps/sequencer/model/StochasticSequence.h:463-465 | both bounds are set to the index, stored as `uint8_t` |
| StochasticSequences.StochasticSequence.RestProbability | src/apps/sequencer/model/StochasticSequence.h:469-475 | the rest probability is what the three rest probabilities leave of 15, and never negative |
| StochasticSequences.StochasticSequence.SetRestProbability2 | src/apps/sequencer/model/StochasticSequence.h:484-486 | clamped to 0..15 in the chosen copy |
| StochasticSequences.StochasticSequence.SetRestProbability4 | src/apps/sequencer/model/StochasticSequence.h:502-504 | clamped to 0..15 in the chosen copy |
| StochasticSequences.StochasticSequence.SetRestProbability8 | src/apps/sequencer/model/StochasticSequence.h:520-522 | clamped to 0..15 in the chosen copy |
| StochasticSequences.StochasticSequence.EditRestProbability2 | src/apps/sequencer/model/StochasticSequence.h:488-492 | a routed value is left alone; otherwise it moves by the edit value and is clamped |
| StochasticSequences.StochasticSequence.EditRestProbability4 | src/apps/sequencer/model/StochasticSequence.h:506-510 | a routed value is left alone; otherwise it moves by the edit value and is clamped |
| StochasticSequences.StochasticSequence.EditRestProbability8 | src/apps/sequencer/model/StochasticSequence.h:524-528 | a routed value is left alone; otherwise it moves by the edit value and is clamped |
| StochasticSequences.StochasticSequence.SetReseed | src/apps/sequencer/model/StochasticSequence.h:537-548 | a reseed is ignored while routed; when reseed is on, the reseed message is posted |
| StochasticSequences.StochasticSequence.SequenceLastStep | src/apps/sequencer/model/StochasticSequence.h:552-554 | the loop's last step is never before its first step |
| StochasticSequences.StochasticSequence.SetSequenceLastStep | src/apps/sequencer/model/StochasticSequence.h:556-558 | clamped to loop first step..step count - 1 |
| StochasticSequences.StochasticSequence.SetSequenceFirstStep | src/apps/sequencer/model/StochasticSequence.h:579-581 | clamped to 0..loop last step |
| StochasticSequences.StochasticSequence.EditSequenceLastStep | src/apps/sequencer/model/StochasticSequence.h:560-566 | moves and clamps the loop's last step unless it is routed, or with shift offsets the loop as `offsetSequenceFirstAndLastStep` does in every routing case |
| StochasticSequences.StochasticSequence.EditSequenceFirstStep | src/apps/sequencer/model/StochasticSequence.h:583-589 | moves and clamps the loop's first step unless `FirstStep` is routed, or with shift offsets the loop as `offsetSequenceFirstAndLastStep` does in every routing case |
| StochasticSequences.StochasticSequence.OffsetSequenceFirstAndLastStep | src/apps/sequencer/model/StochasticSequence.h:773-782 | the new stored loop bounds in every routing case: a routed last step keeps its stored copy while the first step moves against the routed last step, and a routed `FirstStep` keeps the stored first step; the routed copies are kept |
| StochasticSequences.StochasticSequence.UnroutedLoopOffset | src/apps/sequencer/model/StochasticSequence.h:773-782 | with nothing routed, the two edits move the whole loop by the offset clamped to the steps |
| StochasticSequences.StochasticSequence.SequenceLength | src/apps/sequencer/model/StochasticSequence.h:598-600 | the loop length is between 1 and the loop's last step + 1 |
| StochasticSequences.StochasticSequence.BufferLoopLength | src/apps/sequencer/model/StochasticSequence.h:604-610 | the buffer length is at least 16 and longer than the loop |
| StochasticSequences.StochasticSequence.ToggleUseLoop | src/apps/sequencer/model/StochasticSequence.h:614-621 | toggling flips the loop flag and posts the loop-on or loop-off message |
| StochasticSequences.StochasticSequence.SetUseLoop | src/apps/sequencer/model/StochasticSequence.h:623-625 | the loop flag is set |
| StochasticSequences.StochasticSequence.SetClearLoop | src/apps/sequencer/model/StochasticSequence.h:635-640 | the flag is set, and setting it posts the cleared message |
| StochasticSequences.StochasticSequence.SetMessage | src/apps/sequencer/model/StochasticSequence.h:707-709 | the message is posted |
| StochasticSequences.StochasticSequence.SetLowOctaveRange | src/apps/sequencer/model/StochasticSequence.h:651-653 | clamped to -10..high octave range |
| StochasticSequences.StochasticSequence.SetHighOctaveRange | src/apps/sequencer/model/StochasticSequence.h:669-671 | clamped to low octave range..10 |
| StochasticSequences.StochasticSequence.EditLowOctaveRange | src/apps/sequencer/model/StochasticSequence.h:655-659 | a routed value is left alone; otherwise it moves and is clamped below the high range |
| StochasticSequences.StochasticSequence.EditHighOctaveRange | src/apps/sequencer/model/StochasticSequence.h:673-677 | a routed value is left alone; otherwise it moves and is clamped above the low range |
| StochasticSequences.StochasticSequence.SetLengthModifier | src/apps/sequencer/model/StochasticSequence.h:687-689 | clamped to the length modifier's range |
| StochasticSequences.StochasticSequence.EditLengthModifier | src/apps/sequencer/model/StochasticSequence.h:691-695 | a routed value is left alone; otherwise it moves and is clamped |
| StochasticSequences.StochasticSequence.WriteRouted | src/apps/sequencer/model/StochasticSequence.cpp:218-268 | a routed write sets the routed copy of the one parameter that is the target, through its setter, and no other |
| StochasticSequences.StochasticSequence.IsEmpty | src/apps/sequencer/model/StochasticSequence.h:711-719 | a sequence is empty exactly when none of its first twelve steps has its gate on |
| StochasticSequences.StochasticSequence.IsEdited | src/apps/sequencer/model/StochasticSequence.cpp:303-315 | a sequence is edited exactly when one of its first twelve steps differs from its default step |
| StochasticSequences.StochasticSequence.ClearSteps | src/apps/sequencer/model/StochasticSequence.cpp:293-301 | every step becomes its default step, so no gate is on and the sequence is not edited |
| StochasticSequences.StochasticSequence.SetGates | src/apps/sequencer/model/StochasticSequence.cpp:317-324 | the listed gates go to the first steps; gates beyond the last step are ignored |
| StochasticSequences.StochasticSequence.SetNotes | src/apps/sequencer/model/StochasticSequence.cpp:326-333 | the listed notes go to the first steps; notes beyond the last step are ignored |
| StochasticSequences.StochasticSequence.DuplicateSteps | src/apps/sequencer/model/StochasticSequence.cpp:343-346 | the step window is doubled when it fits, and clamped to the last step otherwise |
| StochasticSequences.StochasticSequence.Clear | src/apps/sequencer/model/StochasticSequence.cpp:270-291 | every parameter's base copy is reset to its default, the reseed and message follow `setReseed`, the routed copies are kept, and every step becomes its default step; the octave ranges follow the corrected reset of the Findings table |
| StochasticSequences.StochasticSequence.Read | src/apps/sequencer/model/StochasticSequence.cpp:368-392 | a read decodes the fields and the steps, and a failed read changes nothing |
| StochasticSequences.WriteReadSequence | src/apps/sequencer/model/StochasticSequence.cpp:348-392 | reading a sequence that was written gives back its fields and its steps |
| StochasticSequenceIO.RoutableI8RoundTrip | src/apps/sequencer/model/StochasticSequence.cpp:348-392 | a routable signed byte reads back as written |
| StochasticSequenceIO.RoutableU8RoundTrip | src/apps/sequencer/model/StochasticSequence.cpp:348-392 | a routable unsigned byte reads back as written |
| StochasticSequenceIO.ReadHeader | src/apps/sequencer/model/StochasticSequence.cpp:369-379 | the header is 8 bytes, or 7 before version 10 when the divisor was one byte |
| StochasticSequenceIO.ReadRests | src/apps/sequencer/model/StochasticSequence.cpp:380-385 | the rest and octave fields are read from version 36 on, and kept as they were before it |
| StochasticSequenceIO.ReadLoop | src/apps/sequencer/model/StochasticSequence.cpp:386-387 | the loop bounds are read from version 37 on, and kept as they were before it |
| StochasticSequenceIO.HeaderRoundTrip | src/apps/sequencer/model/StochasticSequence.cpp:349-379 | the header reads back as written |
| StochasticSequenceIO.RestsRoundTrip | src/apps/sequencer/model/StochasticSequence.cpp:356-385 | the rest and octave fields read back as written |
| StochasticSequenceIO.LoopRoundTrip | src/apps/sequencer/model/StochasticSequence.cpp:362-387 | the loop bounds read back as written |
| StochasticSequenceIO.FieldsRoundTrip | src/apps/sequencer/model/StochasticSequence.cpp:349-387 | all the fields read back as written |
| StochasticSequenceIO.ReadFieldsLegacy | src/apps/sequencer/model/StochasticSequence.cpp:380-387 | an older file leaves the fields it lacks as they were |
| StochasticSequenceIO.ReadStepsSize | src/apps/sequencer/model/StochasticSequence.cpp:391 | the step array takes the step size times the count, and fails exactly when the input is shorter |
| StochasticSequenceIO.WriteSteps | src/apps/sequencer/model/StochasticSequence.cpp:365 | the step array is eight bytes per step |
| Serialize.WriteArraySize | src/apps/sequencer/model/StochasticSequence.cpp:365 | an array of fixed-size values takes the size times the count |
| Serialize.ReadArraySize | src/apps/sequencer/model/StochasticSequence.cpp:391 | an array of fixed-size values reads exactly when the input holds the count times the size, and leaves the rest after them |
| Serialize.ArrayRoundTrip | src/apps/sequencer/model/StochasticSequence.cpp:365-391 | an array reads back as written when each value does |
| StochasticSequenceIO.StepsRoundTrip | src/apps/sequencer/model/StochasticSequence.cpp:365-391 | the step array reads back as written |
| StochasticSequenceIO.SequenceRoundTrip | src/apps/sequencer/model/StochasticSequence.cpp:348-392 | the whole sequence reads back as written, followed by the rest of the input |
| Serialize.U8RoundTrip | src/core/io/SerializedWriter.h:15-17 | an unsigned byte reads back as written |
| Serialize.I8RoundTrip | src/core/io/SerializedWriter.h:15-17 | a signed byte reads back as written |
| Serialize.U16RoundTrip | src/core/io/SerializedWriter.h:15-17 | a 16-bit value, written low byte first, reads back as written |
| Serialize.BitsRoundTrip | src/apps/sequencer/model/StochasticSequence.cpp:194-197 | a raw word written as bytes reads back as written |
| Serialize.BytesRoundTrip | src/apps/sequencer/model/StochasticSequence.cpp:199-216 | bytes read as a raw word are written back unchanged |
| Routing.Routable.Set | src/apps/sequencer/model/StochasticSequence.h:299-302 | a write goes to the chosen copy alone |
| Routing.ApplyWritesKeepsCopiesApart | src/apps/sequencer/model/StochasticSequence.h:299-302 | after any writes, each copy holds the last value written to it |
| NoteSequences.LayerName | src/apps/sequencer/model/NoteSequence.h:44-65 | every real layer has a display name; only `Last` has none |
| NoteSequences.Step.SetGate | src/apps/sequencer/model/NoteSequence.h:75-77 | the gate reads back as set |
| NoteSequences.Step.ToggleGate | src/apps/sequencer/model/NoteSequence.h:75-79 | toggling inverts the gate |
| NoteSequences.Step.SetSlide | src/apps/sequencer/model/NoteSequence.h:96-104 | the slide flag reads back as set |
| NoteSequences.Step.ToggleSlide | src/apps/sequencer/model/NoteSequence.h:96-104 | toggling inverts the slide flag |
| NoteSequences.Step.SetGateProbability | src/apps/sequencer/model/NoteSequence.h:81-86 | the probability reads back clamped to 0..7 |
| NoteSequences.Step.SetGateOffset | src/apps/sequencer/model/NoteSequence.h:88-94 | the offset reads back clamped to -8..7 and then raised to at least 0 |
| NoteSequences.Step.SetRetrigger | src/apps/sequencer/model/NoteSequence.h:106-111 | the retrigger count reads back clamped to 0..3 |
| NoteSequences.Step.SetRetriggerProbability | src/apps/sequencer/model/NoteSequence.h:113-118 | the probability reads back clamped to 0..7 |
| NoteSequences.Step.SetLength | src/apps/sequencer/model/NoteSequence.h:120-125 | the length reads back clamped to 0..7 |
| NoteSequences.Step.SetLengthVariationRange | src/apps/sequencer/model/NoteSequence.h:127-132 | the signed range reads back clamped to -8..7 |
| NoteSequences.Step.SetLengthVariationProbability | src/apps/sequencer/model/NoteSequence.h:134-139 | the probability reads back clamped to 0..7 |
| NoteSequences.Step.SetNote | src/apps/sequencer/model/NoteSequence.h:141-146 | the signed note reads back clamped to -64..63 |
| NoteSequences.Step.SetNoteVariationRange | src/apps/sequencer/model/NoteSequence.h:148-153 | the signed range reads back clamped to -64..63 |
| NoteSequences.Step.SetNoteVariationProbability | src/apps/sequencer/model/NoteSequence.h:155-160 | the probability reads back clamped to 0..7 |
| NoteSequences.Step.SetCondition | src/apps/sequencer/model/NoteSequence.h:162-166 | the condition reads back as its ordinal clamped into the enumeration |
| NoteSequences.FirstWordRoundTrip | src/apps/sequencer/model/NoteSequence.h:189-199 | every field of the first word reads back from its bit offset |
| NoteSequences.SecondWordRoundTrip | src/apps/sequencer/model/NoteSequence.h:200-209 | every field of the second word reads back from its bit offset |
| NoteSequences.WordsRoundTrip | src/apps/sequencer/model/NoteSequence.h:189-209 | unpacking a step's raw words gives the step back |
| NoteSequences.FieldsCoverWords | src/apps/sequencer/model/NoteSequence.h:189-209 | the fields cover both words: packing the unpacked fields gives back any pair of raw words |
| NoteSequences.StepEquality | src/apps/sequencer/model/NoteSequence.h:181-187 | two steps are equal exactly when both raw words are equal |
| NoteSequences.SettersTouchOneField | src/apps/sequencer/model/NoteSequence.h:75-166 | each setter changes its own field, and the other word is untouched |
| NoteSequences.GateOffsetNonNegative | src/apps/sequencer/model/NoteSequence.h:88-94 | a stored gate offset is never negative: a negative one becomes 0 |
| NoteSequences.ToggleTwiceRestores | src/apps/sequencer/model/NoteSequence.h:75-104 | two toggles of the gate or the slide restore the step |
| NoteSequences.NoteSequence.constructor | src/apps/sequencer/model/NoteSequence.h:290 | a new sequence has the default scale and root note (-1) and track index -1 |
| NoteSequences.NoteSequence.SetScale | src/apps/sequencer/model/NoteSequence.h:221-223 | the scale is clamped to -1..last scale in the chosen copy |
| NoteSequences.NoteSequence.IndexedScale | src/apps/sequencer/model/NoteSequence.h:225 | the indexed scale is the scale plus one, so the default scale is index 0 |
| NoteSequences.NoteSequence.SetIndexedScale | src/apps/sequencer/model/NoteSequence.h:226-228 | the indexed scale reads back clamped to 0..scale count |
| NoteSequences.NoteSequence.EditScale | src/apps/sequencer/model/NoteSequence.h:230-234 | a routed scale is left alone; otherwise the scale is edited and clamped |
| NoteSequences.NoteSequence.SelectedScale | src/apps/sequencer/model/NoteSequence.h:241-243 | the sequence's own scale, or the default when it has none |
| NoteSequences.NoteSequence.SetRootNote | src/apps/sequencer/model/NoteSequence.h:248-250 | the root note is clamped to -1..11 in the chosen copy |
| NoteSequences.NoteSequence.IndexedRootNote | src/apps/sequencer/model/NoteSequence.h:252 | the indexed root note is the root note plus one |
| NoteSequences.NoteSequence.SetIndexedRootNote | src/apps/sequencer/model/NoteSequence.h:253-255 | the indexed root note reads back clamped to 0..12 |
| NoteSequences.NoteSequence.EditRootNote | src/apps/sequencer/model/NoteSequence.h:257-261 | a routed root note is left alone; otherwise it is edited and clamped |
| NoteSequences.NoteSequence.SelectedRootNote | src/apps/sequencer/model/NoteSequence.h:272-274 | the sequence's own root note, or the default when it has none |
| CurveSequences.LayerName | src/apps/sequencer/model/CurveSequence.h:31-44 | every real layer has a display name; only `Last` has none |
| CurveSequences.Step.SetShape | src/apps/sequencer/model/CurveSequence.h:57-61 | the shape is clamped to the curve types, and no other field changes |
| CurveSequences.Step.SetShapeVariation | src/apps/sequencer/model/CurveSequence.h:64-68 | the shape variation is clamped to the curve types, and no other field changes |
| CurveSequences.Step.SetShapeVariationProbability | src/apps/sequencer/model/CurveSequence.h:71-75 | the probability is clamped to 0..8 |
| CurveSequences.Step.SetMin | src/apps/sequencer/model/CurveSequence.h:78-81 | the minimum is clamped to 0..255, and the maximum is raised to it |
| CurveSequences.Step.SetMax | src/apps/sequencer/model/CurveSequence.h:91-94 | the maximum is clamped to 0..255, and the minimum is lowered to it |
| CurveSequences.Step.SetGate | src/apps/sequencer/model/CurveSequence.h:104-108 | the gate pattern is clamped to 0..15 |
| CurveSequences.Step.SetGateProbability | src/apps/sequencer/model/CurveSequence.h:111-115 | the gate probability is clamped to 0..7 |
| CurveSequences.FirstWordRoundTrip | src/apps/sequencer/model/CurveSequence.h:138-145 | every shape and range field reads back from its bit offset |
| CurveSequences.SecondWordRoundTrip | src/apps/sequencer/model/CurveSequence.h:146-150 | every gate field reads back from its bit offset |
| CurveSequences.WordsRoundTrip | src/apps/sequencer/model/CurveSequence.h:138-150 | unpacking a step's raw words gives the step back |
| CurveSequences.EqualsComparesFirstWord | src/apps/sequencer/model/CurveSequence.h:129-135 | steps compare equal exactly when their shape and range fields agree |
| CurveSequences.EqualsIgnoresGates | src/apps/sequencer/model/CurveSequence.h:129-135 | steps that differ only in their gate fields compare equal |
| CurveSequences.EditsKeepRangeOrdered | src/apps/sequencer/model/CurveSequence.h:77-94 | after any non-empty series of min and max edits, min <= max, both lie in 0..255, and the last bound edited holds its clamped value |
| CurveSequences.EditsPreserveRangeOrder | src/apps/sequencer/model/CurveSequence.h:77-94 | an ordered range stays ordered through any series of edits |
| CurveSequences.SetMinKeepsLargerMax | src/apps/sequencer/model/CurveSequence.h:77-81 | a minimum in range below the maximum changes only the minimum |
| CurveSequences.CurveSequence.constructor | src/apps/sequencer/model/CurveSequence.h:189 | a new sequence has the first voltage range and the given steps |
| CurveSequences.CurveSequence.SetRange | src/apps/sequencer/model/CurveSequence.h:163-165 | the voltage range is clamped into the enumeration |
| CurveSequences.CurveSequence.EditRange | src/apps/sequencer/model/CurveSequence.h:167-169 | the voltage range moves by the edit value and is clamped |
| TrackParameters.FillModeName | src/apps/sequencer/model/LogicTrack.h:33-42 | every real fill mode has a name; only `Last` has none |
| TrackParameters.CvUpdateModeName | src/apps/sequencer/model/LogicTrack.h:52-59 | every real CV update mode has a name; only `Last` has none |
| TrackParameters.ClampedModesAreReal | src/apps/sequencer/model/LogicTrack.h:83-85 | a clamped mode ordinal is a real mode, and it is unchanged when it is already one |
| TrackParameters.Bounds | src/apps/sequencer/model/LogicTrack.h:127-262 | each parameter's range fits an `int8_t`; all ranges but the slide time are symmetric |
| TrackParameters.TrackParams.constructor | src/apps/sequencer/model/LogicTrack.h:361-371 | a new block is within bounds, with track index -1 |
| TrackParameters.TrackParams.Value | src/apps/sequencer/model/LogicTrack.h:127 | a parameter reads from its routed copy while routed, and always lies within its range |
| TrackParameters.TrackParams.SetParam | src/apps/sequencer/model/LogicTrack.h:128-130 | the parameter is clamped into its range in the chosen copy; no other parameter changes |
| TrackParameters.TrackParams.EditParam | src/apps/sequencer/model/LogicTrack.h:132-136 | a routed parameter is left alone; otherwise it is edited and clamped; no other parameter changes |
| TrackParameters.TrackParams.SetPlayMode | src/apps/sequencer/model/LogicTrack.h:67-69 | the play mode is clamped into the enumeration |
| TrackParameters.TrackParams.EditPlayMode | src/apps/sequencer/model/LogicTrack.h:71-73 | the play mode moves by the edit value and is clamped |
| TrackParameters.TrackParams.SetFillMode | src/apps/sequencer/model/LogicTrack.h:82-85 | the fill mode is clamped into the real modes |
| TrackParameters.TrackParams.EditFillMode | src/apps/sequencer/model/LogicTrack.h:87-89 | the fill mode moves by the edit value and is clamped |
| TrackParameters.TrackParams.SetFillMuted | src/apps/sequencer/model/LogicTrack.h:98-100 | the flag is set |
| TrackParameters.TrackParams.EditFillMuted | src/apps/sequencer/model/LogicTrack.h:102-104 | a positive edit sets the flag; any other edit clears it |
| TrackParameters.TrackParams.SetCvUpdateMode | src/apps/sequencer/model/LogicTrack.h:112-115 | the CV update mode is clamped into the real modes |
| TrackParameters.TrackParams.EditCvUpdateMode | src/apps/sequencer/model/LogicTrack.h:117-119 | the CV update mode moves by the edit value and is clamped |
| TrackParameters.TrackParams.SetTrackIndex | src/apps/sequencer/model/LogicTrack.h:354-356 | the index is stored in an `int8_t` |
| LogicTracks.LogicTrack.constructor | src/apps/sequencer/model/LogicTrack.h:361-380 | the input tracks start at -1, the detailed view off and the track index -1 |
| LogicTracks.LogicTrack.SetInputTrack1 | src/apps/sequencer/model/LogicTrack.h:293-295 | the input track is stored in an `int8_t`, unchecked |
| LogicTracks.LogicTrack.SetInputTrack2 | src/apps/sequencer/model/LogicTrack.h:310-312 | the input track is stored in an `int8_t`, unchecked |
| LogicTracks.LogicTrack.SetDetailedView | src/apps/sequencer/model/LogicTrack.h:324-328 | the flag is set |
| LogicTracks.LogicTrack.EditDetailedView | src/apps/sequencer/model/LogicTrack.h:330-332 | a positive edit turns the detailed view on; any other edit turns it off |
| LogicTracks.LogicTrack.ToggleDetailedView | src/apps/sequencer/model/LogicTrack.h:334-336 | the flag is flipped |
| LogicTracks.LogicTrack.SetTrackIndex | src/apps/sequencer/model/LogicTrack.h:354-359 | the track keeps the index and passes it on to every one of its sequences |
| StochasticTracks.StochasticTrack.constructor | src/apps/sequencer/model/StochasticTrack.h:307-322 | a new track's parameters are within bounds, with track index -1 |
| StochasticTracks.StochasticTrack.SetTrackIndex | src/apps/sequencer/model/StochasticTrack.h:300-305 | every sequence gets the index, and nothing else in a sequence changes |
| Tracks.Ordinal | src/apps/sequencer/model/Track.h:37-46 | the modes are numbered in declaration order, and `Last` counts them |
| Tracks.TrackModeName | src/apps/sequencer/model/Track.h:48-59 | every real mode has a name; only `Last` has none |
| Tracks.TrackModeSerialize | src/apps/sequencer/model/Track.h:61-72 | every real mode is stored as a number below the mode count |
| Tracks.SerializeIdentifiesMode | src/apps/sequencer/model/Track.h:61-72 | distinct real modes are stored as distinct numbers; Arp and Logic trade places; `Last` is stored like Note |
| Tracks.ClampedMode | src/apps/sequencer/model/Track.h:166-168 | the requested mode is clamped into the real modes |
| Tracks.LinkTrackFor | src/apps/sequencer/model/Track.h:93-96 | the link track is -1 or an earlier track, and it is stored in an `int8_t` |
| Tracks.LinkTrackBeforeIndexAssigned | src/apps/sequencer/model/Track.h:93-96 | before the track has an index (255), link tracks up to 254 are accepted and wrap |
| Tracks.Track.constructor | src/apps/sequencer/model/Track.h:138-140 | a new track is a Note track with index 255 and link track -1 |
| Tracks.Track.TrackOfMode | src/apps/sequencer/model/Track.h:112-132 | the contained track is available exactly under the track's own mode |
| Tracks.Track.SetLinkTrack | src/apps/sequencer/model/Track.h:93-96 | the link track is clamped to -1..track index - 1 |
| Tracks.Track.EditLinkTrack | src/apps/sequencer/model/Track.h:98-100 | the link track moves by the edit value and is clamped |
| Tracks.Track.SetTrackMode | src/apps/sequencer/model/Track.h:166-172 | a change of mode rebuilds the container for the new mode; asking for the same mode keeps it |
| Tracks.Track.Assign | src/apps/sequencer/model/Track.h:153-159 | the link track and container are copied, and the copy takes this track's index |
| PatternFollows.Clamped | src/apps/sequencer/model/BaseTrackPatternFollow.h:16-18 | the ordinal is clamped into the settings |
| PatternFollows.FromFlags | src/apps/sequencer/model/BaseTrackPatternFollow.h:20-40 | the setting follows on the display exactly when asked to, and likewise on the launchpad |
| PatternFollows.FlagsDescribeSetting | src/apps/sequencer/model/BaseTrackPatternFollow.h:20-57 | a setting is given back by its two flags |
| PatternFollows.Toggled | src/apps/sequencer/model/BaseTrackPatternFollow.h:66-72 | without a launchpad the toggle is between off and display |
| PatternFollows.ToggledTimesOrdinal | src/apps/sequencer/model/BaseTrackPatternFollow.h:63-64 | with a launchpad each toggle steps once through the four settings |
| PatternFollows.ToggleCycles | src/apps/sequencer/model/BaseTrackPatternFollow.h:60-77 | four toggles with a launchpad return to the start and fewer do not; without one, two toggles return off |
| PatternFollows.BaseTrackPatternFollow.constructor | src/apps/sequencer/model/BaseTrackPatternFollow.h:86-87 | a new setting is off |
| PatternFollows.BaseTrackPatternFollow.SetPatternFollow | src/apps/sequencer/model/BaseTrackPatternFollow.h:16-18 | the setting is clamped into the enumeration |
| PatternFollows.BaseTrackPatternFollow.SetPatternFollowFlags | src/apps/sequencer/model/BaseTrackPatternFollow.h:20-40 | the setting follows on the display and the launchpad as asked |
| PatternFollows.BaseTrackPatternFollow.SetPatternFollowDisplay | src/apps/sequencer/model/BaseTrackPatternFollow.h:42-50 | the display flag is set and the launchpad flag is kept |
| PatternFollows.BaseTrackPatternFollow.IsPatternFollowDisplayOn | src/apps/sequencer/model/BaseTrackPatternFollow.h:52-57 | true exactly for the display and display-and-launchpad settings |
| PatternFollows.BaseTrackPatternFollow.TogglePatternFollowDisplay | src/apps/sequencer/model/BaseTrackPatternFollow.h:60-77 | the setting steps as `Toggled` says, with or without a launchpad |
| PatternFollows.BaseTrackPatternFollow.EditPatternFollow | src/apps/sequencer/model/BaseTrackPatternFollow.h:79-81 | the setting moves by the edit value and is clamped |
| PageManagers.MinFpsIsMinimum | src/apps/sequencer/ui/PageManager.cpp:71-77 | the refresh rate is at most 100 and at most every stacked page's rate, and it is 100 or one of those rates |
| PageManagers.DispatchStopsAtFirstConsumer | src/apps/sequencer/ui/PageManager.cpp:80-95 | an event goes to the pages from the top down and stops at the first page that consumes it |
| PageManagers.PageManager.constructor | src/apps/sequencer/ui/PageManager.cpp:6-8 | a new page stack is empty |
| PageManagers.PageManager.Top | src/apps/sequencer/ui/PageManager.cpp:10-13 | the top page is the last one pushed |
| PageManagers.PageManager.Push | src/apps/sequencer/ui/PageManager.cpp:15-25 | a page already on the stack is not pushed again; otherwise it is pushed, entered and announced |
| PageManagers.PageManager.Pop | src/apps/sequencer/ui/PageManager.cpp:27-35 | the top page is left and removed, and the new top is announced |
| PageManagers.ExitsTopDownOrder | src/apps/sequencer/ui/PageManager.cpp:37-42 | the exits run from the top page down: the `i`-th exit leaves the `i`-th page from the top |
| PageManagers.PageManager.Reset | src/apps/sequencer/ui/PageManager.cpp:37-42 | every page is left from the top down, and the stack then holds the given page alone |
| PageManagers.PageManager.Replace | src/apps/sequencer/ui/PageManager.cpp:44-55 | the page at the index is left and replaced and the new one entered; only a new top is announced |
| PageManagers.PageManager.Fps | src/apps/sequencer/ui/PageManager.cpp:71-77 | the loop computes the lowest rate of the stacked pages, capped at 100 |
| PageManagers.PageManager.DispatchEvent | src/apps/sequencer/ui/PageManager.cpp:80-95 | a home press with another page on top resets the stack to home; otherwise the stack is unchanged and the event is dispatched from the top down |
| Keys.ToStep | src/apps/sequencer/ui/Key.h:28-30 | on a step key, the step number is in 0..15 and maps back to the key |
| Keys.ToTrack | src/apps/sequencer/ui/Key.h:40-42 | on a track key, the track number is in 0..7 and maps back to the key |
| Keys.ToFunction | src/apps/sequencer/ui/Key.h:52-54 | on a function key, the function number is in 0..4 and maps back to the key |
| Keys.StepCodes | src/apps/sequencer/ui/Key.h:20-30 | step keys are codes 0..15, and the mapping between steps and keys goes both ways |
| Keys.TrackCodes | src/apps/sequencer/ui/Key.h:32-42 | track keys are codes 16..23, and the mapping goes both ways |
| Keys.FunctionCodes | src/apps/sequencer/ui/Key.h:44-54 | function keys are codes 32..36 |
| Keys.GroupsDisjoint | src/apps/sequencer/ui/Key.h:63-112 | step, track, global and function keys and the encoder are all different codes |
| Keys.PageKeys | src/apps/sequencer/ui/Key.h:136-160 | the page keys are exactly the listed codes |
| Keys.Key.PageSelect | src/apps/sequencer/ui/Key.h:205-212 | a track key selects pages 0..7, a step key pages 8..23, any other key none |
| Keys.Key.QuickEdit | src/apps/sequencer/ui/Key.h:214-215 | a quick-edit key gives an index in 0..7 |
| Keys.QuickEditKeys | src/apps/sequencer/ui/Key.h:201-215 | quick edit is a page-modified press of steps 9..16 (codes 0..7); track select and page select never both hold |

## Left out

- `NoteSequence.cpp` and `CurveSequence.cpp` are not part of this model. So the note and curve step `clear`, their layer value and range functions, the sequence `clear` and their `read`/`write` are left out; so are the curve-sequence fields beyond the voltage range.
- The normalized (float) accessors `setMinNormalized`/`setMaxNormalized`, the routed `floatValue`, and every `print...` and `StringBuilder` method are left out. These are floating point and display text.
- `ModelUtils` is not part of this model.
  - `clampDivisor` and `adjustedByStep` are parameters of the classes that use them.
  - `clampedEnum` is a clamp to `0..count - 1`.
  - `adjustedEnum(value, delta)` is taken to be the ordinal plus the delta.
  - The step copies made by `duplicateSteps` and `shiftSteps` are left out.
- `indexedDivisor`, `setIndexedDivisor`, `editDivisor` and `editResetMeasure` of the stochastic sequence are left out. They are built on `ModelUtils` divisor-index and power-of-two stepping functions that are not part of this model.
- StochasticSequences.StochasticSequence.DuplicateSteps: states the new step window only, not the copied step contents, because the copy is done by `ModelUtils::duplicateSteps`, which is not part of this model.
- `shiftSteps` of the stochastic sequence: its body is the same `ModelUtils` copy.
- Routing internals are not part of this model: which targets are routed comes from a `RouteTable` parameter.
- The enumerations whose sizes are in files outside this model are parameters: `Types::Condition`, `Types::RunMode`, `Types::PlayMode`, `Types::VoltageRange`, `Curve::Type` and the scale count.
- `UnsignedValue<N>::Range` is taken to be 2^N, so the stochastic track's bias ranges are ±16. `LogicSequence.h` is not part of this model: its four ranges are taken to be 8, and each logic sequence is represented only by the track index it was last given.
- The `Types::PatternFollow` ordinals are taken to be Off, Display, LaunchPad, DispAndLP.
- `LogicTrack` and `StochasticTrack` `clear`, `read` and `write` live in `.cpp` files that are not part of this model. Their parameter block therefore starts at zero rather than at the cleared values.
- `setName`, `setSequence` and `StringUtils` are left out. They are string copying and a whole-sequence assignment of an object not modelled.
- `Track::setTrackIndex`, `initContainer` and the container's placement-new are not modelled as code. The container is a type parameter, built by a `defaults` function and told its index by a `withTrackIndex` function.
- Tracks.Track.constructor: the header leaves the mode and the link track uninitialised until `clear()`, which is in a `.cpp` file that is not part of this model. The model starts a track as a Note track with link track -1.
- StochasticSequences.StochasticSequence.Clear: resets both octave ranges to 0, as the corrected `ClearOctaveRange` does. As written, `clear()` at `StochasticSequence.cpp:285-286` leaves the low range at the old high range when that is negative (see Findings). The as-written reset is `ClearOctaveRangeAsWritten`. A new sequence is not affected, because both ranges start at 0.
- CurveSequences.CurveSequence.constructor: the header calls `clear()`, which is in `CurveSequence.cpp`, not part of this model. The model states only the voltage range, starting at the first range, and the steps it is given.
- PatternFollows.BaseTrackPatternFollow.constructor: the class leaves its setting uninitialised. The model starts it at Off.
- NoteSequences.NoteSequence.constructor: the header calls `clear()`, which is in `NoteSequence.cpp`, not part of this model. The model states only the scale and root-note defaults (-1) and the track index.
- Pages' `enter`, `exit`, `draw`, `updateLeds` and their event handlers are left out, and so are `PageManager::draw`, `updateLeds` and `setView`, which only hand the call on to the pages. They are UI code outside this model. The page manager returns the calls it makes as `PageCall` values, and each page's consumption of an event is a function parameter.
- `FileManager`, the page implementations (`HomePage`, `TrackPage`, ...), `ListModel` and `BitmapFont` are left out. They are file I/O and UI outside the data model.
- `Key` keeps its modifier state as a set of held key codes, not a bitset.

## Findings

| source | as written | input that shows it | evidently intended | confidence | as-written member | corrected member |
|---|---|---|---|---|---|---|
| src/apps/sequencer/model/StochasticSequence.cpp:285-286 | `clear()` calls `setLowOctaveRange(0)` before `setHighOctaveRange(0)`. The low range is clamped to the old high range, so a negative high range keeps the low range negative. | low octave range -5, high octave range -3: after `clear()` the low range is -3 and the high range is 0 | both octave ranges are 0 after `clear()` | not executed | StochasticSequences.ClearOctaveRangeAsWrittenKeepsNegativeLow | StochasticSequences.ClearOctaveRange |
