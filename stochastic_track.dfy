/**
 * `StochasticTrack`: a track that plays stochastic sequences. It holds the
 * shared parameter block and one `StochasticSequence` per pattern and
 * snapshot slot.
 */
module StochasticTracks {
  import opened Values
  import opened Routing
  import opened TrackParameters
  import opened StochasticSequences

  /**
   * The biases clamp to the `Range` of the stochastic sequence's gate
   * probability, retrigger probability, length and note variation
   * probability, all four 4-bit unsigned values.
   */
  const StochasticBiasRanges := BiasRanges(16, 16, 16, 16)

  class StochasticTrack {
    const params: TrackParams
    /** `_sequences`. */
    const sequences: array<StochasticSequence>

    /** The parameter block is valid and clamps the biases to the stochastic ranges. */
    ghost predicate Valid()
      reads this, params
    {
      params.Valid() && params.biasRanges == StochasticBiasRanges
    }

    /** The parameters start as `TrackParams` sets them; the sequences are built by the caller. */
    constructor(sequences: array<StochasticSequence>, playModeCount: int,
                adjustedByStep: (int, int, int, bool) -> int)
      requires playModeCount >= 1
      ensures Valid() && fresh(params) && this.sequences == sequences && params.trackIndex == -1
    {
      params := new TrackParams(playModeCount, StochasticBiasRanges, adjustedByStep);
      this.sequences := sequences;
    }

    /** The sequence objects of the track. */
    ghost function Sequences(): set<StochasticSequence>
      reads this, sequences
    {
      set i | 0 <= i < sequences.Length :: sequences[i]
    }

    /**
     * `setTrackIndex`: the track keeps the index in an `int8_t` and passes
     * it on to every one of its sequences; only the sequences' track index
     * changes.
     */
    method SetTrackIndex(trackIndex: int)
      requires Valid()
      modifies params`trackIndex, Sequences()`trackIndex
      ensures Valid()
      ensures params.trackIndex == ToInt8(trackIndex)
      ensures forall i :: 0 <= i < sequences.Length ==> sequences[i].trackIndex == ToInt8(trackIndex)
    {
      params.SetTrackIndex(trackIndex);
      for i := 0 to sequences.Length
        modifies Sequences()`trackIndex
        invariant forall k :: 0 <= k < i ==> sequences[k].trackIndex == ToInt8(trackIndex)
      {
        sequences[i].SetTrackIndex(trackIndex);
      }
    }
  }
}
