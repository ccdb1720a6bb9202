/**
 * `LogicTrack`: a track that combines the gates of two input tracks. It
 * holds the shared parameter block, a pattern-follow setting, its two
 * input tracks, the detailed-view flag and one logic sequence per pattern
 * and snapshot slot.
 */
module LogicTracks {
  import opened Values
  import opened Routing
  import opened TrackParameters
  import opened PatternFollows

  /** The `Range` of the logic sequence's four step value types the biases use. */
  const LogicBiasRanges := BiasRanges(8, 8, 8, 8)

  class LogicTrack {
    const params: TrackParams
    const patternFollow: BaseTrackPatternFollow
    var inputTrack1: Int8
    var inputTrack2: Int8
    var detailedView: bool
    /**
     * `_sequences`. `LogicSequence` is not part of this model: each
     * sequence is represented by the track index it was last given.
     */
    const sequenceTrackIndex: array<int>

    ghost predicate Valid()
      reads this, params
    {
      params.Valid() && params.biasRanges == LogicBiasRanges
    }

    /** The input tracks start unset (-1) and the detailed view off. */
    constructor(sequenceCount: nat, playModeCount: int, adjustedByStep: (int, int, int, bool) -> int)
      requires playModeCount >= 1
      ensures Valid() && fresh(params) && fresh(patternFollow) && fresh(sequenceTrackIndex)
      ensures inputTrack1 == -1 && inputTrack2 == -1 && !detailedView
      ensures sequenceTrackIndex.Length == sequenceCount && params.trackIndex == -1
    {
      params := new TrackParams(playModeCount, LogicBiasRanges, adjustedByStep);
      patternFollow := new BaseTrackPatternFollow();
      inputTrack1, inputTrack2 := -1, -1;
      detailedView := false;
      sequenceTrackIndex := new int[sequenceCount](i => -1);
    }

    /** `setInputTrack1`: the index stored in an `int8_t`, unchecked. */
    method SetInputTrack1(trackIndex: int)
      modifies this`inputTrack1
      ensures inputTrack1 == ToInt8(trackIndex)
      ensures -128 <= trackIndex < 128 ==> inputTrack1 == trackIndex
    {
      inputTrack1 := ToInt8(trackIndex);
    }

    /** `setInputTrack2`: the index stored in an `int8_t`, unchecked. */
    method SetInputTrack2(trackIndex: int)
      modifies this`inputTrack2
      ensures inputTrack2 == ToInt8(trackIndex)
      ensures -128 <= trackIndex < 128 ==> inputTrack2 == trackIndex
    {
      inputTrack2 := ToInt8(trackIndex);
    }

    /** `setDetailedView`: written only when it changes. */
    method SetDetailedView(value: bool)
      modifies this`detailedView
      ensures detailedView == value
    {
      if value != detailedView {
        detailedView := value;
      }
    }

    /** `editDetailedView`: a positive edit turns it on, any other turns it off. */
    method EditDetailedView(value: int, shift: bool)
      modifies this`detailedView
      ensures detailedView == (value > 0)
    {
      SetDetailedView(value > 0);
    }

    /** `toggleDetailedView`: flips the flag, so toggling twice restores it. */
    method ToggleDetailedView()
      modifies this`detailedView
      ensures detailedView == !old(detailedView)
    {
      SetDetailedView(!detailedView);
    }

    /**
     * `setTrackIndex`: the track keeps the index in an `int8_t` and passes
     * it on to every one of its sequences.
     */
    method SetTrackIndex(trackIndex: int)
      requires Valid()
      modifies params`trackIndex, sequenceTrackIndex
      ensures Valid()
      ensures params.trackIndex == ToInt8(trackIndex)
      ensures forall i :: 0 <= i < sequenceTrackIndex.Length ==> sequenceTrackIndex[i] == trackIndex
    {
      params.SetTrackIndex(trackIndex);
      for i := 0 to sequenceTrackIndex.Length
        invariant params.trackIndex == ToInt8(trackIndex) && Valid()
        invariant forall k :: 0 <= k < i ==> sequenceTrackIndex[k] == trackIndex
      {
        sequenceTrackIndex[i] := trackIndex;
      }
    }
  }
}
