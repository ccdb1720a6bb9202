/**
 * `Track`: one of the project's tracks, a tagged union over the track
 * kinds. The tag is the track mode; the container holds the track object
 * of that mode. The container's contents are a type parameter `T` here:
 * how a track of each mode is built (`initContainer`) and how it takes its
 * track index (`setContainerTrackIndex`) are supplied as functions.
 */
module Tracks {
  import opened Values

  /** `Track::TrackMode`, in declaration order; `Last` counts the modes. */
  datatype TrackMode = Note | Curve | MidiCv | Stochastic | Arp | Logic | Last

  /** The number of real modes (`TrackMode::Last`). */
  const TrackModeCount := 6

  function Ordinal(m: TrackMode): (r: int)
    ensures 0 <= r <= TrackModeCount
    ensures r == TrackModeCount <==> m == Last
  {
    match m
    case Note => 0
    case Curve => 1
    case MidiCv => 2
    case Stochastic => 3
    case Arp => 4
    case Logic => 5
    case Last => 6
  }

  function FromOrdinal(i: int): (m: TrackMode)
    requires 0 <= i <= TrackModeCount
    ensures Ordinal(m) == i
  {
    if i == 0 then Note else if i == 1 then Curve else if i == 2 then MidiCv
    else if i == 3 then Stochastic else if i == 4 then Arp else if i == 5 then Logic
    else Last
  }

  /** `trackModeName`: the display name, absent for `Last`. */
  function TrackModeName(m: TrackMode): (r: Option<string>)
    ensures r.None? <==> m == Last
  {
    match m
    case Note => Some("Note")
    case Curve => Some("Curve")
    case MidiCv => Some("MIDI/CV")
    case Stochastic => Some("Stochastic")
    case Logic => Some("Logic")
    case Arp => Some("Arp")
    case Last => Option.None
  }

  /**
   * `trackModeSerialize`: the number a mode is stored as. Logic is stored
   * as 4 and Arp as 5, the other way round from their order in the
   * enumeration; `Last` is stored as 0.
   */
  function TrackModeSerialize(m: TrackMode): (r: Uint8)
    ensures m != Last ==> r < TrackModeCount
  {
    match m
    case Note => 0
    case Curve => 1
    case MidiCv => 2
    case Stochastic => 3
    case Logic => 4
    case Arp => 5
    case Last => 0
  }

  /**
   * The stored number of a real mode identifies it: distinct modes are
   * stored as distinct numbers, every number 0 .. 5 is used, and the stored
   * number is the ordinal except for Arp and Logic, which trade places.
   */
  lemma SerializeIdentifiesMode(m1: TrackMode, m2: TrackMode, n: int)
    ensures m1 != Last && m2 != Last && TrackModeSerialize(m1) == TrackModeSerialize(m2) ==> m1 == m2
    ensures 0 <= n < TrackModeCount ==> TrackModeSerialize(FromOrdinal(n)) == if n == 4 then 5 else if n == 5 then 4 else n
    ensures TrackModeSerialize(Last) == TrackModeSerialize(Note)
  {
  }

  /** The mode `setTrackMode` settles on: the ordinal clamped into the real modes. */
  function ClampedMode(ordinal: int): (m: TrackMode)
    ensures m != Last
    ensures 0 <= ordinal < TrackModeCount ==> Ordinal(m) == ordinal
  {
    FromOrdinal(ClampedEnum(ordinal, TrackModeCount))
  }

  /** The link track `setLinkTrack(x)` settles on: one of the tracks before this one, or -1. */
  function LinkTrackFor(x: int, trackIndex: Uint8): (r: int)
    ensures -128 <= r < 128
    ensures trackIndex <= 128 ==> -1 <= r < trackIndex
    ensures trackIndex <= 128 && -1 <= x < trackIndex ==> r == x
    ensures trackIndex <= 128 && x < -1 ==> r == -1
  {
    ToInt8(Clamp(x, -1, trackIndex - 1))
  }

  /**
   * The track index is a `uint8_t` that starts as -1, i.e. 255; until the
   * project gives the track an index, a link track up to 254 is accepted
   * and then wraps when stored into the `int8_t`.
   */
  lemma LinkTrackBeforeIndexAssigned()
    ensures LinkTrackFor(200, 255) == 200 - 256
    ensures LinkTrackFor(-5, 255) == -1
  {
  }

  class Track<T> {
    var trackIndex: Uint8
    var trackMode: TrackMode
    var linkTrack: Int8
    var container: T

    /** `initContainer`: a fresh track object of each mode. */
    const defaults: TrackMode -> T
    /** `setContainerTrackIndex`: the track object told its track index. */
    const withTrackIndex: (T, int) -> T

    ghost predicate Valid()
      reads this
    {
      trackMode != Last
    }

    constructor(defaults: TrackMode -> T, withTrackIndex: (T, int) -> T)
      ensures Valid()
      ensures trackIndex == 255 && trackMode == Note && linkTrack == -1
      ensures container == defaults(Note)
      ensures this.defaults == defaults && this.withTrackIndex == withTrackIndex
    {
      this.defaults := defaults;
      this.withTrackIndex := withTrackIndex;
      trackIndex := 255;
      trackMode := Note;
      linkTrack := -1;
      container := defaults(Note);
    }

    /**
     * The mode-checked accessors `noteTrack()`, `curveTrack()`, ...: the
     * contained track when the track is of the asked mode, nothing
     * otherwise (the firmware asserts this in sanitizing builds).
     */
    function TrackOfMode(mode: TrackMode): (r: Option<T>)
      reads this
      ensures r.Some? <==> mode == trackMode
      ensures r.Some? ==> r.value == container
    {
      if mode == trackMode then Some(container) else Option.None
    }

    /** `setLinkTrack`. */
    method SetLinkTrack(x: int)
      modifies this`linkTrack
      ensures linkTrack == LinkTrackFor(x, trackIndex)
      ensures trackIndex <= 128 ==> -1 <= linkTrack < trackIndex
    {
      linkTrack := ToInt8(Clamp(x, -1, trackIndex - 1));
    }

    /** `editLinkTrack`: the link track moved by `value`, then clamped. */
    method EditLinkTrack(value: int, shift: bool)
      modifies this`linkTrack
      ensures linkTrack == LinkTrackFor(old(linkTrack) + value, trackIndex)
    {
      SetLinkTrack(linkTrack + value);
    }

    /**
     * `setTrackMode`: the requested ordinal is clamped into the real
     * modes; asking for the current mode keeps the track as it is, asking
     * for another one rebuilds the container for that mode.
     */
    method SetTrackMode(ordinal: int)
      requires Valid()
      modifies this`trackMode, this`container
      ensures Valid()
      ensures trackMode == ClampedMode(ordinal)
      ensures old(trackMode) == trackMode ==> container == old(container)
      ensures old(trackMode) != trackMode ==> container == defaults(trackMode)
    {
      var mode := FromOrdinal(ClampedEnum(ordinal, TrackModeCount));
      if mode != trackMode {
        trackMode := mode;
        container := defaults(trackMode);
      }
    }

    /**
     * `operator=`: copies another track of the same mode; the link track
     * and the container come from `other`, while this track keeps its own
     * index and passes it on to the copied container.
     */
    method Assign(other: Track<T>)
      requires trackMode == other.trackMode
      modifies this`linkTrack, this`container
      ensures linkTrack == old(other.linkTrack)
      ensures container == withTrackIndex(old(other.container), trackIndex)
    {
      linkTrack := other.linkTrack;
      container := other.container;
      container := withTrackIndex(container, trackIndex);
    }
  }
}
