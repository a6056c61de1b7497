/**
 * Shared value types of the chart pipeline: the note and track records that the
 * chart parser produces, the lane mapper rewrites and the session adapter reads.
 */
module Notes {

  /** Optional value, used where the Go code returns a nil pointer or nothing. */
  datatype Option<+T> = None | Some(value: T)

  /** A value or an error, used where the Go code returns `(T, error)`. */
  datatype Result<+T, +E> = Success(value: T) | Failure(error: E)

  /**
   * One note event (MIDINote). Pitch and velocity come straight from data bytes;
   * times are in seconds; `lane` is 0 until the lane mapper assigns it.
   * Go's float64 times are modelled as exact reals.
   */
  datatype MidiNote = MidiNote(
    pitch: int,
    velocity: int,
    startTime: real,
    duration: real,
    lane: int)

  /** One track of a chart (MIDITrack). */
  datatype MidiTrack = MidiTrack(
    name: string,
    channel: int,
    instrument: int,
    notes: seq<MidiNote>,
    isGuitar: bool)
}
