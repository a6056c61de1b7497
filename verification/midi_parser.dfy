/**
 * The chart parser (SimpleMIDIParser): decodes a Standard MIDI File held as a
 * byte sequence into note events.
 *
 * The parser object is a cursor over `data`; each of its loops is proved
 * against a pure function of the bytes (VlqFrom for variable-length
 * quantities, Step/Scan for one track body, TrackList for the whole file).
 * Where the Go code indexes past the end of the data (a declared track length
 * larger than the file) the Go runtime panics; the model reports that as the
 * outcome IndexOutOfRange instead.
 */
module MidiParser {
  import opened Notes

  type Byte = b: int | 0 <= b < 256

  /** Microseconds per beat the parser starts with (120 BPM). */
  const DefaultTempo: int := 500000
  /** Duration given to notes still open when their track ends. */
  const OpenNoteDuration: real := 0.5
  /** "MThd" */
  const HeaderMagic: seq<Byte> := [0x4D, 0x54, 0x68, 0x64]
  /** "MTrk" */
  const TrackMagic: seq<Byte> := [0x4D, 0x54, 0x72, 0x6B]
  /** Data bytes that follow a channel message, indexed by (status & 0x70) >> 4. */
  const ChannelDataBytes: seq<int> := [2, 2, 2, 2, 1, 1, 2]

  datatype ParseError =
    | HeaderTooShort
    | BadHeaderSignature
    | TrackHeaderTooShort
    | BadTrackSignature

  /** How a parse ended: normally, with a format error, or where Go would panic. */
  datatype Outcome = Done | Failed(error: ParseError) | IndexOutOfRange

  /** A value computed without indexing past the data, or the place Go would panic. */
  datatype Checked<+T> = Ok(value: T) | OutOfRange

  function Be16(data: seq<Byte>, i: int): (r: int)
    requires 0 <= i && i + 2 <= |data|
    ensures 0 <= r < 0x1_0000
  {
    (data[i] as int) * 0x100 + data[i + 1] as int
  }

  function Be32(data: seq<Byte>, i: int): (r: int)
    requires 0 <= i && i + 4 <= |data|
    ensures 0 <= r < 0x1_0000_0000
  {
    (data[i] as int) * 0x100_0000 + (data[i + 1] as int) * 0x1_0000 + (data[i + 2] as int) * 0x100 + data[i + 3] as int
  }

  /** ticksToSeconds: seconds = ticks * (tempo / (ticksPerBeat * 10^6)). */
  function TicksToSeconds(ticks: int, tempo: int, ticksPerBeat: int): real
    requires ticksPerBeat > 0
  {
    ticks as real * (tempo as real / (ticksPerBeat as real * 1000000.0))
  }

  // ---------------------------------------------------------------------------
  // Variable-length quantities
  // ---------------------------------------------------------------------------

  /** Result of reading a variable-length quantity: the value and the position after it, or the end of the data. */
  datatype Vlq = VlqOk(value: nat, next: int) | VlqEnd(next: int)

  /**
   * Reading a quantity from `pos`, `i` bytes of it already read into `acc`:
   * 7 bits per byte, big-endian, stopping after a byte with bit 7 clear or
   * after the fourth byte.
   */
  function VlqFrom(data: seq<Byte>, pos: int, i: nat, acc: nat): (r: Vlq)
    requires 0 <= pos && i <= 4
    ensures r.VlqOk? && i < 4 ==> pos < r.next <= pos + (4 - i)
    decreases 4 - i
  {
    if i == 4 then VlqOk(acc, pos)
    else if pos >= |data| then VlqEnd(pos)
    else
      var b := data[pos];
      var acc' := acc * 128 + b % 128;
      if b < 128 then VlqOk(acc', pos + 1)
      else VlqFrom(data, pos + 1, i + 1, acc')
  }

  function ReadVlq(data: seq<Byte>, pos: int): (r: Vlq)
    requires 0 <= pos
    ensures r.VlqOk? ==> pos + 1 <= r.next <= pos + 4
  {
    VlqFrom(data, pos, 0, 0)
  }

  // ---------------------------------------------------------------------------
  // Header and track chunks
  // ---------------------------------------------------------------------------

  /** parseHeader: the ticks per beat of a valid header. The declared header length is not read. */
  function HeaderDivision(data: seq<Byte>): Result<int, ParseError>
  {
    if |data| < 14 then Failure(HeaderTooShort)
    else if data[..4] != HeaderMagic then Failure(BadHeaderSignature)
    else Success(Be16(data, 12))
  }

  /** The track chunk at `pos`: the position just past its body, as the header declares it. */
  function TrackBounds(data: seq<Byte>, pos: int): (r: Result<int, ParseError>)
    requires 0 <= pos
    ensures r.Success? ==> r.value >= pos + 8
  {
    if pos + 8 > |data| then Failure(TrackHeaderTooShort)
    else if data[pos..pos + 4] != TrackMagic then Failure(BadTrackSignature)
    else Success(pos + 8 + Be32(data, pos + 4))
  }

  // ---------------------------------------------------------------------------
  // The body scan of one track
  // ---------------------------------------------------------------------------

  /** An entry of the open-note map: the note's velocity and start time (its pitch is the key). */
  datatype OpenNote = OpenNote(velocity: int, startTime: real)

  /** The variables of parseTrack's scan loop. */
  datatype ScanState = ScanState(
    pos: int,
    tick: int,
    running: Byte,
    open: map<Byte, OpenNote>,
    notes: seq<MidiNote>)

  /** One pass of the scan loop: go round again, leave the loop, or index past the data. */
  datatype StepResult = Continue(state: ScanState) | Stop(state: ScanState) | StepOutOfRange

  /** The note a close event emits for an open pitch. */
  function ClosedNote(pitch: int, o: OpenNote, now: real): MidiNote
  {
    MidiNote(pitch, o.velocity, o.startTime, now - o.startTime, 0)
  }

  /** Note-Off, or Note-On with velocity 0: emit and remove the open note of that pitch, if there is one. */
  function CloseNote(s: ScanState, pitch: Byte, now: real): (r: ScanState)
    ensures r.pos == s.pos && r.tick == s.tick && r.running == s.running
    ensures pitch !in r.open && r.open == s.open - {pitch}
    ensures pitch in s.open ==> r.notes == s.notes + [ClosedNote(pitch, s.open[pitch], now)]
    ensures pitch !in s.open ==> r.notes == s.notes
  {
    if pitch in s.open then
      s.(notes := s.notes + [ClosedNote(pitch, s.open[pitch], now)], open := s.open - {pitch})
    else s
  }

  /**
   * The switch on `status & 0xF0`. Its `case 0xFF` can never match a value
   * whose low nibble is zero, so meta events fall to the default branch,
   * which skips nothing for a status of 0xF0 or more.
   */
  function Dispatch(data: seq<Byte>, trackEnd: int, tempo: int, ticksPerBeat: int,
                    s: ScanState, status: Byte): (r: Checked<ScanState>)
    requires ticksPerBeat > 0 && 0 <= s.pos
    ensures r.Ok? ==> r.value.pos >= s.pos
  {
    var kind := status - status % 16;
    var now := TicksToSeconds(s.tick, tempo, ticksPerBeat);
    if kind == 0x90 then
      if s.pos + 2 > trackEnd then Ok(s)
      else if s.pos + 1 >= |data| then OutOfRange
      else
        var pitch := data[s.pos];
        var velocity := data[s.pos + 1];
        var s1 := s.(pos := s.pos + 2);
        if velocity > 0 then Ok(s1.(open := s1.open[pitch := OpenNote(velocity, now)]))
        else Ok(CloseNote(s1, pitch, now))
    else if kind == 0x80 then
      if s.pos + 2 > trackEnd then Ok(s)
      else if s.pos >= |data| then OutOfRange
      else Ok(CloseNote(s.(pos := s.pos + 2), data[s.pos], now))
    else if status < 0xF0 then
      var msgType := (status / 16) % 8;
      if msgType < |ChannelDataBytes| then Ok(s.(pos := s.pos + ChannelDataBytes[msgType]))
      else Ok(s)
    else Ok(s)
  }

  /**
   * One iteration of parseTrack's loop, entered with pos < trackEnd: read the
   * delta time, read the event byte (a byte below 0x80 reuses the running
   * status and is left to be read again as data), dispatch on the status.
   */
  function Step(data: seq<Byte>, trackEnd: int, tempo: int, ticksPerBeat: int, s: ScanState): (r: StepResult)
    requires ticksPerBeat > 0 && 0 <= s.pos < trackEnd
    ensures r.Continue? ==> s.pos < r.state.pos < |data|
  {
    match ReadVlq(data, s.pos)
    case VlqEnd(p) => Stop(s.(pos := p))
    case VlqOk(delta, p) =>
      var tick := s.tick + delta;
      if p >= trackEnd then Stop(s.(pos := p, tick := tick))
      else if p >= |data| then StepOutOfRange
      else
        var eventByte := data[p];
        var status: Byte := if eventByte >= 0x80 then eventByte else s.running;
        var q := if eventByte >= 0x80 then p + 1 else p;
        match Dispatch(data, trackEnd, tempo, ticksPerBeat, s.(pos := q, tick := tick, running := status), status)
        case OutOfRange => StepOutOfRange
        case Ok(s2) => if s2.pos >= |data| then Stop(s2) else Continue(s2)
  }

  /** The scan loop of parseTrack, run to its end. */
  function Scan(data: seq<Byte>, trackEnd: int, tempo: int, ticksPerBeat: int, s: ScanState): Checked<ScanState>
    requires ticksPerBeat > 0 && 0 <= s.pos
    decreases trackEnd - s.pos
  {
    if s.pos >= trackEnd then Ok(s)
    else
      match Step(data, trackEnd, tempo, ticksPerBeat, s)
      case Continue(s1) => Scan(data, trackEnd, tempo, ticksPerBeat, s1)
      case Stop(s1) => Ok(s1)
      case StepOutOfRange => OutOfRange
  }

  /** What one track contributes: the notes closed in order, and the notes still open at its end. */
  datatype TrackSummary = TrackSummary(closed: seq<MidiNote>, open: map<Byte, OpenNote>)

  datatype TrackParse =
    | TrackOk(trackEnd: int, summary: TrackSummary)
    | TrackFailed(error: ParseError)
    | TrackOutOfRange

  function InitialScan(trackStart: int): ScanState
  {
    ScanState(trackStart, 0, 0, map[], [])
  }

  /** parseTrack on the chunk at `pos`. */
  function ParseTrackSpec(data: seq<Byte>, pos: int, tempo: int, ticksPerBeat: int): (r: TrackParse)
    requires 0 <= pos && ticksPerBeat > 0
    ensures r.TrackOk? ==> r.trackEnd >= pos + 8
  {
    match TrackBounds(data, pos)
    case Failure(e) => TrackFailed(e)
    case Success(trackEnd) =>
      match Scan(data, trackEnd, tempo, ticksPerBeat, InitialScan(pos + 8))
      case OutOfRange => TrackOutOfRange
      case Ok(s) => TrackOk(trackEnd, TrackSummary(s.notes, s.open))
  }

  /** The note emitted for a pitch still open at the end of its track. */
  function TailNote(pitch: int, o: OpenNote): MidiNote
  {
    MidiNote(pitch, o.velocity, o.startTime, OpenNoteDuration, 0)
  }

  ghost function OpenTail(open: map<Byte, OpenNote>): set<MidiNote>
  {
    set p | p in open :: TailNote(p, open[p])
  }

  ghost function TrackSize(t: TrackSummary): nat
  {
    |t.closed| + |OpenTail(t.open)|
  }

  /**
   * `notes` is what parseTrack returns for the track: its closed notes in
   * order, then its open notes in some order (Go's map order is unspecified).
   */
  ghost predicate EmitsTrack(t: TrackSummary, notes: seq<MidiNote>)
  {
    |notes| == TrackSize(t) &&
    notes[..|t.closed|] == t.closed &&
    multiset(notes[|t.closed|..]) == multiset(OpenTail(t.open))
  }

  /** `notes` is the concatenation of what each of the tracks `ts` emits. */
  ghost predicate EmitsTracks(ts: seq<TrackSummary>, notes: seq<MidiNote>)
  {
    if ts == [] then notes == []
    else
      var k := |notes| - TrackSize(ts[|ts| - 1]);
      0 <= k && EmitsTracks(ts[..|ts| - 1], notes[..k]) && EmitsTrack(ts[|ts| - 1], notes[k..])
  }

  /**
   * ParseFile's loop over track chunks from `pos`: the summaries of the tracks
   * read, stopping (without error) at the first track that fails.
   */
  function TrackList(data: seq<Byte>, pos: int, tempo: int, ticksPerBeat: int): (seq<TrackSummary>, Outcome)
    requires 0 <= pos && ticksPerBeat > 0
    decreases |data| - pos
  {
    if pos >= |data| then ([], Done)
    else
      match ParseTrackSpec(data, pos, tempo, ticksPerBeat)
      case TrackFailed(_) => ([], Done)
      case TrackOutOfRange => ([], IndexOutOfRange)
      case TrackOk(trackEnd, t) =>
        var rest := TrackList(data, trackEnd, tempo, ticksPerBeat);
        ([t] + rest.0, rest.1)
  }

  /** A header whose division is 0 would make ticksToSeconds divide by zero. */
  predicate DivisionNonzero(data: seq<Byte>)
  {
    |data| >= 14 ==> Be16(data, 12) > 0
  }

  /** ParseFile's result for the bytes `data` at the given tempo. */
  ghost predicate ParsedFile(data: seq<Byte>, tempo: int, notes: seq<MidiNote>, outcome: Outcome)
  {
    match HeaderDivision(data)
    case Failure(e) => notes == [] && outcome == Failed(e)
    case Success(division) =>
      division > 0 &&
      var (tracks, o) := TrackList(data, 14, tempo, division);
      outcome == o && (o == Done ==> EmitsTracks(tracks, notes))
  }

  // ---------------------------------------------------------------------------
  // The parser object
  // ---------------------------------------------------------------------------

  class SimpleMidiParser {
    var data: seq<Byte>
    var position: int
    var ticksPerBeat: int
    var tempo: int

    /** NewSimpleMIDIParser */
    constructor ()
      ensures data == [] && position == 0 && ticksPerBeat == 0 && tempo == DefaultTempo
    {
      data := [];
      position := 0;
      ticksPerBeat := 0;
      tempo := DefaultTempo;
    }

    /** readVariableLength */
    method ReadVariableLength() returns (value: int, ok: bool)
      requires 0 <= position
      modifies this`position
      ensures ok == ReadVlq(data, old(position)).VlqOk?
      ensures value == (if ok then ReadVlq(data, old(position)).value else 0)
      ensures position == ReadVlq(data, old(position)).next
    {
      value := 0;
      var i := 0;
      while i < 4
        invariant 0 <= i <= 4
        invariant position == old(position) + i
        invariant 0 <= value
        invariant VlqFrom(data, position, i, value) == ReadVlq(data, old(position))
      {
        if position >= |data| {
          return 0, false;
        }
        var b := data[position];
        position := position + 1;
        value := value * 128 + b % 128;
        if b < 128 {
          return value, true;
        }
        i := i + 1;
      }
      ok := true;
    }

    /** parseHeader */
    method ParseHeader() returns (err: Option<ParseError>)
      modifies this`position, this`ticksPerBeat
      ensures match HeaderDivision(data)
        case Failure(e) => err == Some(e) && position == old(position) && ticksPerBeat == old(ticksPerBeat)
        case Success(division) => err == None && position == 14 && ticksPerBeat == division
    {
      if |data| < 14 {
        return Some(HeaderTooShort);
      }
      if data[0..4] != HeaderMagic {
        return Some(BadHeaderSignature);
      }
      // The declared header length at bytes 4..7 is skipped, not read.
      position := 8;
      var division := Be16(data, position + 4);
      position := position + 6;
      ticksPerBeat := division;
      err := None;
    }

    /**
     * The switch of parseTrack's loop on the event's status, entered with the
     * cursor on the event's first data byte. `inRange` is false where Go
     * would index past the data.
     */
    method HandleEvent(trackEnd: int, status: Byte, currentTick: int,
                       activeNotes: map<Byte, OpenNote>, notes: seq<MidiNote>)
      returns (inRange: bool, newOpen: map<Byte, OpenNote>, newNotes: seq<MidiNote>)
      requires 0 <= position && ticksPerBeat > 0
      modifies this`position
      ensures var r := Dispatch(data, trackEnd, tempo, ticksPerBeat,
                                ScanState(old(position), currentTick, status, activeNotes, notes), status);
              inRange == r.Ok? &&
              (inRange ==> r.value == ScanState(position, currentTick, status, newOpen, newNotes))
    {
      newOpen, newNotes := activeNotes, notes;
      var kind := status - status % 16;
      var now := TicksToSeconds(currentTick, tempo, ticksPerBeat);
      if kind == 0x90 {
        // Note On; an event cut short by the track end leaves the switch only
        if position + 2 <= trackEnd {
          if position + 1 >= |data| {
            return false, newOpen, newNotes;
          }
          var pitch := data[position];
          var velocity := data[position + 1];
          position := position + 2;
          if velocity > 0 {
            newOpen := newOpen[pitch := OpenNote(velocity, now)];
          } else if pitch in newOpen {
            newNotes := newNotes + [ClosedNote(pitch, newOpen[pitch], now)];
            newOpen := newOpen - {pitch};
          }
        }
      } else if kind == 0x80 {
        // Note Off
        if position + 2 <= trackEnd {
          if position >= |data| {
            return false, newOpen, newNotes;
          }
          var pitch := data[position];
          position := position + 2;
          if pitch in newOpen {
            newNotes := newNotes + [ClosedNote(pitch, newOpen[pitch], now)];
            newOpen := newOpen - {pitch};
          }
        }
      } else if status < 0xF0 {
        // other channel messages: skip their data bytes
        var msgType := (status / 16) % 8;
        if msgType < |ChannelDataBytes| {
          position := position + ChannelDataBytes[msgType];
        }
      }
      inRange := true;
    }

    /**
     * One turn of parseTrack's loop: the delta time, the event byte with the
     * running-status rule, and the switch on the status. `stop` is true where
     * the loop breaks, `inRange` false where Go would index past the data.
     */
    method ReadEvent(trackEnd: int, currentTick: int, runningStatus: Byte,
                     activeNotes: map<Byte, OpenNote>, notes: seq<MidiNote>)
      returns (inRange: bool, stop: bool, newTick: int, newRunning: Byte,
               newOpen: map<Byte, OpenNote>, newNotes: seq<MidiNote>)
      requires 0 <= position < trackEnd && ticksPerBeat > 0
      modifies this`position
      ensures var r := Step(data, trackEnd, tempo, ticksPerBeat,
                            ScanState(old(position), currentTick, runningStatus, activeNotes, notes));
              inRange == !r.StepOutOfRange? &&
              (inRange ==> stop == r.Stop? && r.state == ScanState(position, newTick, newRunning, newOpen, newNotes))
    {
      newTick, newRunning, newOpen, newNotes := currentTick, runningStatus, activeNotes, notes;
      ghost var s0 := ScanState(old(position), currentTick, runningStatus, activeNotes, notes);
      var deltaTime, ok := ReadVariableLength();
      if !ok {
        return true, true, newTick, newRunning, newOpen, newNotes;
      }
      newTick := newTick + deltaTime;
      if position >= trackEnd {
        return true, true, newTick, newRunning, newOpen, newNotes;
      }
      if position >= |data| {
        // data[position] panics in Go
        return false, true, newTick, newRunning, newOpen, newNotes;
      }
      var eventByte := data[position];
      position := position + 1;
      var status: Byte;
      if eventByte >= 0x80 {
        status := eventByte;
        newRunning := status;
      } else {
        // a data byte: keep the running status and read this byte again as data
        status := newRunning;
        position := position - 1;
      }
      ghost var s1 := s0.(pos := position, tick := newTick, running := status);
      assert Step(data, trackEnd, tempo, ticksPerBeat, s0) ==
        match Dispatch(data, trackEnd, tempo, ticksPerBeat, s1, status)
        case OutOfRange => StepOutOfRange
        case Ok(s2) => if s2.pos >= |data| then Stop(s2) else Continue(s2);
      inRange, newOpen, newNotes := HandleEvent(trackEnd, status, newTick, newOpen, newNotes);
      stop := inRange && position >= |data|;
    }

    /** parseTrack */
    method ParseTrack() returns (notes: seq<MidiNote>, outcome: Outcome)
      requires 0 <= position && ticksPerBeat > 0
      modifies this`position
      ensures match ParseTrackSpec(data, old(position), tempo, ticksPerBeat)
        case TrackFailed(e) => outcome == Failed(e) && position == old(position) && notes == []
        case TrackOutOfRange => outcome == IndexOutOfRange
        case TrackOk(trackEnd, t) => outcome == Done && position == trackEnd && EmitsTrack(t, notes)
    {
      if position + 8 > |data| {
        return [], Failed(TrackHeaderTooShort);
      }
      if data[position..position + 4] != TrackMagic {
        return [], Failed(BadTrackSignature);
      }
      var trackLength := Be32(data, position + 4);
      var trackStart := position + 8;
      var trackEnd := trackStart + trackLength;
      position := trackStart;
      assert TrackBounds(data, old(position)) == Success(trackEnd);

      notes := [];
      var activeNotes: map<Byte, OpenNote> := map[];
      var currentTick := 0;
      var runningStatus: Byte := 0;
      ghost var start := InitialScan(trackStart);

      while position < trackEnd
        invariant 0 <= position
        invariant Scan(data, trackEnd, tempo, ticksPerBeat, ScanState(position, currentTick, runningStatus, activeNotes, notes))
               == Scan(data, trackEnd, tempo, ticksPerBeat, start)
        decreases trackEnd - position
      {
        var inRange, stop;
        inRange, stop, currentTick, runningStatus, activeNotes, notes :=
          ReadEvent(trackEnd, currentTick, runningStatus, activeNotes, notes);
        if !inRange {
          assert ParseTrackSpec(data, old(position), tempo, ticksPerBeat) == TrackOutOfRange;
          return [], IndexOutOfRange;
        }
        if stop {
          break;
        }
      }
      ghost var final := ScanState(position, currentTick, runningStatus, activeNotes, notes);
      assert Scan(data, trackEnd, tempo, ticksPerBeat, start) == Ok(final);
      assert ParseTrackSpec(data, old(position), tempo, ticksPerBeat) == TrackOk(trackEnd, TrackSummary(final.notes, final.open));

      var tail := EmitOpenNotes(activeNotes);
      assert (notes + tail)[..|notes|] == notes && (notes + tail)[|notes|..] == tail;
      notes := notes + tail;
      position := trackEnd;
      outcome := Done;
    }

    /** ParseFile, given the file's bytes instead of its path. */
    method ParseFile(bytes: seq<Byte>) returns (notes: seq<MidiNote>, outcome: Outcome)
      requires DivisionNonzero(bytes)
      modifies this`data, this`position, this`ticksPerBeat
      ensures data == bytes
      ensures ParsedFile(bytes, tempo, notes, outcome)
    {
      data := bytes;
      position := 0;
      var err := ParseHeader();
      if err.Some? {
        return [], Failed(err.value);
      }
      notes := [];
      ghost var done: seq<TrackSummary> := [];
      ghost var whole := TrackList(data, 14, tempo, ticksPerBeat);
      while position < |data|
        invariant data == bytes && |data| >= 14 && HeaderDivision(data) == Success(ticksPerBeat)
        invariant 0 <= position && ticksPerBeat > 0
        invariant whole.0 == done + TrackList(data, position, tempo, ticksPerBeat).0
        invariant whole.1 == TrackList(data, position, tempo, ticksPerBeat).1
        invariant EmitsTracks(done, notes)
        decreases |data| - position
      {
        ghost var here := position;
        ghost var t := ParseTrackSpec(data, position, tempo, ticksPerBeat);
        TrackListStep(data, position, tempo, ticksPerBeat);
        var trackNotes, o := ParseTrack();
        if o.Failed? {
          assert TrackList(data, here, tempo, ticksPerBeat) == ([], Done);
          break;
        }
        if o == IndexOutOfRange {
          assert TrackList(data, here, tempo, ticksPerBeat).1 == IndexOutOfRange;
          return [], IndexOutOfRange;
        }
        TrackListNext(data, here, tempo, ticksPerBeat, whole, done, notes, trackNotes);
        notes := notes + trackNotes;
        done := done + [t.summary];
      }
      assert TrackList(data, position, tempo, ticksPerBeat) == ([], Done);
      assert done + [] == done;
      outcome := Done;
    }
  }

  /**
   * The end of parseTrack: every note still open is emitted with the fixed
   * duration. Go ranges over the map in an unspecified order; the model walks
   * the pitches upwards, which is one of the orders Go may produce, and the
   * contract promises only a permutation.
   */
  method EmitOpenNotes(activeNotes: map<Byte, OpenNote>) returns (tail: seq<MidiNote>)
    ensures multiset(tail) == multiset(OpenTail(activeNotes))
    ensures |tail| == |OpenTail(activeNotes)|
    ensures forall n :: n in tail ==> n.duration == OpenNoteDuration && n.pitch in activeNotes
  {
    tail := [];
    for pitch := 0 to 256
      invariant multiset(tail) == multiset(OpenTailBelow(activeNotes, pitch))
      invariant |tail| == |OpenTailBelow(activeNotes, pitch)|
      invariant forall n :: n in tail ==> n.duration == OpenNoteDuration && n.pitch in activeNotes
    {
      OpenTailBelowStep(activeNotes, pitch);
      if pitch in activeNotes {
        tail := tail + [TailNote(pitch, activeNotes[pitch])];
      }
    }
    OpenTailBelowAll(activeNotes);
  }

  // ---------------------------------------------------------------------------
  // Helper lemmas used by the methods above
  // ---------------------------------------------------------------------------

  /** The tail notes of the open pitches below `bound`. */
  ghost function OpenTailBelow(open: map<Byte, OpenNote>, bound: int): set<MidiNote>
  {
    set p | p in open && p < bound :: TailNote(p, open[p])
  }

  lemma OpenTailBelowStep(open: map<Byte, OpenNote>, pitch: Byte)
    ensures pitch in open ==>
              OpenTailBelow(open, pitch + 1) == OpenTailBelow(open, pitch) + {TailNote(pitch, open[pitch])} &&
              TailNote(pitch, open[pitch]) !in OpenTailBelow(open, pitch)
    ensures pitch !in open ==> OpenTailBelow(open, pitch + 1) == OpenTailBelow(open, pitch)
  {
    var below := OpenTailBelow(open, pitch);
    forall y | y in OpenTailBelow(open, pitch + 1)
      ensures y in below || (pitch in open && y == TailNote(pitch, open[pitch]))
    {
      var q :| q in open && q < pitch + 1 && y == TailNote(q, open[q]);
      if q != pitch {
        assert y in below;
      }
    }
  }

  lemma OpenTailBelowAll(open: map<Byte, OpenNote>)
    ensures OpenTailBelow(open, 256) == OpenTail(open)
  {
  }

  /** TrackList unfolded once at a position inside the data. */
  lemma TrackListStep(data: seq<Byte>, pos: int, tempo: int, ticksPerBeat: int)
    requires 0 <= pos < |data| && ticksPerBeat > 0
    ensures match ParseTrackSpec(data, pos, tempo, ticksPerBeat)
      case TrackFailed(_) => TrackList(data, pos, tempo, ticksPerBeat) == ([], Done)
      case TrackOutOfRange => TrackList(data, pos, tempo, ticksPerBeat) == ([], IndexOutOfRange)
      case TrackOk(trackEnd, t) =>
        var rest := TrackList(data, trackEnd, tempo, ticksPerBeat);
        TrackList(data, pos, tempo, ticksPerBeat) == ([t] + rest.0, rest.1)
  {
  }

  /** ParseFile's loop invariant carried over one track that parsed. */
  lemma TrackListNext(data: seq<Byte>, pos: int, tempo: int, ticksPerBeat: int,
                      whole: (seq<TrackSummary>, Outcome), done: seq<TrackSummary>,
                      notes: seq<MidiNote>, more: seq<MidiNote>)
    requires 0 <= pos < |data| && ticksPerBeat > 0
    requires ParseTrackSpec(data, pos, tempo, ticksPerBeat).TrackOk?
    requires EmitsTrack(ParseTrackSpec(data, pos, tempo, ticksPerBeat).summary, more)
    requires whole.0 == done + TrackList(data, pos, tempo, ticksPerBeat).0
    requires whole.1 == TrackList(data, pos, tempo, ticksPerBeat).1
    requires EmitsTracks(done, notes)
    ensures var t := ParseTrackSpec(data, pos, tempo, ticksPerBeat);
      var rest := TrackList(data, t.trackEnd, tempo, ticksPerBeat);
      whole.0 == (done + [t.summary]) + rest.0 && whole.1 == rest.1 &&
      EmitsTracks(done + [t.summary], notes + more)
  {
    var t := ParseTrackSpec(data, pos, tempo, ticksPerBeat);
    var rest := TrackList(data, t.trackEnd, tempo, ticksPerBeat);
    TrackListStep(data, pos, tempo, ticksPerBeat);
    assert done + ([t.summary] + rest.0) == (done + [t.summary]) + rest.0;
    EmitsTracksAppend(done, notes, t.summary, more);
  }

  lemma EmitsTracksAppend(ts: seq<TrackSummary>, notes: seq<MidiNote>, t: TrackSummary, more: seq<MidiNote>)
    requires EmitsTracks(ts, notes) && EmitsTrack(t, more)
    ensures EmitsTracks(ts + [t], notes + more)
  {
    var all := notes + more;
    assert (ts + [t])[..|ts|] == ts;
    assert all[..|notes|] == notes;
    assert all[|notes|..] == more;
  }
}
