/**
 * The track and lane stage (MIDIProcessor): turns the parser's notes into one
 * guitar track, picks the guitar track of a track list, and maps pitches to
 * the three lanes A, W and D.
 *
 * The processor object keeps its track list as a sequence that its methods
 * reassign. Go's `guitarTrack` pointer into that slice is modelled as an index.
 * The file system is not modelled: `LoadMidi` receives what reading the path
 * would give (missing, unreadable, or the file's bytes).
 */
module MidiProcessing {
  import opened Notes
  import MidiParser

  /** Number of lanes the game has (A, W, D). */
  const LaneCount: int := 3
  /** Lowest and highest pitch kept by the guitar-range filter (E2 and C6). */
  const LowestGuitarPitch: int := 40
  const HighestGuitarPitch: int := 84

  // ---------------------------------------------------------------------------
  // The pitch to lane rule
  // ---------------------------------------------------------------------------

  /** Lane 0 below middle C, lane 1 from middle C up to the C an octave above, lane 2 above that. */
  function LaneForPitch(pitch: int): (lane: int)
    ensures 0 <= lane < LaneCount
  {
    if pitch < 60 then 0
    else if pitch <= 72 then 1
    else 2
  }

  /** The lane rule as an ordering: a higher pitch never goes to a lower lane. */
  lemma LaneForPitchMonotone(low: int, high: int)
    requires low <= high
    ensures LaneForPitch(low) <= LaneForPitch(high)
  {
  }

  /** Exactly which pitches each lane receives. */
  lemma LaneForPitchRanges(pitch: int)
    ensures LaneForPitch(pitch) == 0 <==> pitch < 60
    ensures LaneForPitch(pitch) == 1 <==> 60 <= pitch <= 72
    ensures LaneForPitch(pitch) == 2 <==> 72 < pitch
  {
  }

  /** The notes with their lanes set by pitch and nothing else changed. */
  function WithLanes(notes: seq<MidiNote>): (r: seq<MidiNote>)
    ensures |r| == |notes|
    ensures forall k :: 0 <= k < |r| ==> 0 <= r[k].lane < LaneCount && r[k].(lane := notes[k].lane) == notes[k]
  {
    seq(|notes|, k requires 0 <= k < |notes| => notes[k].(lane := LaneForPitch(notes[k].pitch)))
  }

  /** Assigning lanes twice is assigning them once. */
  lemma WithLanesIdempotent(notes: seq<MidiNote>)
    ensures WithLanes(WithLanes(notes)) == WithLanes(notes)
  {
  }

  // ---------------------------------------------------------------------------
  // Guitar tracks
  // ---------------------------------------------------------------------------

  /** isGuitarTrack: a guitar name, a guitar program number (25 to 32), or any notes at all. */
  predicate IsGuitarTrack(t: MidiTrack)
  {
    t.name == "Guitar" || t.name == "Lead Guitar" || t.name == "Rhythm Guitar" ||
    (25 <= t.instrument <= 32) ||
    |t.notes| > 0
  }

  /** A track that fails isGuitarTrack is an empty one, neither named nor programmed as a guitar. */
  lemma NotGuitarTrack(t: MidiTrack)
    requires !IsGuitarTrack(t)
    ensures t.notes == [] && !(25 <= t.instrument <= 32)
    ensures t.name != "Guitar" && t.name != "Lead Guitar" && t.name != "Rhythm Guitar"
  {
  }

  /** The index of the first guitar track, if any. */
  function FirstGuitar(tracks: seq<MidiTrack>): (r: Option<nat>)
    ensures r.Some? ==> r.value < |tracks| && IsGuitarTrack(tracks[r.value])
    ensures r.Some? ==> forall j :: 0 <= j < r.value ==> !IsGuitarTrack(tracks[j])
    ensures r.None? ==> forall j :: 0 <= j < |tracks| ==> !IsGuitarTrack(tracks[j])
  {
    if tracks == [] then None
    else if IsGuitarTrack(tracks[0]) then Some(0)
    else match FirstGuitar(tracks[1..])
      case None => None
      case Some(i) => Some(i + 1)
  }

  /** The track FindGuitarTrack hands out: flagged as guitar, lanes assigned. */
  function Selected(t: MidiTrack): MidiTrack
  {
    t.(isGuitar := true, notes := WithLanes(t.notes))
  }

  // ---------------------------------------------------------------------------
  // The guitar-range filter of parseMIDIFile
  // ---------------------------------------------------------------------------

  predicate InGuitarRange(n: MidiNote)
  {
    LowestGuitarPitch <= n.pitch <= HighestGuitarPitch
  }

  /** The notes in guitar range, in their original order. */
  function GuitarRange(notes: seq<MidiNote>): (r: seq<MidiNote>)
    ensures |r| <= |notes|
    ensures forall n :: n in r ==> n in notes && InGuitarRange(n)
  {
    if notes == [] then []
    else
      var rest := GuitarRange(notes[..|notes| - 1]);
      var last := notes[|notes| - 1];
      if InGuitarRange(last) then rest + [last] else rest
  }

  /** Nothing in range is dropped. */
  lemma {:induction false} GuitarRangeKeepsAll(notes: seq<MidiNote>)
    ensures forall n :: n in notes && InGuitarRange(n) ==> n in GuitarRange(notes)
  {
    if notes != [] {
      var init := notes[..|notes| - 1];
      GuitarRangeKeepsAll(init);
      assert notes == init + [notes[|notes| - 1]];
    }
  }

  /** The filter keeps every copy of an in-range note and no copy of any other. */
  lemma {:induction false} GuitarRangeCounts(notes: seq<MidiNote>, n: MidiNote)
    ensures multiset(GuitarRange(notes))[n] == if InGuitarRange(n) then multiset(notes)[n] else 0
  {
    if notes != [] {
      var init := notes[..|notes| - 1];
      GuitarRangeCounts(init, n);
      assert notes == init + [notes[|notes| - 1]];
    }
  }

  /** Applying the filter to its own output changes nothing. */
  lemma {:induction false} GuitarRangeIdempotent(notes: seq<MidiNote>)
    ensures GuitarRange(GuitarRange(notes)) == GuitarRange(notes)
  {
    if notes != [] {
      var init := notes[..|notes| - 1];
      var last := notes[|notes| - 1];
      GuitarRangeIdempotent(init);
      var rest := GuitarRange(init);
      if InGuitarRange(last) {
        assert (rest + [last])[..|rest|] == rest;
      }
    }
  }

  /** parseMIDIFile's filter loop. */
  method FilterGuitarRange(allNotes: seq<MidiNote>) returns (guitarNotes: seq<MidiNote>)
    ensures guitarNotes == GuitarRange(allNotes)
  {
    guitarNotes := [];
    for i := 0 to |allNotes|
      invariant guitarNotes == GuitarRange(allNotes[..i])
    {
      assert allNotes[..i + 1][..i] == allNotes[..i];
      if LowestGuitarPitch <= allNotes[i].pitch <= HighestGuitarPitch {
        guitarNotes := guitarNotes + [allNotes[i]];
      }
    }
    assert allNotes[..|allNotes|] == allNotes;
  }

  // ---------------------------------------------------------------------------
  // The fallback chart
  // ---------------------------------------------------------------------------

  /** createTestData's track: E4, G4, C5, a longer E4, A4, with preset lanes A, W, D, A, W. */
  const FallbackTrack: MidiTrack := MidiTrack("Guitar", 1, 25, [
    MidiNote(64, 80, 1.0, 0.5, 0),
    MidiNote(67, 85, 1.5, 0.5, 1),
    MidiNote(72, 90, 2.0, 0.5, 2),
    MidiNote(64, 80, 2.5, 1.0, 0),
    MidiNote(69, 85, 3.0, 0.5, 1)], true)

  /** The preset lanes do not survive lane assignment: all five pitches lie in 60..72, so all go to lane 1. */
  lemma FallbackLanesAllMiddle()
    ensures IsGuitarTrack(FallbackTrack)
    ensures forall n :: n in Selected(FallbackTrack).notes ==> n.lane == 1
    ensures FallbackTrack.notes[0].lane == 0 && Selected(FallbackTrack).notes[0].lane == 1
  {
    var notes := Selected(FallbackTrack).notes;
    forall n | n in notes
      ensures n.lane == 1
    {
      var k :| 0 <= k < |notes| && notes[k] == n;
      assert 60 <= FallbackTrack.notes[k].pitch <= 72;
    }
  }

  // ---------------------------------------------------------------------------
  // The processor object
  // ---------------------------------------------------------------------------

  datatype FindError = NoTracksLoaded | NoGuitarTrack

  /** What the path names: nothing, a file that cannot be read, or a file's bytes. */
  datatype FileState = Missing | Unreadable | Contents(bytes: seq<MidiParser.Byte>)

  /**
   * LoadMIDI's outcome: loaded (from the file or from the fallback), not
   * found, no absolute path for the name, or the parser's panic.
   */
  datatype LoadOutcome = Loaded | NotFound | NoAbsolutePath | ParserPanic

  class MidiProcessor {
    var filePath: string
    var tracks: seq<MidiTrack>
    /** Index in `tracks` of the track `guitarTrack` points at. */
    var guitarTrack: Option<nat>

    /** NewMIDIProcessor */
    constructor ()
      ensures filePath == "" && tracks == [] && guitarTrack == None
    {
      filePath := "";
      tracks := [];
      guitarTrack := None;
    }

    /** assignLanes on the track at `index`, rewriting each note's lane in place. */
    method AssignLanes(index: nat)
      requires index < |tracks|
      modifies this`tracks
      ensures tracks == old(tracks)[index := old(tracks)[index].(notes := WithLanes(old(tracks)[index].notes))]
    {
      ghost var original := tracks[index].notes;
      for i := 0 to |tracks[index].notes|
        invariant |tracks| == |old(tracks)|
        invariant forall j :: 0 <= j < |tracks| && j != index ==> tracks[j] == old(tracks)[j]
        invariant tracks[index] == old(tracks)[index].(notes := tracks[index].notes)
        invariant |tracks[index].notes| == |original|
        invariant tracks[index].notes[..i] == WithLanes(original)[..i]
        invariant tracks[index].notes[i..] == original[i..]
      {
        var track := tracks[index];
        var note := track.notes[i];
        var lane: int;
        if note.pitch < 60 {
          lane := 0;
        } else if note.pitch <= 72 {
          lane := 1;
        } else {
          lane := 2;
        }
        tracks := tracks[index := track.(notes := track.notes[i := note.(lane := lane)])];
      }
      assert tracks[index].notes == tracks[index].notes[..|original|];
      assert WithLanes(original)[..|original|] == WithLanes(original);
    }

    /**
     * FindGuitarTrack: the first guitar track gets flagged, remembered and its
     * lanes assigned. The result is a copy of that track; in Go it is a
     * pointer into the track list.
     */
    method FindGuitarTrack() returns (r: Result<MidiTrack, FindError>)
      modifies this`tracks, this`guitarTrack
      ensures old(tracks) == [] ==> r == Failure(NoTracksLoaded)
      ensures match FirstGuitar(old(tracks))
        case None =>
          tracks == old(tracks) && guitarTrack == old(guitarTrack) && r.Failure? &&
          (old(tracks) != [] ==> r.error == NoGuitarTrack)
        case Some(i) =>
          tracks == old(tracks)[i := Selected(old(tracks)[i])] && guitarTrack == Some(i) &&
          r == Success(Selected(old(tracks)[i]))
    {
      if |tracks| == 0 {
        return Failure(NoTracksLoaded);
      }
      for i := 0 to |tracks|
        invariant tracks == old(tracks) && guitarTrack == old(guitarTrack)
        invariant forall j :: 0 <= j < i ==> !IsGuitarTrack(tracks[j])
      {
        var track := tracks[i];
        if IsGuitarTrack(track) {
          tracks := tracks[i := track.(isGuitar := true)];
          guitarTrack := Some(i);
          AssignLanes(i);
          return Success(tracks[i]);
        }
      }
      return Failure(NoGuitarTrack);
    }

    /**
     * parseMIDIFile on what reading the path gave: parse, keep the notes in
     * guitar range, and replace the track list by one "Guitar" track.
     * `failed` is the error return; `panicked` is the parser's panic.
     */
    method ParseMidiFile(file: FileState) returns (failed: bool, panicked: bool)
      requires file.Contents? ==> MidiParser.DivisionNonzero(file.bytes)
      modifies this`tracks
      ensures !(failed && panicked)
      ensures file.Missing? || file.Unreadable? ==> failed && tracks == old(tracks)
      ensures file.Contents? ==>
        (failed <==> MidiParser.HeaderDivision(file.bytes).Failure?) &&
        (failed || panicked ==> tracks == old(tracks))
      ensures panicked ==>
        file.Contents? &&
        exists notes :: MidiParser.ParsedFile(file.bytes, MidiParser.DefaultTempo, notes, MidiParser.IndexOutOfRange)
      ensures !failed && !panicked ==>
        file.Contents? &&
        exists notes :: MidiParser.ParsedFile(file.bytes, MidiParser.DefaultTempo, notes, MidiParser.Done) &&
                        tracks == [MidiTrack("Guitar", 0, 25, GuitarRange(notes), true)]
    {
      if !file.Contents? {
        return true, false;
      }
      var parser := new MidiParser.SimpleMidiParser();
      var allNotes, outcome := parser.ParseFile(file.bytes);
      ParsedFileFails(file.bytes, MidiParser.DefaultTempo, allNotes, outcome);
      if outcome.Failed? {
        return true, false;
      }
      if outcome == MidiParser.IndexOutOfRange {
        return false, true;
      }
      var guitarNotes := FilterGuitarRange(allNotes);
      tracks := [MidiTrack("Guitar", 0, 25, guitarNotes, true)];
      failed, panicked := false, false;
    }

    /** createTestData: append the fallback track and point guitarTrack at the first track. */
    method CreateTestData()
      modifies this`tracks, this`guitarTrack
      ensures tracks == old(tracks) + [FallbackTrack] && guitarTrack == Some(0)
    {
      tracks := tracks + [FallbackTrack];
      guitarTrack := Some(0);
    }

    /**
     * LoadMIDI: a missing file and a name with no absolute path are the
     * errors; a file that cannot be read or parsed gives the fallback track
     * instead. `absPath` is what resolving the name against the working
     * directory gave, or None when that failed.
     */
    method LoadMidi(path: string, absPath: Option<string>, file: FileState) returns (outcome: LoadOutcome)
      requires file.Contents? ==> MidiParser.DivisionNonzero(file.bytes)
      modifies this`filePath, this`tracks, this`guitarTrack
      ensures filePath == (if !file.Missing? && absPath.Some? then absPath.value else path)
      ensures file.Missing? <==> outcome == NotFound
      ensures !file.Missing? && absPath.None? <==> outcome == NoAbsolutePath
      ensures outcome != Loaded ==> tracks == old(tracks) && guitarTrack == old(guitarTrack)
      ensures outcome == ParserPanic ==>
        file.Contents? &&
        exists notes :: MidiParser.ParsedFile(file.bytes, MidiParser.DefaultTempo, notes, MidiParser.IndexOutOfRange)
      ensures absPath.Some? && file.Unreadable? ==>
        outcome == Loaded && tracks == old(tracks) + [FallbackTrack] && guitarTrack == Some(0)
      ensures absPath.Some? && file.Contents? && MidiParser.HeaderDivision(file.bytes).Failure? ==>
        outcome == Loaded && tracks == old(tracks) + [FallbackTrack] && guitarTrack == Some(0)
      ensures outcome == Loaded && file.Contents? && MidiParser.HeaderDivision(file.bytes).Success? ==>
        guitarTrack == old(guitarTrack) &&
        exists notes :: MidiParser.ParsedFile(file.bytes, MidiParser.DefaultTempo, notes, MidiParser.Done) &&
                        tracks == [MidiTrack("Guitar", 0, 25, GuitarRange(notes), true)]
      ensures outcome == Loaded ==> |tracks| >= 1
    {
      filePath := path;
      if file.Missing? {
        return NotFound;
      }
      if absPath.None? {
        return NoAbsolutePath;
      }
      filePath := absPath.value;
      var failed, panicked := ParseMidiFile(file);
      if panicked {
        return ParserPanic;
      }
      if failed {
        CreateTestData();
      }
      outcome := Loaded;
    }
  }

  /** ParseFile reports an error only for a bad header: a failing track ends the loop without error. */
  lemma ParsedFileFails(data: seq<MidiParser.Byte>, tempo: int, notes: seq<MidiNote>, outcome: MidiParser.Outcome)
    requires MidiParser.ParsedFile(data, tempo, notes, outcome)
    ensures outcome.Failed? <==> MidiParser.HeaderDivision(data).Failure?
  {
    if MidiParser.HeaderDivision(data).Success? {
      TrackListNeverFails(data, 14, tempo, MidiParser.HeaderDivision(data).value);
    }
  }

  lemma {:induction false} TrackListNeverFails(data: seq<MidiParser.Byte>, pos: int, tempo: int, ticksPerBeat: int)
    requires 0 <= pos && ticksPerBeat > 0
    ensures !MidiParser.TrackList(data, pos, tempo, ticksPerBeat).1.Failed?
    decreases |data| - pos
  {
    if pos < |data| {
      match MidiParser.ParseTrackSpec(data, pos, tempo, ticksPerBeat)
      case TrackFailed(_) =>
      case TrackOutOfRange =>
      case TrackOk(trackEnd, _) => TrackListNeverFails(data, trackEnd, tempo, ticksPerBeat);
    }
  }

  /** Once the parser produced a track list, FindGuitarTrack always succeeds on its one track. */
  lemma ParsedTrackIsGuitar(notes: seq<MidiNote>)
    ensures FirstGuitar([MidiTrack("Guitar", 0, 25, notes, true)]) == Some(0)
  {
  }
}
