# GHero core in Dafny

This project models the core of GHero, a three-lane rhythm game that plays a
Standard MIDI File. The model has four parts, each proved against pure
specifications.

- **Chart parser** (`SimpleMIDIParser`, module `MidiParser`). It is a cursor
  over a byte sequence. It reads variable-length quantities, the `MThd`
  header and the `MTrk` chunks. Inside a track it follows running status and
  a pitch-keyed map of open notes. It emits notes with start times and
  durations in seconds, at the fixed default tempo of 500000 µs per beat.
- **Track and lane stage** (`MIDIProcessor`, module `MidiProcessing`).
  - The guitar-range filter keeps pitches 40 to 84.
  - The guitar-track rule selects a track.
  - The pitch-to-lane rule maps pitches to lanes A, W and D.
  - A five-note fallback track is used when the file cannot be parsed.
- **Play session** (`Game`, modules `Scoring`, `GameRules`, `ChartAdapter` and
  `GameEngine`).
  - The chart is shifted to start at 2 s, cut to the 30 s window and clipped.
  - The session moves through the states Menu, Playing and GameOver.
  - Each frame runs key input, note movement, sustain tracking, the miss
    sweep and the end check, in that order.
  - Judgments, score and combo follow fixed rules, including the sustain
    bonus.
- **Audio state and synthesis** (`AudioManager` and `MIDIAudioStreamer`, module
  `Audio`).
  - The playback flags form a small state machine, and the volume is clamped.
  - The per-sample synthesis applies the note gate, the fade envelope, the
    running per-note divisor, lane panning and the final hard clip.

Each loop of the source is a Dafny `method` with a `while` or `for` loop. Each
object that is updated in place is a `class`. Every such method is proved
against a function on values: `Step`/`Scan`/`TrackList` for the parser,
`GameNotes`/`AudioNotes` for the adapter, `FrameBoard` and its phases for a
frame, and `Synthesized` for a sample. The lemmas then state what the source
promises about those functions:
- judged notes and the counters stay in balance;
- every overdue note is judged;
- the closest-note search returns the nearest eligible note;
- the adapted lists keep the chart's order;
- variable-length quantities round-trip;
- every emitted note is well formed.

Inputs the Go code reads from its environment become parameters:
- the wall clock is a `now: real`;
- key polling is a `Keys` value of per-lane `down`/`pressed`/`released` flags;
- the file system is the bytes of the file, or a `FileState`;
- the speaker's initialisation result is a boolean;
- `math.Sin` of the synthesizer is an `Oscillator`, any function of pitch and time bounded by [-1, 1].

Where the code departs from the game's documented design, the model follows
the code:
- The miss sweep also force-misses a sustained note that is still held,
  because `checkMissedNotes` does not look at `IsPressed`.
- The frame runs key handling before sustain tracking (game.go:291-301).
- Sustain tracking looks at active, pressed, unjudged notes, not at
  `IsBeingHeld`.
- A judged note stays active.
- The sustain bonus is `int32(50 * p)`, a truncation (a floor here, since p > 0.8), not a rounding.

## Model

| member | source | states |
|---|---|---|
| MidiParser.SimpleMidiParser.constructor | simple_midi_parser.go:18-22 | a new parser has no data, its cursor at 0 and the default tempo 500000 |
| MidiParser.TicksToSeconds | simple_midi_parser.go:249-253 | the tick conversion ticks * tempo / (ticksPerBeat * 10^6) (its properties are stated by TicksToSecondsMonotone) |
| MidiParser.VlqFrom | simple_midi_parser.go:229-246 | the read loop from its i-th byte on: a success ends past the cursor and within the bytes left of the four (its results are stated by ReadVlqEndIff, ReadVlqStops and VlqRoundTrip) |
| MidiParser.ReadVlq | simple_midi_parser.go:229-246 | a successful read advances the cursor by 1 to 4 bytes |
| MidiParser.SimpleMidiParser.ReadVariableLength | simple_midi_parser.go:229-246 | the loop reads exactly the quantity ReadVlq describes: success flag, value (0 on error) and new cursor |
| ParserProperties.VlqExamples | simple_midi_parser.go:229-246 | [0x7F] is 127, [0x81,0x00] is 128, [0xFF,0x7F] is 16383; five marked bytes stop after four; two marked bytes at the end of data are an error |
| ParserProperties.ReadVlqEndIff | simple_midi_parser.go:231-238 | the read fails exactly when the data ends within 4 bytes and every remaining byte has bit 7 set |
| ParserProperties.ReadVlqStops | simple_midi_parser.go:236-243 | on success every byte but the last read has bit 7 set, and the last has it clear unless all four bytes were read |
| ParserProperties.VlqRoundTrip | simple_midi_parser.go:229-246 | the standard encoding of any value below 2^28 takes 1 to 4 bytes and decodes back to the value |
| MidiParser.SimpleMidiParser.ParseHeader | simple_midi_parser.go:54-79 | short data or a bad "MThd" fails and leaves cursor and division unchanged; otherwise the cursor is 14 and ticksPerBeat is the big-endian u16 at bytes 12-13 |
| MidiParser.HeaderDivision | simple_midi_parser.go:54-79 | the header's result as a value: fewer than 14 bytes or no "MThd" is an error, otherwise the big-endian u16 at bytes 12-13 (stated by ParseHeader, HeaderDivisionIgnoresLength and ExampleHeader) |
| ParserProperties.HeaderDivisionIgnoresLength | simple_midi_parser.go:64-70 | the declared header length (bytes 4-7) has no effect on the header's result |
| ParserProperties.ExampleHeader | simple_midi_parser.go:54-79 | a header declaring division 0x01E0 gives 480 ticks per beat |
| MidiParser.TrackBounds | simple_midi_parser.go:83-95 | a valid track header yields a track end at least 8 bytes past the chunk start |
| MidiParser.CloseNote | simple_midi_parser.go:154-174 | closing a pitch removes it from the open map; it emits exactly one note when the pitch was open and nothing otherwise; cursor, tick and running status are untouched |
| MidiParser.Dispatch | simple_midi_parser.go:134-209 | the status switch never moves the cursor backwards (its effect on notes is stated by HandleEvent and DispatchSane) |
| MidiParser.Step | simple_midi_parser.go:107-213 | an iteration that continues the loop consumes at least one byte and stays inside the data (the loop's termination measure) |
| MidiParser.Scan | simple_midi_parser.go:107-214 | the scan loop as repeated Step until the track end, the end of the data or an out-of-range index (its invariant is stated by ScanSane, its example by ExampleTrack) |
| MidiParser.SimpleMidiParser.HandleEvent | simple_midi_parser.go:134-209 | the switch does what Dispatch describes, including the running-status re-read, break-only-leaves-the-switch and out-of-range indexing |
| MidiParser.SimpleMidiParser.ReadEvent | simple_midi_parser.go:107-213 | one turn of the scan loop (delta time, event byte, running status, switch, end-of-data break) is Step |
| MidiParser.SimpleMidiParser.ParseTrack | simple_midi_parser.go:82-226 | a short or badly signed chunk fails without moving the cursor; otherwise the cursor ends at trackStart+8+length however the scan stopped, and the notes are the closed ones followed by the open ones |
| MidiParser.ParseTrackSpec | simple_midi_parser.go:82-226 | parseTrack as a value: a good chunk header yields a track end at least 8 bytes past the chunk start (the rest is stated by ParseTrack and TrackSane) |
| MidiParser.EmitOpenNotes | simple_midi_parser.go:216-220 | the notes left open are emitted once each, with duration 0.5, in some order (a multiset equality) |
| MidiParser.SimpleMidiParser.ParseFile | simple_midi_parser.go:25-51 | the result is ParsedFile: a header error is returned as an error, the tracks are parsed until the data ends or one fails, and their notes are concatenated |
| MidiParser.TrackList | simple_midi_parser.go:41-48 | the file's track loop as a value (stated by TrackListStep, TrackListNeverFails and TrackListSane) |
| MidiParser.ParsedFile | simple_midi_parser.go:25-51 | what ParseFile returns for the bytes: the header error, or the concatenated notes of the track loop and how it ended (stated by ParsedFileFails and ParsedNotesWellFormed) |
| MidiParser.TrackListStep | simple_midi_parser.go:41-48 | a failing track ends the loop without error; a good track's notes come before the rest of the file's |
| MidiParser.TrackListNext | simple_midi_parser.go:41-48 | the loop's invariant survives one more track |
| MidiParser.EmitsTracksAppend | simple_midi_parser.go:47 | appending a track's notes extends what the parsed tracks emit |
| ParserProperties.TicksToSecondsMonotone | simple_midi_parser.go:249-253 | tick conversion is non-negative and monotone |
| ParserProperties.DispatchSane | simple_midi_parser.go:136-174 | an event keeps open notes started by now and closed notes well formed (byte-sized pitch and velocity, non-negative start and duration, lane 0), and only appends notes |
| ParserProperties.StepSane | simple_midi_parser.go:107-213 | one loop turn keeps that scan invariant |
| ParserProperties.ScanSane | simple_midi_parser.go:107-214 | a whole track scan keeps it |
| ParserProperties.TrackSane | simple_midi_parser.go:82-222 | a parsed track's summary is well formed |
| ParserProperties.EmittedNotesWellFormed | simple_midi_parser.go:216-220 | every note a well-formed track emits is well formed, the open tail included |
| ParserProperties.TrackListSane | simple_midi_parser.go:41-48 | every track of the file loop is well formed |
| ParserProperties.EmitsTracksWellFormed | simple_midi_parser.go:47 | the concatenated notes of well-formed tracks are well formed |
| ParserProperties.ParsedNotesWellFormed | simple_midi_parser.go:25-51 | every note of a file that parses to its end is well formed |
| ParserProperties.ExampleStep0 | simple_midi_parser.go:120-161 | a Note-On 60 velocity 100 opens pitch 60 at time 0 |
| ParserProperties.ExampleStep1 | simple_midi_parser.go:124-161 | a data byte after a delta of 240 ticks reuses running status 0x90, and velocity 0 closes pitch 60 |
| ParserProperties.ExampleStep2 | simple_midi_parser.go:107-132 | the meta event's 0xFF becomes the running status |
| ParserProperties.ExampleStep3 | simple_midi_parser.go:135-208 | case 0xFF is never taken: the meta type byte is read as a delta time |
| ParserProperties.ExampleStep4 | simple_midi_parser.go:107-116 | the scan stops at the track end |
| ParserProperties.ExampleTrack | simple_midi_parser.go:82-226 | the example track yields one closed note of 0.25 s and nothing open |
| ParserProperties.ExampleTrackList | simple_midi_parser.go:41-48 | the example file is one track, and the loop ends there |
| ParserProperties.EmitsOneClosedTrack | simple_midi_parser.go:216-220 | a track with nothing open emits exactly its closed notes |
| ParserProperties.ExampleChartParses | simple_midi_parser.go:25-51 | the example file parses to exactly the note (60, 100, 0 s, 0.25 s) |
| MidiProcessing.LaneForPitch | midi_processor.go:180-186 | every pitch lands in one of the three lanes |
| MidiProcessing.LaneForPitchRanges | midi_processor.go:176-186 | lane 0 exactly below 60, lane 1 exactly for 60 to 72, lane 2 exactly above 72 |
| MidiProcessing.LaneForPitchMonotone | midi_processor.go:180-186 | a higher pitch never goes to a lower lane |
| MidiProcessing.WithLanes | midi_processor.go:172-187 | lane assignment keeps count and order and changes only the lane, which ends in range |
| MidiProcessing.WithLanesIdempotent | midi_processor.go:172-187 | assigning lanes twice is assigning them once |
| MidiProcessing.MidiProcessor.AssignLanes | midi_processor.go:172-187 | the loop rewrites the lanes of the chosen track in place and leaves every other track alone |
| MidiProcessing.IsGuitarTrack | midi_processor.go:156-169 | the guitar-track rule: one of the three names, an instrument in 25 to 32, or any note (its negation is stated by NotGuitarTrack) |
| MidiProcessing.NotGuitarTrack | midi_processor.go:156-169 | a track is refused only when its name is none of the three guitar names, its instrument is outside 25 to 32 and it has no notes |
| MidiProcessing.FirstGuitar | midi_processor.go:142-150 | the search finds the first qualifying track, or reports that none qualifies |
| MidiProcessing.Selected | midi_processor.go:144-147 | the selected track with IsGuitar set and lanes assigned (stated by FindGuitarTrack and FallbackLanesAllMiddle) |
| MidiProcessing.MidiProcessor.FindGuitarTrack | midi_processor.go:136-153 | no tracks is an error, no qualifying track is an error with nothing changed; otherwise the first qualifying track gets IsGuitar and its lanes, and guitarTrack points at it |
| MidiProcessing.GuitarRange | midi_processor.go:89-95 | the filter keeps only notes of the input with pitch 40 to 84 |
| MidiProcessing.GuitarRangeKeepsAll | midi_processor.go:89-95 | no note in guitar range is dropped |
| MidiProcessing.GuitarRangeCounts | midi_processor.go:89-95 | each kept note appears as often as in the input, each other note not at all |
| MidiProcessing.GuitarRangeIdempotent | midi_processor.go:89-95 | filtering twice is filtering once |
| MidiProcessing.FilterGuitarRange | midi_processor.go:89-95 | the append loop computes GuitarRange |
| MidiProcessing.MidiProcessor.constructor | midi_processor.go:35-39 | a new processor has no tracks and no guitar track |
| MidiProcessing.MidiProcessor.ParseMidiFile | midi_processor.go:70-112 | an unreadable file or a bad header fails and keeps the tracks; a parser panic keeps them and is a file whose scan indexes past the data; otherwise the track list becomes one "Guitar" track (channel 0, instrument 25) holding the parsed notes in guitar range |
| MidiProcessing.MidiProcessor.CreateTestData | midi_processor.go:115-133 | the five-note fallback track is appended and guitarTrack points at the first track |
| MidiProcessing.MidiProcessor.LoadMidi | midi_processor.go:42-67 | filePath is the given name when the file is missing or the name has no absolute path, and the absolute path otherwise; a missing file and a failed absolute path are the errors returned, and every outcome but Loaded leaves tracks and guitarTrack unchanged; an unreadable file or a bad header still loads, with the fallback track appended and guitarTrack at 0; a file that parses gives the one-track list of ParseMidiFile with guitarTrack unchanged; a loaded processor has at least one track |
| MidiProcessing.FallbackLanesAllMiddle | midi_processor.go:122-128 | the fallback track qualifies, and selecting it moves every preset lane to lane 1 (pitch 64 leaves lane 0) |
| MidiProcessing.ParsedFileFails | simple_midi_parser.go:34-50 | ParseFile reports an error exactly when the header is bad |
| MidiProcessing.TrackListNeverFails | simple_midi_parser.go:41-50 | a failing track never turns into an error of the whole file |
| MidiProcessing.ParsedTrackIsGuitar | midi_processor.go:100-108 | the track parseMIDIFile builds is always selected as the guitar track |
| Scoring.Points | game.go:533-561 | the points of a judgment lie in [0, 100], are 0 exactly for a Miss and 100 exactly for a Perfect |
| Scoring.CalculateAccuracy | game.go:515-530 | Perfect exactly when the error is within 0.05 s, Miss exactly when it is beyond 0.15 s |
| Scoring.AccuracySymmetric | game.go:516-519 | early and late errors of the same size get the same judgment |
| Scoring.AccuracyMonotone | game.go:521-529 | a smaller error never gets a worse judgment |
| Scoring.AddScore | game.go:533-561 | one more judged note; the combo grows on a hit and is 0 after a Miss; maxCombo is at least the combo and never falls; counters stay valid |
| Scoring.AddScoreTiers | game.go:533-561 | exactly the judgment's tier counter moves, the score grows by 100/75/50/0 plus combo/10 above a combo of 10, and maxCombo is the larger of old maximum and new combo |
| Scoring.AddScores | game.go:533-561 | a sequence of judgments counts one processed note each |
| Scoring.ComboIsTrailingRun | game.go:537-555 | after any judgments, the combo is the run of hits since the last Miss, and maxCombo bounds every combo reached on the way |
| Scoring.MissResetsCombo | game.go:547-549 | a Miss zeroes the combo and adds nothing to the score |
| Scoring.Downgrade | game.go:469-476 | the release downgrade lowers Perfect and Good by one tier and leaves OK and Miss; the result is a Miss exactly when the input is |
| Scoring.Bonus | game.go:394-397 | no bonus at a progress of 0.8 or less |
| Scoring.BonusBounds | game.go:482-485 | for a progress in [0, 1] the bonus is 0 or between 40 and 50, and 50 at completion |
| Scoring.Complete | game.go:390-397 | resolving a held note counts one processed note and keeps the counters valid |
| GameRules.IsSustained | game.go:414-416 | a note is sustained exactly when it lasts more than 0.3 s (used by PressAtJudges and SweepMissesHeldNotes) |
| GameRules.ResetNote | game.go:233-236 | a restarted note is active and unjudged |
| GameRules.ResetAll | game.go:233-236 | the restart changes each note by ResetNote, index for index |
| GameRules.ResetAllUnresolved | game.go:233-236 | after a restart no note is judged, and well-formed notes stay well formed |
| GameRules.RestartKeepsStaleHold | game.go:233-236 | a restart keeps a note's pressed flag, judgment and progress, so a note held when the last game ended is still held in the new one |
| GameRules.MoveNote | game.go:336-350 | movement changes only Y and may deactivate, never reactivate |
| GameRules.MoveNoteLeavesScreen | game.go:343-349 | Y is the hit line plus 200 px per second late, and the note leaves play exactly 0.75 s after its start |
| GameRules.MoveAll | game.go:335-351 | every note is moved by MoveNote |
| GameRules.MoveAllKeeps | game.go:335-351 | movement judges nothing and keeps notes well formed |
| GameRules.Eligible | game.go:499-503 | a note can be pressed in a lane when it is active, unjudged, unpressed and in that lane (the filter of findClosestNote) |
| GameRules.Candidate | game.go:499-505 | an eligible note less than 0.2 s late and nearer than the 1e6 sentinel (used by ClosestIsNearest) |
| GameRules.ClosestUpTo | game.go:497-509 | a found note is eligible (active, unjudged, unpressed, in the lane, less than 0.2 s late) and its distance is returned; none found leaves the 1e6 sentinel |
| GameRules.Closest | game.go:493-512 | findClosestNote's result as an index (stated by ClosestIsNearest) |
| GameRules.ClosestUpToIsNearest | game.go:497-509 | the search over a prefix finds nothing exactly when no note qualifies, and the found note is strictly nearer than every earlier candidate and no farther than every later one |
| GameRules.ClosestIsNearest | game.go:493-512 | findClosestNote returns nil exactly when no note qualifies, and otherwise the first of the nearest eligible notes |
| GameRules.PressAt | game.go:426-445 | a press on a note keeps the number of notes (its effect is stated by PressAtJudges) |
| GameRules.Press | game.go:419-446 | a key press: PressAt on the Closest note, nothing without one (stated by PressAtJudges and PressKeeps) |
| GameRules.PressAtJudges | game.go:426-445 | a Miss changes nothing; a sustained note becomes pressed and held with its judgment stored and no score; a short note is judged with exactly one addScore; no other note changes |
| GameRules.HeldIn | game.go:451-456 | a note is held in a lane when it is active, in that lane, pressed and unjudged (used by ReleaseResolvesFirstHeld) |
| GameRules.FirstHeldFrom | game.go:451-456 | the release search finds the first active, pressed, unjudged note of the lane, or none |
| GameRules.ReleaseAt | game.go:457-488 | a release on a note keeps the number of notes (its effect is stated by ReleaseAtResolves) |
| GameRules.Release | game.go:449-490 | a key release: ReleaseAt on the first held note, nothing without one (stated by ReleaseResolvesFirstHeld and ReleaseKeeps) |
| GameRules.ReleaseAtResolves | game.go:458-488 | the released note is judged and no longer pressed or held; no other note changes |
| GameRules.ReleaseResolvesFirstHeld | game.go:449-490 | a release judges only the first held note of the lane and leaves the others; the counters move as addScore of the stored judgment, lowered one tier by Downgrade exactly when the release time judged against the note's end is a Miss, plus the bonus of its sustain progress; so the judgment falls at most one tier and is a Miss only when the stored one is; with no held note nothing changes |
| GameRules.InputAll | game.go:317-332 | the input pass: per lane in order, Press then Release (stated by InputKeeps and UpdateInput) |
| GameRules.InputLane | game.go:322-330 | one lane of the input pass: a press before a release (stated by PressKeeps and ReleaseKeeps) |
| GameRules.InputUpTo | game.go:319-331 | the input pass over the first lanes (stated by InputKeeps) |
| GameRules.ClampUnit | game.go:369-374 | the progress is clamped into [0, 1] and left alone inside it |
| GameRules.SustainAt | game.go:356-410 | the sustain step touches only its own note |
| GameRules.SustainAtKeeps | game.go:357-410 | the step keeps the note well formed, leaves judged notes alone, judges each note at most once and keeps the counters valid |
| GameRules.AutoCompleteFullBonus | game.go:381-400 | a note held to its end is judged with its stored judgment, progress 1 and the full 50-point bonus |
| GameRules.ReleasedEarlyMisses | game.go:401-409 | a note whose lane is up is judged Miss, the combo breaks and the score is unchanged |
| GameRules.SustainIgnoresUnheld | game.go:357-359 | notes that are not active, pressed and unjudged are skipped |
| GameRules.SustainUpTo | game.go:355-411 | the loop leaves the notes it has not reached unchanged (the rest is stated by SustainUpToKeeps) |
| GameRules.SustainUpToKeeps | game.go:354-411 | the whole sustain pass keeps notes well formed, judged notes unchanged, judgments and counters in balance, and counters valid |
| GameRules.SustainAll | game.go:354-411 | the sustain pass over every note (stated by SustainUpToKeeps) |
| GameRules.Overdue | game.go:567-572 | a note is overdue when it is active, unjudged and more than 0.2 s past its start (used by SweepAtKeeps and FrameLeavesNoOverdue) |
| GameRules.Swept | game.go:566-577 | an overdue note judged Miss, any other note left alone (stated by SweepAtKeeps and SweepUpToKeeps) |
| GameRules.SweepAt | game.go:566-577 | the sweep step keeps the number of notes (its effect is stated by SweepAtKeeps) |
| GameRules.SweepAtKeeps | game.go:566-577 | the step replaces only its note, by a Miss when it is overdue, and keeps balance and counters valid |
| GameRules.SweepUpTo | game.go:565-578 | the sweep loop keeps the number of notes (its effect is stated by SweepUpToKeeps) |
| GameRules.SweepUpToKeeps | game.go:564-579 | every visited note is swept and the rest unchanged; balance and valid counters are kept |
| GameRules.SweepAll | game.go:564-579 | the miss sweep over every note (stated by SweepUpToKeeps) |
| GameRules.SweepMissesHeldNotes | game.go:567-577 | a sustained note still held 0.2 s after its start is judged Miss and stays pressed |
| GameRules.FrameBoard | game.go:291-301 | one frame: InputAll, MoveAll, SustainAll and SweepAll, in that order (stated by FrameKeeps, FrameLeavesNoOverdue and FrameEndsWhenAllJudged) |
| GameRules.PressKeeps | game.go:419-446 | a key press keeps the note count, the balance, well-formed notes, valid counters and every earlier judgment |
| GameRules.ReleaseKeeps | game.go:449-490 | a key release keeps the same |
| GameRules.InputKeeps | game.go:317-332 | the input pass over the three lanes keeps the same |
| GameRules.FrameKeeps | game.go:291-301 | a whole frame keeps note count, balance, well-formed notes and valid counters, and never un-judges a note |
| GameRules.FrameLeavesNoOverdue | game.go:291-301 | after a frame no active unjudged note is more than 0.2 s late |
| GameRules.FrameEndsWhenAllJudged | game.go:303-314 | starting in balance, the counters reach the note total after a frame exactly when every note is judged |
| GameRules.LateFrameLeavesNoteUnjudged | game.go:291-301 | a frame more than 0.75 s after an unjudged note's start deactivates it in movement before the miss sweep, so the overdue note leaves play unjudged and no counter moves |
| ChartAdapter.EarliestUpTo | game.go:139-144 | the search result is at most 999999 and every start seen, and is either the sentinel or one of those starts |
| ChartAdapter.Earliest | game.go:138-144 | the search over the whole chart (its bounds are those of EarliestUpTo) |
| ChartAdapter.Shift | game.go:154 | a chart start moved so that the earliest note starts at 2 s (stated by FirstNoteAtLeadIn) |
| ChartAdapter.InWindow | game.go:154-159 | a note is kept when its shifted start is at most 30 s (stated by PickedMakesGameNotes and GameNotesComplete) |
| ChartAdapter.ClipDuration | game.go:161-166 | a clipped note ends by 30 s and is never lengthened |
| ChartAdapter.GameNotes | game.go:149-184 | the session list has at most as many notes as the chart (its contents are stated by PickedMakesGameNotes, GameNotesComplete and AdaptedNotesInWindow) |
| ChartAdapter.AudioNotes | game.go:195-208 | the synthesizer's list has at most as many notes as the chart (its contents are stated by AdaptedListsAligned) |
| ChartAdapter.PickedMakesGameNotes | game.go:152-184 | each session note is a chart note that starts inside the window, shifted by earliest minus 2 s and clipped, active and unjudged |
| ChartAdapter.PickedIncreasing | game.go:152-184 | the session notes come from the chart in chart order |
| ChartAdapter.GameNotesComplete | game.go:152-184 | no chart note that starts inside the window is dropped |
| ChartAdapter.AdaptedListsAligned | game.go:195-208 | the synthesizer's list has the same length as the session list, with the same start, duration and lane at each index |
| ChartAdapter.AdaptedNotesInWindow | game.go:152-176 | every session note starts between 2 s and 30 s and ends by 30 s, active, unjudged and unpressed; with lanes in range the list is well formed |
| ChartAdapter.AdaptedKeepsOrder | game.go:152-184 | a chart sorted by start gives a session list sorted by start |
| ChartAdapter.FirstNoteAtLeadIn | game.go:139-154 | the earliest chart note starts at exactly 2 s in the session |
| GameEngine.EarliestNoteTime | game.go:139-144 | the loop computes the earliest start (or 999999 for no notes) |
| GameEngine.AdaptNotes | game.go:149-184 | the loop computes the session list GameNotes |
| GameEngine.AdaptAudioNotes | game.go:195-208 | the loop computes the synthesizer list AudioNotes |
| GameEngine.Game.constructor | game.go:94-126 | a new game is in Menu with no notes and zero counters; its audio manager is initialized exactly when the speaker opened, not playing and without a stream |
| GameEngine.Game.LoadMidiTrack | game.go:129-217 | the processor is recorded; with no guitar track the error is returned and the session, the processor's tracks and guitarTrack and the stream are unchanged; otherwise the processor's first guitar track is selected as FindGuitarTrack does (IsGuitar set, lanes assigned, guitarTrack pointing at it), the notes are the adapted guitar notes, totalNotes is their count, songDuration is 30, and an initialized synthesizer gets the aligned audio list |
| GameEngine.Game.StartGame | game.go:220-247 | the game is Playing from now at time 0; the counters are zero; every note is active and unjudged but keeps its other fields; a ready, stopped synthesizer starts from sample 0, and one that is not ready or already playing keeps its flag, start time and stream |
| GameEngine.Game.ResetSession | game.go:220-236 | the session's own part of StartGame, leaving no note judged |
| GameEngine.Game.ResetCounters | game.go:224-230 | all seven counters are zero |
| GameEngine.Game.ResetNotes | game.go:233-236 | the reset loop applies ResetAll in place, leaving no note judged |
| GameEngine.Game.EndGame | game.go:260-269 | the game is over and the synthesizer stopped |
| GameEngine.Game.Update | game.go:272-305 | outside play nothing changes, the synthesizer's clock and flag included; in play the game clock is now minus the start and the synthesizer's clock advances as AudioManager.Update; past 30 s the game ends without judging; otherwise one frame of FrameBoard runs in the fixed phase order, the balance is kept, and the game ends exactly when the counters reach the note total (at once for a chart of no notes), stopping the synthesizer, which is otherwise left playing or stopped as it was |
| GameEngine.Game.JudgeFrame | game.go:291-304 | inside the song, one frame is FrameBoard and keeps the balance; the game ends, stopping the synthesizer, exactly when the counters reach the note total, which from a balanced start is exactly when every note is judged |
| GameEngine.Game.PlayFrame | game.go:291-301 | input, movement, sustains and the miss sweep, in that order, give FrameBoard |
| GameEngine.Game.CheckAllNotesProcessed | game.go:308-314 | the game ends exactly when the processed count reaches totalNotes, and otherwise nothing changes |
| GameEngine.Game.UpdateInput | game.go:317-332 | the lanes' pressed flags become the held keys, and presses and releases are handled lane by lane as InputAll |
| GameEngine.Game.UpdateNotes | game.go:335-351 | the loop moves the notes in place as MoveAll |
| GameEngine.Game.UpdateSustainedNotes | game.go:354-411 | the loop updates the notes in place as SustainAll |
| GameEngine.Game.SustainNoteAt | game.go:356-410 | one turn of the sustain loop is SustainAt |
| GameEngine.Game.HandleKeyPress | game.go:419-446 | a press is Press |
| GameEngine.Game.HandleKeyRelease | game.go:449-490 | a release is Release: at most one note, the first held one |
| GameEngine.Game.ReleaseNoteAt | game.go:458-488 | the body of the release loop on one note is ReleaseAt |
| GameEngine.Game.FindClosestNote | game.go:493-512 | the loop returns Closest, the first nearest eligible note |
| GameEngine.Game.AddScore | game.go:533-561 | the counters change as Scoring.AddScore |
| GameEngine.Game.CheckMissedNotes | game.go:564-579 | the loop sweeps the notes in place as SweepAll |
| GameEngine.Game.SweepNoteAt | game.go:566-577 | one turn of the sweep loop is SweepAt |
| GameEngine.Game.PressSpace | main.go:58-68 | Space starts a game from the menu as StartGame (clock at 0, synthesizer started when ready and stopped); while playing it changes nothing; after a game it returns to the menu; outside the menu the notes, counters, clocks and synthesizer are untouched |
| Audio.Sounding | audio_manager.go:211-213 | a note sounds from its start, included, to its end, excluded (used by Contribute and SilentNotesIgnored) |
| Audio.Envelope | audio_manager.go:223-231 | the fade factor lies in [0, 1] and is 1 at least 50 ms from both ends |
| Audio.TestTone | audio_manager.go:197-205 | the test tone counts as one active note exactly during the first 2 s |
| Audio.Contribute | audio_manager.go:209-255 | a note adds to the active count exactly when start <= t < end, and a silent note changes nothing |
| Audio.NoteSample | audio_manager.go:215-233 | amplitude 0.2 times the envelope times the oscillator (its envelope is stated by Envelope) |
| Audio.Share | audio_manager.go:235-238 | the sample divided by the running count once it exceeds one (stated by RunningDivisorExample) |
| Audio.Pan | audio_manager.go:240-254 | each sounding note adds one to the running count |
| Audio.PanSymmetric | audio_manager.go:240-254 | lanes 0 and 2 are mirror images, lane 1 is centred, lanes 0 to 2 put 1.2 times the sample into the two channels together, and any other lane splits it 0.5/0.5 |
| Audio.Clip | audio_manager.go:264-275 | a channel is cut to [-1, 1] and left alone inside it |
| Audio.MixPrefix | audio_manager.go:195-255 | the test tone then each note in order (stated by MixCount and SilentNotesIgnored) |
| Audio.Synthesized | audio_manager.go:193-278 | both channels of a synthesized frame lie in [-1, 1] |
| Audio.SoundingAt | audio_manager.go:207-213 | the notes sounding at a time, at most as many as there are notes, each one a sounding note of the list (used by MixCount) |
| Audio.SilentNotesIgnored | audio_manager.go:207-213 | the mix over all notes equals the mix over the sounding notes alone |
| Audio.MixCount | audio_manager.go:195-214 | the final divisor counts the test tone and every sounding note |
| Audio.RunningDivisorExample | audio_manager.go:235-238 | each note is divided by the count so far, not the total: two equal centre notes give 0.12 + 0.06 |
| Audio.ClampVolume | audio_manager.go:130-137 | a volume is clamped to [0, 1] and left alone inside it |
| Audio.ClampVolumeIdempotent | audio_manager.go:130-137 | clamping twice is clamping once |
| Audio.MixNote | audio_manager.go:209-255 | one turn of the synthesis loop is Contribute |
| Audio.Fade | audio_manager.go:223-231 | the envelope computation is Envelope |
| Audio.PanSample | audio_manager.go:240-254 | the lane switch is Pan |
| Audio.MidiAudioStreamer.constructor | audio_manager.go:62-65 | a new stream holds the notes at 44100 Hz, at sample 0 and not started |
| Audio.MidiAudioStreamer.SynthesizeAtTime | audio_manager.go:193-278 | the frame is Synthesized, and both channels lie in [-1, 1] |
| Audio.MidiAudioStreamer.Stream | audio_manager.go:151-185 | without a start time nothing is written and (0, false) is returned; otherwise every frame i is the synthesis at now - start + i/44100, (len, true) is returned and the sample counter grows by len |
| Audio.AudioManager.constructor | audio_manager.go:36-41 | a new manager has 44100 Hz, volume 1, and is not initialized, not playing and without a stream |
| Audio.AudioManager.Initialize | audio_manager.go:44-54 | initialization fails exactly when the speaker does not open, and sets the flag otherwise |
| Audio.AudioManager.LoadMidiTrack | audio_manager.go:57-69 | an uninitialized manager fails and keeps its stream; otherwise a fresh stream over the notes replaces it |
| Audio.AudioManager.StartPlayback | audio_manager.go:72-106 | fails exactly when uninitialized or without a stream; already playing changes nothing; otherwise playing starts now and the stream restarts from sample 0 |
| Audio.AudioManager.StopPlayback | audio_manager.go:109-115 | afterwards playback is stopped, whether or not it was playing |
| Audio.AudioManager.Update | audio_manager.go:118-122 | the playback time moves only while playing with a start time set |
| Audio.AudioManager.SetVolume | audio_manager.go:130-137 | the stored volume is the argument clamped to [0, 1] |
| Audio.AudioManager.Cleanup | audio_manager.go:145-148 | afterwards playback is stopped |

## Left out

- File access. `os.ReadFile` (simple_midi_parser.go:26), `os.Stat` and `filepath.Abs` (midi_processor.go:46-56) are not modelled. The parser receives the file's bytes, and `LoadMidi` receives a `FileState` (missing, unreadable, or its bytes) and the result of `filepath.Abs` as an `Option<string>`, `None` when it fails.
- MidiParser.SimpleMidiParser.ParseFile, MidiProcessing.MidiProcessor.ParseMidiFile and MidiProcessing.MidiProcessor.LoadMidi require a non-zero division in the header of a readable file. With division 0, Go's `ticksToSeconds` divides by zero in float64 and gives Inf or NaN times, which reals cannot express.
- A declared track length past the end of the data is where the Go runtime panics. The model reports this as the outcome `IndexOutOfRange`, and `LoadMidi` as `ParserPanic`. It is not a process crash.
- `case 0xFF` of the event switch can never match `status & 0xF0`, so the tempo never changes. That branch and the tempo update are not written. Status bytes 0xF0 to 0xFF fall through to the default branch, which skips nothing.
- MidiParser.EmitOpenNotes walks the open pitches in ascending order. That is one of the orders Go's map iteration may produce. Its contract, and ParseTrack's, states only the multiset of the tail, so any order is allowed.
- `mp.guitarTrack` is a pointer into the track slice in Go; the model keeps an index. `createTestData` points it at `tracks[0]`, which need not be the track it appended; the index is kept exactly as Go sets it.
- Number widths. Go's int32 counters and int sizes are unbounded integers. Float64 and float32 times, screen Y and the `int32(...)` conversions are exact reals. The bonus truncation is a floor, because the progress is positive there.
- Waveforms. `math.Sin`, `math.Pow`, `midiToFrequency` and the phase arithmetic are replaced by the bounded `Oscillator` parameter. The test tone is the oscillator at pitch 69.
- The speaker library, the `beep` volume and control wrappers, and the concurrency between the audio callback and the game loop are not modelled. `speaker.Clear` is the flag update alone.
- Clocks. `time.Now` and `time.Since` are `now` parameters. A zero `time.Time` is `startTime == None`.
- All `fmt.Printf` output is not modelled, including the periodic active-note counts in `Stream` and `synthesizeAtTime`.
- `GetCurrentTime`, `IsPlaying` of the audio manager, `Err` and the unused `testMode` field are not modelled. The first three only return a field or nil.
- Display-only data is not modelled: note width and height, lane X, width and key code, and screen width. `updateNotes`' `deltaTime` and `LoadMIDITrack`'s `maxTime` are computed but never used by the Go code.
- GameEngine.Game.FindClosestNote returns the index of the note (an `Option<nat>`), not a pointer.
- The renderer, the window loop of main.go (apart from the Space transitions, modelled as PressSpace) and the diagnostic note dump are not part of this model.
- Several loop bodies and sub-steps are separate methods. They are MixNote, Fade, PanSample, SustainNoteAt, SweepNoteAt, ReleaseNoteAt, ResetNotes, ResetCounters, ResetSession, JudgeFrame, PlayFrame, EarliestNoteTime, AdaptNotes, AdaptAudioNotes and ReadEvent/HandleEvent. Each computes exactly what the inlined Go code does.
- GameEngine.Game.HandleKeyRelease: Go's `break` after the first held note is a `return` from the method.
