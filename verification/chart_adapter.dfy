/**
 * The chart-to-session adapter of Game.LoadMIDITrack as functions on values:
 * notes are shifted so that the earliest starts at 2 s, notes starting after
 * the 30 s window are dropped, and durations are clipped to the window. The
 * notes handed to the synthesizer go through the same test, so the two lists
 * line up index for index.
 */
module ChartAdapter {
  import opened Notes
  import opened Scoring
  import opened GameRules

  /** Length of a session, in seconds. */
  const GameDuration: real := 30.0
  /** Time before the first note, in seconds. */
  const LeadIn: real := 2.0
  /** Starting value of the earliest-note search. */
  const NoEarliest: real := 999999.0

  /** The earliest-note search over the first `k` notes. */
  function EarliestUpTo(notes: seq<MidiNote>, k: nat): (e: real)
    requires k <= |notes|
    ensures e <= NoEarliest
    ensures forall j :: 0 <= j < k ==> e <= notes[j].startTime
    ensures e == NoEarliest || exists j :: 0 <= j < k && e == notes[j].startTime
  {
    if k == 0 then NoEarliest
    else
      var e := EarliestUpTo(notes, k - 1);
      if notes[k - 1].startTime < e then notes[k - 1].startTime else e
  }

  function Earliest(notes: seq<MidiNote>): real
  {
    EarliestUpTo(notes, |notes|)
  }

  /** Start time on the session clock. */
  function Shift(start: real, earliest: real): real
  {
    start - earliest + LeadIn
  }

  /** Whether a note starts inside the session window (it is dropped otherwise). */
  predicate InWindow(n: MidiNote, earliest: real)
  {
    Shift(n.startTime, earliest) <= GameDuration
  }

  /** A duration cut so that the note ends by the end of the window. */
  function ClipDuration(start: real, duration: real): (d: real)
    ensures start + d <= GameDuration
    ensures d <= duration
  {
    if start + duration > GameDuration then GameDuration - start else duration
  }

  /** The session note made from a chart note: shifted, clipped, active and unjudged. */
  function ToGameNote(n: MidiNote, earliest: real): GameNote
  {
    var start := Shift(n.startTime, earliest);
    GameNote(start, ClipDuration(start, n.duration), n.lane, 0.0, true, false, Miss, false, 0.0, false, 0.0)
  }

  /** The note handed to the synthesizer: the chart note, shifted and clipped. */
  function ToAudioNote(n: MidiNote, earliest: real): MidiNote
  {
    var start := Shift(n.startTime, earliest);
    n.(startTime := start, duration := ClipDuration(start, n.duration))
  }

  function GameNotes(notes: seq<MidiNote>, earliest: real): (r: seq<GameNote>)
    ensures |r| <= |notes|
  {
    if notes == [] then []
    else
      var rest := GameNotes(notes[..|notes| - 1], earliest);
      var n := notes[|notes| - 1];
      if InWindow(n, earliest) then rest + [ToGameNote(n, earliest)] else rest
  }

  function AudioNotes(notes: seq<MidiNote>, earliest: real): (r: seq<MidiNote>)
    ensures |r| <= |notes|
  {
    if notes == [] then []
    else
      var rest := AudioNotes(notes[..|notes| - 1], earliest);
      var n := notes[|notes| - 1];
      if InWindow(n, earliest) then rest + [ToAudioNote(n, earliest)] else rest
  }

  /** Indices of the chart notes that enter the session, in chart order. */
  function Picked(notes: seq<MidiNote>, earliest: real): (idx: seq<nat>)
    ensures |idx| == |GameNotes(notes, earliest)|
    ensures forall i :: 0 <= i < |idx| ==> idx[i] < |notes|
  {
    if notes == [] then []
    else
      var rest := Picked(notes[..|notes| - 1], earliest);
      if InWindow(notes[|notes| - 1], earliest) then rest + [|notes| - 1] else rest
  }

  /** Each session note is the image under ToGameNote of the in-window chart note it was picked from. */
  lemma {:induction false} PickedMakesGameNotes(notes: seq<MidiNote>, earliest: real)
    ensures forall i :: 0 <= i < |Picked(notes, earliest)| ==>
      InWindow(notes[Picked(notes, earliest)[i]], earliest) &&
      GameNotes(notes, earliest)[i] == ToGameNote(notes[Picked(notes, earliest)[i]], earliest)
  {
    if notes != [] {
      var last := |notes| - 1;
      var init := notes[..last];
      PickedMakesGameNotes(init, earliest);
      var rest := Picked(init, earliest);
      var restG := GameNotes(init, earliest);
      var idx := Picked(notes, earliest);
      var g := GameNotes(notes, earliest);
      if InWindow(notes[last], earliest) {
        assert idx == rest + [last] && g == restG + [ToGameNote(notes[last], earliest)];
      } else {
        assert idx == rest && g == restG;
      }
      forall i | 0 <= i < |idx|
        ensures InWindow(notes[idx[i]], earliest) && g[i] == ToGameNote(notes[idx[i]], earliest)
      {
        if i < |rest| {
          assert idx[i] == rest[i] && g[i] == restG[i];
          assert init[rest[i]] == notes[rest[i]];
        } else {
          assert i == |rest| && idx[i] == last;
        }
      }
    }
  }

  /** The picked indices increase: the session list keeps the chart's order. */
  lemma {:induction false} PickedIncreasing(notes: seq<MidiNote>, earliest: real)
    ensures forall i, j :: 0 <= i < j < |Picked(notes, earliest)| ==> Picked(notes, earliest)[i] < Picked(notes, earliest)[j]
  {
    if notes != [] {
      PickedIncreasing(notes[..|notes| - 1], earliest);
    }
  }

  /** No in-window chart note is lost. */
  lemma {:induction false} GameNotesComplete(notes: seq<MidiNote>, earliest: real)
    ensures forall n :: n in notes && InWindow(n, earliest) ==> ToGameNote(n, earliest) in GameNotes(notes, earliest)
  {
    if notes != [] {
      var last := |notes| - 1;
      var init := notes[..last];
      GameNotesComplete(init, earliest);
      assert notes == init + [notes[last]];
    }
  }

  /** The session list and the synthesizer list line up index for index. */
  lemma {:induction false} AdaptedListsAligned(notes: seq<MidiNote>, earliest: real)
    ensures var g := GameNotes(notes, earliest); var a := AudioNotes(notes, earliest);
      |g| == |a| &&
      forall i :: 0 <= i < |g| ==>
        g[i].startTime == a[i].startTime && g[i].duration == a[i].duration && g[i].lane == a[i].lane
  {
    if notes != [] {
      AdaptedListsAligned(notes[..|notes| - 1], earliest);
    }
  }

  /**
   * Measured from the earliest note, every session note starts between 2 s
   * and 30 s, ends by 30 s, and starts active, unjudged and unpressed; with
   * lanes in range the list is well formed.
   */
  lemma {:induction false} AdaptedNotesInWindow(notes: seq<MidiNote>)
    ensures var g := GameNotes(notes, Earliest(notes));
      forall i :: 0 <= i < |g| ==>
        LeadIn <= g[i].startTime <= GameDuration && g[i].startTime + g[i].duration <= GameDuration &&
        g[i].isActive && !g[i].isHit && !g[i].isPressed
    ensures (forall i :: 0 <= i < |notes| ==> 0 <= notes[i].lane < LaneCount) ==>
      AllWellFormed(GameNotes(notes, Earliest(notes)))
  {
    var e := Earliest(notes);
    var g := GameNotes(notes, e);
    PickedMakesGameNotes(notes, e);
    var idx := Picked(notes, e);
    forall i | 0 <= i < |g|
      ensures LeadIn <= g[i].startTime
    {
      assert e <= notes[idx[i]].startTime;
    }
  }

  /** Shifting keeps the chart's order: a chart sorted by start time gives a session list sorted by start time. */
  lemma AdaptedKeepsOrder(notes: seq<MidiNote>, earliest: real)
    requires forall i, j :: 0 <= i < j < |notes| ==> notes[i].startTime <= notes[j].startTime
    ensures var g := GameNotes(notes, earliest);
      forall i, j :: 0 <= i < j < |g| ==> g[i].startTime <= g[j].startTime
  {
    PickedMakesGameNotes(notes, earliest);
    PickedIncreasing(notes, earliest);
  }

  /** The earliest chart note lands exactly at the lead-in time (unless every start is past the sentinel). */
  lemma FirstNoteAtLeadIn(notes: seq<MidiNote>)
    requires Earliest(notes) < NoEarliest
    ensures exists i :: 0 <= i < |GameNotes(notes, Earliest(notes))| &&
                        GameNotes(notes, Earliest(notes))[i].startTime == LeadIn
  {
    var e := Earliest(notes);
    var j :| 0 <= j < |notes| && e == notes[j].startTime;
    GameNotesComplete(notes, e);
    assert InWindow(notes[j], e);
    assert notes[j] in notes;
    var g := ToGameNote(notes[j], e);
    assert g in GameNotes(notes, e);
  }
}
