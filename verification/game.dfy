/**
 * The Game object: a play session whose methods update its fields in place,
 * each proved against the rules of module GameRules and ChartAdapter.
 *
 * The wall clock is the `now` argument of StartGame and Update (the Go code
 * reads time.Now and time.Since), and key polling is a `Keys` value per frame.
 * The three lanes keep only their pressed flag; their screen position, width
 * and key code are display data.
 */
module GameEngine {
  import opened Notes
  import opened Scoring
  import opened GameRules
  import opened ChartAdapter
  import MidiProcessing
  import Audio

  datatype GameState = Menu | Playing | GameOver

  /** The earliest-start search of LoadMIDITrack. */
  method EarliestNoteTime(notes: seq<MidiNote>) returns (earliestNoteTime: real)
    ensures earliestNoteTime == Earliest(notes)
  {
    earliestNoteTime := NoEarliest;
    for i := 0 to |notes|
      invariant earliestNoteTime == EarliestUpTo(notes, i)
    {
      if notes[i].startTime < earliestNoteTime {
        earliestNoteTime := notes[i].startTime;
      }
    }
  }

  /** LoadMIDITrack's conversion loop: in-window chart notes, shifted and clipped, as session notes. */
  method AdaptNotes(notes: seq<MidiNote>, earliestNoteTime: real) returns (adapted: seq<GameNote>)
    ensures adapted == GameNotes(notes, earliestNoteTime)
  {
    adapted := [];
    for i := 0 to |notes|
      invariant adapted == GameNotes(notes[..i], earliestNoteTime)
    {
      assert notes[..i + 1][..i] == notes[..i];
      var midiNote := notes[i];
      var adjustedStartTime := midiNote.startTime - earliestNoteTime + LeadIn;
      if adjustedStartTime > GameDuration {
        continue;
      }
      var adjustedDuration := midiNote.duration;
      var noteEndTime := adjustedStartTime + adjustedDuration;
      if noteEndTime > GameDuration {
        adjustedDuration := GameDuration - adjustedStartTime;
      }
      adapted := adapted + [GameNote(adjustedStartTime, adjustedDuration, midiNote.lane, 0.0,
                                     true, false, Miss, false, 0.0, false, 0.0)];
    }
    assert notes[..|notes|] == notes;
  }

  /** LoadMIDITrack's second loop: the same notes, shifted and clipped, for the synthesizer. */
  method AdaptAudioNotes(notes: seq<MidiNote>, earliestNoteTime: real) returns (audioNotes: seq<MidiNote>)
    ensures audioNotes == AudioNotes(notes, earliestNoteTime)
  {
    audioNotes := [];
    for i := 0 to |notes|
      invariant audioNotes == AudioNotes(notes[..i], earliestNoteTime)
    {
      assert notes[..i + 1][..i] == notes[..i];
      var adjustedNote := notes[i].(startTime := notes[i].startTime - earliestNoteTime + LeadIn);
      if adjustedNote.startTime <= GameDuration {
        if adjustedNote.startTime + adjustedNote.duration > GameDuration {
          adjustedNote := adjustedNote.(duration := GameDuration - adjustedNote.startTime);
        }
        audioNotes := audioNotes + [adjustedNote];
      }
    }
    assert notes[..|notes|] == notes;
  }

  class Game {
    var midiProcessor: MidiProcessing.MidiProcessor?
    /** NewGame always creates the audio manager, so it is never nil. */
    const audioManager: Audio.AudioManager
    var gameNotes: seq<GameNote>
    var score: int
    var combo: int
    var maxCombo: int
    var state: GameState
    var gameStartTime: real
    var currentTime: real
    var songDuration: real
    /** IsPressed of the three lanes. */
    var lanes: seq<bool>
    var perfectHits: int
    var goodHits: int
    var okHits: int
    var missedHits: int
    var totalNotes: int

    /** The score counters as one value. */
    function Stats(): Stats
      reads this
    {
      Scoring.Stats(score, combo, maxCombo, perfectHits, goodHits, okHits, missedHits)
    }

    /** The part of the session a frame updates. */
    function Board(): Board
      reads this
    {
      GameRules.Board(gameNotes, Stats())
    }

    /** Three lanes, well-formed notes and counters, and a note total equal to the note count. */
    predicate Valid()
      reads this
    {
      |lanes| == LaneCount && BoardOk(Board()) && totalNotes == |gameNotes|
    }

    /** NewGame, given whether the speaker could be opened (a failure is only a warning). */
    constructor (speakerOk: bool)
      ensures Valid()
      ensures state == Menu && gameNotes == [] && Stats() == NoStats && totalNotes == 0 && songDuration == 0.0
      ensures midiProcessor == null && fresh(audioManager)
      ensures audioManager.isInitialized == speakerOk && !audioManager.isPlaying && audioManager.musicStream == null
    {
      var manager := new Audio.AudioManager();
      var _ := manager.Initialize(speakerOk);
      audioManager := manager;
      midiProcessor := null;
      gameNotes := [];
      score, combo, maxCombo := 0, 0, 0;
      state := Menu;
      gameStartTime := 0.0;
      currentTime := 0.0;
      songDuration := 0.0;
      lanes := [false, false, false];
      perfectHits, goodHits, okHits, missedHits, totalNotes := 0, 0, 0, 0, 0;
    }

    /**
     * LoadMIDITrack: take the processor's guitar track, shift and clip it into
     * the session's notes, and hand the same notes to the synthesizer.
     */
    method LoadMidiTrack(processor: MidiProcessing.MidiProcessor) returns (err: Option<MidiProcessing.FindError>)
      requires Valid()
      modifies this`midiProcessor, this`gameNotes, this`songDuration, this`totalNotes
      modifies processor`tracks, processor`guitarTrack, audioManager`musicStream
      ensures Valid() && midiProcessor == processor
      ensures match MidiProcessing.FirstGuitar(old(processor.tracks))
        case None =>
          err.Some? && gameNotes == old(gameNotes) && totalNotes == old(totalNotes) &&
          processor.tracks == old(processor.tracks) && processor.guitarTrack == old(processor.guitarTrack) &&
          songDuration == old(songDuration) && audioManager.musicStream == old(audioManager.musicStream)
        case Some(i) =>
          var chart := MidiProcessing.Selected(old(processor.tracks)[i]).notes;
          processor.tracks == old(processor.tracks)[i := MidiProcessing.Selected(old(processor.tracks)[i])] &&
          processor.guitarTrack == Some(i) &&
          err.None? && gameNotes == GameNotes(chart, Earliest(chart)) && totalNotes == |gameNotes| &&
          songDuration == GameDuration &&
          (audioManager.isInitialized ==>
             audioManager.musicStream != null && fresh(audioManager.musicStream) &&
             audioManager.musicStream.notes == AudioNotes(chart, Earliest(chart))) &&
          (!audioManager.isInitialized ==> audioManager.musicStream == old(audioManager.musicStream))
    {
      midiProcessor := processor;
      var found := processor.FindGuitarTrack();
      if found.Failure? {
        return Some(found.error);
      }
      var notes := found.value.notes;
      var earliestNoteTime := EarliestNoteTime(notes);
      var adapted := AdaptNotes(notes, earliestNoteTime);
      AdaptedNotesInWindow(notes);
      gameNotes := adapted;
      songDuration := GameDuration;
      totalNotes := |gameNotes|;
      var audioNotes := AdaptAudioNotes(notes, earliestNoteTime);
      var _ := audioManager.LoadMidiTrack(audioNotes);
      return None;
    }

    /**
     * StartGame: playing from `now`, counters cleared, every note active and
     * unjudged again (pressed flags, judgments and progress are kept), and
     * the synthesizer started.
     */
    method StartGame(now: real)
      requires Valid()
      modifies this`state, this`gameStartTime, this`currentTime, this`gameNotes
      modifies this`score, this`combo, this`maxCombo, this`perfectHits, this`goodHits, this`okHits, this`missedHits
      modifies audioManager`isPlaying, audioManager`startTime, audioManager.musicStream
      ensures Valid()
      ensures state == Playing && gameStartTime == now && currentTime == 0.0
      ensures Stats() == NoStats && gameNotes == ResetAll(old(gameNotes)) && Balance(Board()) == 0
      ensures audioManager.isInitialized && audioManager.musicStream != null && !old(audioManager.isPlaying) ==>
                audioManager.isPlaying && audioManager.startTime == Some(now) &&
                audioManager.musicStream.startTime == Some(now) && audioManager.musicStream.currentSample == 0
      ensures !(audioManager.isInitialized && audioManager.musicStream != null && !old(audioManager.isPlaying)) ==>
                audioManager.isPlaying == old(audioManager.isPlaying) && audioManager.startTime == old(audioManager.startTime) &&
                (audioManager.musicStream != null ==> unchanged(audioManager.musicStream))
    {
      ResetSession(now);
      var _ := audioManager.StartPlayback(now);
    }

    /** The part of StartGame on the session's own fields. */
    method ResetSession(now: real)
      requires Valid()
      modifies this`state, this`gameStartTime, this`currentTime, this`gameNotes
      modifies this`score, this`combo, this`maxCombo, this`perfectHits, this`goodHits, this`okHits, this`missedHits
      ensures Valid()
      ensures state == Playing && gameStartTime == now && currentTime == 0.0
      ensures Stats() == NoStats && gameNotes == ResetAll(old(gameNotes)) && Resolved(gameNotes) == 0
    {
      state := Playing;
      gameStartTime := now;
      currentTime := 0.0;
      ResetCounters();
      ResetNotes();
    }

    /** StartGame's reset of the score counters. */
    method ResetCounters()
      modifies this`score, this`combo, this`maxCombo, this`perfectHits, this`goodHits, this`okHits, this`missedHits
      ensures Stats() == NoStats
    {
      score := 0;
      combo := 0;
      maxCombo := 0;
      perfectHits := 0;
      goodHits := 0;
      okHits := 0;
      missedHits := 0;
    }

    /** StartGame's loop over the notes: active again and unjudged. */
    method ResetNotes()
      modifies this`gameNotes
      ensures gameNotes == ResetAll(old(gameNotes)) && Resolved(gameNotes) == 0
      ensures AllWellFormed(old(gameNotes)) ==> AllWellFormed(gameNotes)
    {
      ResetAllUnresolved(gameNotes);
      for i := 0 to |gameNotes|
        invariant |gameNotes| == |old(gameNotes)|
        invariant forall j :: 0 <= j < i ==> gameNotes[j] == ResetNote(old(gameNotes)[j])
        invariant forall j :: i <= j < |gameNotes| ==> gameNotes[j] == old(gameNotes)[j]
      {
        gameNotes := gameNotes[i := gameNotes[i].(isActive := true, isHit := false)];
      }
    }

    /** IsPlaying */
    predicate IsPlaying()
      reads this
    {
      state == Playing
    }

    /** IsGameOver */
    predicate IsGameOver()
      reads this
    {
      state == GameOver
    }

    /** EndGame: game over and the synthesizer stopped. */
    method EndGame()
      modifies this`state, audioManager`isPlaying
      ensures state == GameOver && !audioManager.isPlaying
    {
      state := GameOver;
      audioManager.StopPlayback();
    }

    /**
     * Update for one frame at time `now`. Outside play it does nothing. Past
     * the song's end it ends the game without judging anything. Otherwise it
     * runs input, movement, sustains, the miss sweep and the end check, in
     * that order.
     */
    method Update(now: real, keys: Keys)
      requires Valid() && KeysOk(keys)
      modifies this`currentTime, this`state, this`gameNotes, this`lanes
      modifies this`score, this`combo, this`maxCombo, this`perfectHits, this`goodHits, this`okHits, this`missedHits
      modifies audioManager`currentTime, audioManager`isPlaying
      ensures Valid() && Balance(Board()) == old(Balance(Board()))
      ensures old(state) != Playing ==>
        state == old(state) && Board() == old(Board()) && lanes == old(lanes) && currentTime == old(currentTime)
      ensures old(state) != Playing ==>
        audioManager.currentTime == old(audioManager.currentTime) && audioManager.isPlaying == old(audioManager.isPlaying)
      ensures old(state) == Playing ==> currentTime == now - gameStartTime
      ensures old(state) == Playing ==>
        audioManager.currentTime ==
          if old(audioManager.isPlaying) && audioManager.startTime.Some? then now - audioManager.startTime.value
          else old(audioManager.currentTime)
      ensures old(state) == Playing && currentTime > songDuration ==>
        state == GameOver && !audioManager.isPlaying && Board() == old(Board()) && lanes == old(lanes)
      ensures old(state) == Playing && currentTime <= songDuration ==>
        Board() == FrameBoard(old(Board()), keys, currentTime) && lanes == keys.down &&
        (state == GameOver <==> Processed(Stats()) >= totalNotes) &&
        (state == GameOver ==> !audioManager.isPlaying) &&
        (state != GameOver ==> state == Playing && audioManager.isPlaying == old(audioManager.isPlaying))
      ensures old(state) == Playing && currentTime <= songDuration && old(Balance(Board())) == 0 ==>
        (state == GameOver <==> forall j :: 0 <= j < |gameNotes| ==> gameNotes[j].isHit)
      ensures old(state) == Playing && totalNotes == 0 ==> state == GameOver
    {
      if !IsPlaying() {
        return;
      }
      currentTime := now - gameStartTime;
      audioManager.Update(now);
      if currentTime > songDuration {
        EndGame();
        return;
      }
      JudgeFrame(keys);
    }

    /** The part of Update inside the song: one frame of play, then the end check. */
    method JudgeFrame(keys: Keys)
      requires Valid() && KeysOk(keys) && state == Playing
      modifies this`state, this`gameNotes, this`lanes
      modifies this`score, this`combo, this`maxCombo, this`perfectHits, this`goodHits, this`okHits, this`missedHits
      modifies audioManager`isPlaying
      ensures Valid() && Balance(Board()) == old(Balance(Board()))
      ensures Board() == FrameBoard(old(Board()), keys, currentTime) && lanes == keys.down
      ensures state == GameOver <==> Processed(Stats()) >= totalNotes
      ensures state == GameOver ==> !audioManager.isPlaying
      ensures state != GameOver ==> state == Playing && audioManager.isPlaying == old(audioManager.isPlaying)
      ensures old(Balance(Board())) == 0 ==>
        (state == GameOver <==> forall j :: 0 <= j < |gameNotes| ==> gameNotes[j].isHit)
    {
      ghost var before := Board();
      FrameKeeps(before, keys, currentTime);
      if Balance(before) == 0 {
        FrameEndsWhenAllJudged(before, keys, currentTime, totalNotes);
      }
      PlayFrame(keys);
      CheckAllNotesProcessed();
    }

    /** The judging part of Update: input, movement, sustains and the miss sweep, in that order. */
    method PlayFrame(keys: Keys)
      requires Valid() && KeysOk(keys)
      modifies this`gameNotes, this`lanes
      modifies this`score, this`combo, this`maxCombo, this`perfectHits, this`goodHits, this`okHits, this`missedHits
      ensures Board() == FrameBoard(old(Board()), keys, currentTime) && lanes == keys.down
    {
      InputKeeps(Board(), keys, currentTime, LaneCount);
      UpdateInput(keys);
      MoveAllKeeps(gameNotes, currentTime);
      UpdateNotes();
      UpdateSustainedNotes();
      CheckMissedNotes();
    }

    /** checkAllNotesProcessed: the game ends once the judged count reaches the note total. */
    method CheckAllNotesProcessed()
      modifies this`state, audioManager`isPlaying
      ensures Processed(Stats()) >= totalNotes ==> state == GameOver && !audioManager.isPlaying
      ensures Processed(Stats()) < totalNotes ==> state == old(state) && audioManager.isPlaying == old(audioManager.isPlaying)
    {
      var processedNotes := perfectHits + goodHits + okHits + missedHits;
      if processedNotes >= totalNotes {
        EndGame();
      }
    }

    /** updateInput: per lane in order, record the key state, then handle a press, then a release. */
    method UpdateInput(keys: Keys)
      requires KeysOk(keys) && |lanes| == LaneCount
      modifies this`lanes, this`gameNotes
      modifies this`score, this`combo, this`maxCombo, this`perfectHits, this`goodHits, this`okHits, this`missedHits
      ensures lanes == keys.down
      ensures Board() == InputAll(old(Board()), keys, currentTime)
    {
      for i := 0 to LaneCount
        invariant |lanes| == LaneCount
        invariant forall j :: 0 <= j < i ==> lanes[j] == keys.down[j]
        invariant Board() == InputUpTo(old(Board()), keys, currentTime, i)
      {
        lanes := lanes[i := keys.down[i]];
        if keys.pressed[i] {
          HandleKeyPress(i);
        }
        if keys.released[i] {
          HandleKeyRelease(i);
        }
      }
    }

    /** updateNotes: every active note is placed by its time to hit and dropped once off screen. */
    method UpdateNotes()
      modifies this`gameNotes
      ensures gameNotes == MoveAll(old(gameNotes), currentTime)
    {
      for i := 0 to |gameNotes|
        invariant |gameNotes| == |old(gameNotes)|
        invariant forall j :: 0 <= j < i ==> gameNotes[j] == MoveNote(old(gameNotes)[j], currentTime)
        invariant forall j :: i <= j < |gameNotes| ==> gameNotes[j] == old(gameNotes)[j]
      {
        var note := gameNotes[i];
        if !note.isActive {
          continue;
        }
        var timeUntilHit := note.startTime - currentTime;
        note := note.(y := HitLineY - timeUntilHit * NoteSpeed);
        if note.y > ScreenHeight + OffscreenMargin {
          note := note.(isActive := false);
        }
        gameNotes := gameNotes[i := note];
      }
    }

    /** updateSustainedNotes: progress, completion or early release of every held note. */
    method UpdateSustainedNotes()
      requires |lanes| == LaneCount && AllWellFormed(gameNotes)
      modifies this`gameNotes
      modifies this`score, this`combo, this`maxCombo, this`perfectHits, this`goodHits, this`okHits, this`missedHits
      ensures Board() == SustainAll(old(Board()), lanes, currentTime)
    {
      for i := 0 to |gameNotes|
        invariant Board() == SustainUpTo(old(Board()), lanes, currentTime, i)
      {
        SustainNoteAt(i);
      }
    }

    /** The body of updateSustainedNotes' loop, for the note at `i`. */
    method SustainNoteAt(i: nat)
      requires i < |gameNotes| && |lanes| == LaneCount && WellFormed(gameNotes[i])
      modifies this`gameNotes
      modifies this`score, this`combo, this`maxCombo, this`perfectHits, this`goodHits, this`okHits, this`missedHits
      ensures Board() == SustainAt(old(Board()), i, lanes, currentTime)
    {
      var note := gameNotes[i];
      if !note.isActive || !note.isPressed || note.isHit {
        return;
      }
      var lanePressed := lanes[note.lane];
      if lanePressed {
        var noteElapsed := currentTime - note.startTime;
        var progress := noteElapsed / note.duration;
        if progress < 0.0 {
          progress := 0.0;
        } else if progress > 1.0 {
          progress := 1.0;
        }
        note := note.(sustainProgress := progress, isBeingHeld := true);
        var noteEndTime := note.startTime + note.duration;
        if currentTime >= noteEndTime {
          note := note.(isPressed := false, isBeingHeld := false, isHit := true);
          gameNotes := gameNotes[i := note];
          AddScore(note.hitAccuracy);
          if note.sustainProgress > BonusThreshold {
            var bonusPoints := (FullBonus as real * note.sustainProgress).Floor;
            score := score + bonusPoints;
          }
        } else {
          gameNotes := gameNotes[i := note];
        }
      } else {
        note := note.(isPressed := false, isBeingHeld := false, isHit := true, hitAccuracy := Miss);
        gameNotes := gameNotes[i := note];
        AddScore(Miss);
      }
    }

    /** handleKeyPress: judge the closest note of the lane at its start. */
    method HandleKeyPress(laneIndex: int)
      modifies this`gameNotes
      modifies this`score, this`combo, this`maxCombo, this`perfectHits, this`goodHits, this`okHits, this`missedHits
      ensures Board() == Press(old(Board()), laneIndex, currentTime)
    {
      var closestNote := FindClosestNote(laneIndex);
      if closestNote.None? {
        return;
      }
      var i := closestNote.value;
      var note := gameNotes[i];
      var timeDiff := currentTime - note.startTime;
      var accuracy := CalculateAccuracy(timeDiff);
      if accuracy != Miss {
        if IsSustained(note) {
          gameNotes := gameNotes[i := note.(isPressed := true, pressStartTime := currentTime,
                                            isBeingHeld := true, hitAccuracy := accuracy)];
        } else {
          gameNotes := gameNotes[i := note.(isHit := true, hitAccuracy := accuracy)];
          AddScore(accuracy);
        }
      }
    }

    /**
     * handleKeyRelease: complete the first held note of the lane. The Go loop
     * breaks right after it, which ends the function, so this returns there.
     */
    method HandleKeyRelease(laneIndex: int)
      modifies this`gameNotes
      modifies this`score, this`combo, this`maxCombo, this`perfectHits, this`goodHits, this`okHits, this`missedHits
      ensures Board() == Release(old(Board()), laneIndex, currentTime)
    {
      for i := 0 to |gameNotes|
        invariant gameNotes == old(gameNotes) && Stats() == old(Stats())
        invariant forall j :: 0 <= j < i ==> !HeldIn(gameNotes[j], laneIndex)
      {
        var note := gameNotes[i];
        if !note.isActive || note.lane != laneIndex || !note.isPressed || note.isHit {
          continue;
        }
        ReleaseNoteAt(i);
        return;
      }
    }

    /** The body of handleKeyRelease's loop once it has found the held note at `i`. */
    method ReleaseNoteAt(i: nat)
      requires i < |gameNotes|
      modifies this`gameNotes
      modifies this`score, this`combo, this`maxCombo, this`perfectHits, this`goodHits, this`okHits, this`missedHits
      ensures Board() == ReleaseAt(old(Board()), i, currentTime)
    {
      var note := gameNotes[i];
      var noteEndTime := note.startTime + note.duration;
      var releaseTimeDiff := currentTime - noteEndTime;
      var releaseAccuracy := CalculateAccuracy(releaseTimeDiff);
      gameNotes := gameNotes[i := note.(isPressed := false, isBeingHeld := false, isHit := true)];
      var finalAccuracy := note.hitAccuracy;
      if releaseAccuracy == Miss {
        if finalAccuracy == Perfect {
          finalAccuracy := Good;
        } else if finalAccuracy == Good {
          finalAccuracy := OK;
        }
      }
      AddScore(finalAccuracy);
      if note.sustainProgress > BonusThreshold {
        var bonusPoints := (FullBonus as real * note.sustainProgress).Floor;
        score := score + bonusPoints;
      }
    }

    /** findClosestNote: the index of the note a press in the lane judges; the Go code returns a pointer to it. */
    method FindClosestNote(laneIndex: int) returns (closestNote: Option<nat>)
      ensures closestNote == Closest(gameNotes, laneIndex, currentTime)
    {
      closestNote := None;
      var minDistance := NoDistance;
      for i := 0 to |gameNotes|
        invariant (closestNote, minDistance) == ClosestUpTo(gameNotes, laneIndex, currentTime, i)
      {
        var note := gameNotes[i];
        if !note.isActive || note.isHit || note.isPressed || note.lane != laneIndex {
          continue;
        }
        var distance := note.startTime - currentTime;
        if distance < minDistance && distance > -LateWindow {
          minDistance := distance;
          closestNote := Some(i);
        }
      }
    }

    /** addScore on the object's counters. */
    method AddScore(accuracy: HitAccuracy)
      modifies this`score, this`combo, this`maxCombo, this`perfectHits, this`goodHits, this`okHits, this`missedHits
      ensures Stats() == Scoring.AddScore(old(Stats()), accuracy)
    {
      match accuracy {
        case Perfect =>
          score := score + 100;
          combo := combo + 1;
          perfectHits := perfectHits + 1;
        case Good =>
          score := score + 75;
          combo := combo + 1;
          goodHits := goodHits + 1;
        case OK =>
          score := score + 50;
          combo := combo + 1;
          okHits := okHits + 1;
        case Miss =>
          combo := 0;
          missedHits := missedHits + 1;
      }
      if combo > maxCombo {
        maxCombo := combo;
      }
      if combo > 10 {
        score := score + combo / 10;
      }
    }

    /** checkMissedNotes: every overdue note is judged a Miss. */
    method CheckMissedNotes()
      modifies this`gameNotes
      modifies this`score, this`combo, this`maxCombo, this`perfectHits, this`goodHits, this`okHits, this`missedHits
      ensures Board() == SweepAll(old(Board()), currentTime)
    {
      for i := 0 to |gameNotes|
        invariant Board() == SweepUpTo(old(Board()), currentTime, i)
      {
        SweepNoteAt(i);
      }
    }

    /** The body of checkMissedNotes' loop, for the note at `i`. */
    method SweepNoteAt(i: nat)
      requires i < |gameNotes|
      modifies this`gameNotes
      modifies this`score, this`combo, this`maxCombo, this`perfectHits, this`goodHits, this`okHits, this`missedHits
      ensures Board() == SweepAt(old(Board()), i, currentTime)
    {
      var note := gameNotes[i];
      if !note.isActive || note.isHit {
        return;
      }
      if currentTime > note.startTime + MissGrace {
        gameNotes := gameNotes[i := note.(isHit := true, hitAccuracy := Miss)];
        AddScore(Miss);
      }
    }

    /** The space key in the main loop: start from the menu, back to the menu after a game, nothing while playing. */
    method PressSpace(now: real)
      requires Valid()
      modifies this`state, this`gameStartTime, this`currentTime, this`gameNotes
      modifies this`score, this`combo, this`maxCombo, this`perfectHits, this`goodHits, this`okHits, this`missedHits
      modifies audioManager`isPlaying, audioManager`startTime, audioManager.musicStream
      ensures Valid()
      ensures old(state) == Menu ==>
        state == Playing && gameStartTime == now && currentTime == 0.0 &&
        Stats() == NoStats && gameNotes == ResetAll(old(gameNotes))
      ensures old(state) == Menu && audioManager.isInitialized && audioManager.musicStream != null &&
              !old(audioManager.isPlaying) ==>
        audioManager.isPlaying && audioManager.startTime == Some(now) &&
        audioManager.musicStream.startTime == Some(now) && audioManager.musicStream.currentSample == 0
      ensures old(state) == Playing ==> state == Playing
      ensures old(state) == GameOver ==> state == Menu
      ensures old(state) != Menu ==>
        Board() == old(Board()) && gameStartTime == old(gameStartTime) && currentTime == old(currentTime)
      ensures old(state) != Menu || !(audioManager.isInitialized && audioManager.musicStream != null && !old(audioManager.isPlaying)) ==>
        audioManager.isPlaying == old(audioManager.isPlaying) && audioManager.startTime == old(audioManager.startTime) &&
        (audioManager.musicStream != null ==> unchanged(audioManager.musicStream))
    {
      match state {
        case Menu => StartGame(now);
        case Playing =>
        case GameOver => state := Menu;
      }
    }
  }
}
