/**
 * The per-frame rules of a play session as functions on values: what the
 * key handlers, the note movement, the sustain tracking and the miss sweep
 * do to the note list and the score counters. The Game class in module
 * GameEngine runs these phases as loops and is proved against them.
 *
 * Every phase visits the notes by index, as the Go loops do over
 * `&g.gameNotes[i]`, so each is a fold over indices of a per-index step.
 */
module GameRules {
  import opened Notes
  import opened Scoring

  const LaneCount: int := 3
  /** Y coordinate of the hit line, and the scroll speed in pixels per second. */
  const HitLineY: real := 500.0
  const NoteSpeed: real := 200.0
  /** A note is dropped once its Y passes the screen height plus this margin. */
  const ScreenHeight: real := 600.0
  const OffscreenMargin: real := 50.0
  /** Notes longer than this are held (sustained notes). */
  const SustainThreshold: real := 0.3
  /** How late a note can still be pressed, and how late it is swept as missed. */
  const LateWindow: real := 0.2
  const MissGrace: real := 0.2
  /** Starting distance of the closest-note search. */
  const NoDistance: real := 1000000.0

  /** A note of the session (GameNote), without its display width and height. */
  datatype GameNote = GameNote(
    startTime: real,
    duration: real,
    lane: int,
    y: real,
    isActive: bool,
    isHit: bool,
    hitAccuracy: HitAccuracy,
    isPressed: bool,
    pressStartTime: real,
    isBeingHeld: bool,
    sustainProgress: real)

  /**
   * What every note of a session satisfies: its lane indexes the three lanes,
   * only sustained notes are ever pressed, and the sustain progress is a share.
   */
  predicate WellFormed(n: GameNote)
  {
    0 <= n.lane < LaneCount && (n.isPressed ==> n.duration > SustainThreshold) &&
    0.0 <= n.sustainProgress <= 1.0
  }

  predicate AllWellFormed(notes: seq<GameNote>)
  {
    forall i :: 0 <= i < |notes| ==> WellFormed(notes[i])
  }

  /** The notes and the counters, the part of the session a frame updates. */
  datatype Board = Board(notes: seq<GameNote>, stats: Stats)

  predicate BoardOk(b: Board)
  {
    AllWellFormed(b.notes) && StatsOk(b.stats)
  }

  /** Key polling for one frame: per lane, held down, just pressed, just released. */
  datatype Keys = Keys(down: seq<bool>, pressed: seq<bool>, released: seq<bool>)

  predicate KeysOk(k: Keys)
  {
    |k.down| == LaneCount && |k.pressed| == LaneCount && |k.released| == LaneCount
  }

  /** isSustainedNote */
  predicate IsSustained(n: GameNote)
  {
    n.duration > SustainThreshold
  }

  // ---------------------------------------------------------------------------
  // Resolved notes
  // ---------------------------------------------------------------------------

  /** Number of notes marked hit (judged, whatever the judgment). */
  function Resolved(notes: seq<GameNote>): (r: nat)
    ensures r <= |notes|
  {
    if notes == [] then 0
    else Resolved(notes[..|notes| - 1]) + (if notes[|notes| - 1].isHit then 1 else 0)
  }

  /** Counters minus resolved notes: every phase keeps it, because each judgment marks exactly one unhit note. */
  function Balance(b: Board): int
  {
    Processed(b.stats) - Resolved(b.notes)
  }

  lemma {:induction false} ResolvedUpdate(notes: seq<GameNote>, i: int, m: GameNote)
    requires 0 <= i < |notes|
    ensures Resolved(notes[i := m])
         == Resolved(notes) - (if notes[i].isHit then 1 else 0) + (if m.isHit then 1 else 0)
  {
    var last := |notes| - 1;
    if i < last {
      ResolvedUpdate(notes[..last], i, m);
      assert notes[i := m][..last] == notes[..last][i := m];
    } else {
      assert notes[i := m][..last] == notes[..last];
    }
  }

  /** All notes are resolved exactly when the resolved count reaches the note count. */
  lemma {:induction false} ResolvedAll(notes: seq<GameNote>)
    ensures Resolved(notes) == |notes| <==> forall i :: 0 <= i < |notes| ==> notes[i].isHit
  {
    if notes != [] {
      var last := |notes| - 1;
      ResolvedAll(notes[..last]);
      if Resolved(notes) == |notes| {
        forall i | 0 <= i < |notes| ensures notes[i].isHit {
          if i < last {
            assert notes[..last][i] == notes[i];
          }
        }
      }
      if forall i :: 0 <= i < |notes| ==> notes[i].isHit {
        assert forall i :: 0 <= i < last ==> notes[..last][i].isHit;
      }
    }
  }

  // ---------------------------------------------------------------------------
  // StartGame
  // ---------------------------------------------------------------------------

  /** StartGame's reset of one note: active again and unjudged; nothing else is reset. */
  function ResetNote(n: GameNote): (r: GameNote)
    ensures r.isActive && !r.isHit
  {
    n.(isActive := true, isHit := false)
  }

  function ResetAll(notes: seq<GameNote>): (r: seq<GameNote>)
    ensures |r| == |notes|
    ensures forall i :: 0 <= i < |r| ==> r[i] == ResetNote(notes[i])
  {
    seq(|notes|, i requires 0 <= i < |notes| => ResetNote(notes[i]))
  }

  /** After a reset no note is resolved and every note stays well formed. */
  lemma {:induction false} ResetAllUnresolved(notes: seq<GameNote>)
    ensures Resolved(ResetAll(notes)) == 0
    ensures AllWellFormed(notes) ==> AllWellFormed(ResetAll(notes))
  {
    if notes != [] {
      var last := |notes| - 1;
      ResetAllUnresolved(notes[..last]);
      assert ResetAll(notes)[..last] == ResetAll(notes[..last]);
    }
  }

  /**
   * A note still pressed when a session ends is still pressed after the
   * restart, with its old judgment and progress, so it counts as held again.
   */
  lemma RestartKeepsStaleHold(n: GameNote)
    requires n.isPressed
    ensures HeldIn(ResetNote(n), n.lane)
    ensures ResetNote(n).hitAccuracy == n.hitAccuracy && ResetNote(n).sustainProgress == n.sustainProgress
  {
  }

  // ---------------------------------------------------------------------------
  // updateNotes
  // ---------------------------------------------------------------------------

  /** updateNotes on one note: place it by time to hit and drop it once it is off screen. */
  function MoveNote(n: GameNote, now: real): (r: GameNote)
    ensures r.(y := n.y, isActive := n.isActive) == n
    ensures r.isActive ==> n.isActive
  {
    if !n.isActive then n
    else
      var timeUntilHit := n.startTime - now;
      var y := HitLineY - timeUntilHit * NoteSpeed;
      if y > ScreenHeight + OffscreenMargin then n.(y := y, isActive := false) else n.(y := y)
  }

  /** An active note leaves the screen exactly when it is more than 0.75 s late. */
  lemma MoveNoteLeavesScreen(n: GameNote, now: real)
    requires n.isActive
    ensures !MoveNote(n, now).isActive <==> now > n.startTime + 0.75
    ensures MoveNote(n, now).y == HitLineY + (now - n.startTime) * NoteSpeed
  {
  }

  function MoveAll(notes: seq<GameNote>, now: real): (r: seq<GameNote>)
    ensures |r| == |notes|
    ensures forall i :: 0 <= i < |r| ==> r[i] == MoveNote(notes[i], now)
  {
    seq(|notes|, i requires 0 <= i < |notes| => MoveNote(notes[i], now))
  }

  /** Moving notes changes neither which are resolved nor their well-formedness. */
  lemma {:induction false} MoveAllKeeps(notes: seq<GameNote>, now: real)
    ensures Resolved(MoveAll(notes, now)) == Resolved(notes)
    ensures AllWellFormed(notes) ==> AllWellFormed(MoveAll(notes, now))
  {
    if notes != [] {
      var last := |notes| - 1;
      MoveAllKeeps(notes[..last], now);
      assert MoveAll(notes, now)[..last] == MoveAll(notes[..last], now);
    }
  }

  // ---------------------------------------------------------------------------
  // findClosestNote and handleKeyPress
  // ---------------------------------------------------------------------------

  /** A note the closest-note search looks at: active, unhit, not pressed, in the lane. */
  predicate Eligible(n: GameNote, lane: int)
  {
    n.isActive && !n.isHit && !n.isPressed && n.lane == lane
  }

  /** An eligible note within the search's reach: less than 0.2 s late and nearer than the sentinel. */
  predicate Candidate(n: GameNote, lane: int, now: real)
  {
    Eligible(n, lane) && -LateWindow < n.startTime - now < NoDistance
  }

  /** The search state after the first `k` notes: best index so far and its distance. */
  function ClosestUpTo(notes: seq<GameNote>, lane: int, now: real, k: nat): (r: (Option<nat>, real))
    requires k <= |notes|
    ensures r.0.Some? ==> r.0.value < k && Candidate(notes[r.0.value], lane, now) &&
                          r.1 == notes[r.0.value].startTime - now
    ensures r.0.None? ==> r.1 == NoDistance
  {
    if k == 0 then (None, NoDistance)
    else
      var (best, minDistance) := ClosestUpTo(notes, lane, now, k - 1);
      var n := notes[k - 1];
      var distance := n.startTime - now;
      if Eligible(n, lane) && distance < minDistance && distance > -LateWindow then (Some(k - 1), distance)
      else (best, minDistance)
  }

  /** findClosestNote: the index of the note a press in `lane` judges, if any. */
  function Closest(notes: seq<GameNote>, lane: int, now: real): Option<nat>
  {
    ClosestUpTo(notes, lane, now, |notes|).0
  }

  /**
   * The search finds nothing exactly when no note is a candidate; otherwise it
   * finds a candidate that every earlier candidate is strictly farther than
   * and no later candidate is nearer than (the first of equals wins).
   */
  lemma {:induction false} ClosestUpToIsNearest(notes: seq<GameNote>, lane: int, now: real, k: nat)
    requires k <= |notes|
    ensures ClosestUpTo(notes, lane, now, k).0.None? <==>
            forall j :: 0 <= j < k ==> !Candidate(notes[j], lane, now)
    ensures ClosestUpTo(notes, lane, now, k).0.Some? ==>
      var i := ClosestUpTo(notes, lane, now, k).0.value;
      (forall j :: 0 <= j < i && Candidate(notes[j], lane, now) ==>
         notes[j].startTime - now > notes[i].startTime - now) &&
      (forall j :: i < j < k && Candidate(notes[j], lane, now) ==>
         notes[j].startTime - now >= notes[i].startTime - now)
  {
    if k > 0 {
      ClosestUpToIsNearest(notes, lane, now, k - 1);
    }
  }

  lemma ClosestIsNearest(notes: seq<GameNote>, lane: int, now: real)
    ensures Closest(notes, lane, now).None? <==> forall j :: 0 <= j < |notes| ==> !Candidate(notes[j], lane, now)
    ensures Closest(notes, lane, now).Some? ==>
      var i := Closest(notes, lane, now).value;
      i < |notes| && Candidate(notes[i], lane, now) &&
      (forall j :: 0 <= j < i && Candidate(notes[j], lane, now) ==> notes[j].startTime > notes[i].startTime) &&
      (forall j :: i < j < |notes| && Candidate(notes[j], lane, now) ==> notes[j].startTime >= notes[i].startTime)
  {
    ClosestUpToIsNearest(notes, lane, now, |notes|);
  }

  /**
   * handleKeyPress on the note at `i`: a Miss judgment changes nothing; a
   * sustained note becomes pressed and held with its judgment stored and no
   * score; a short note is hit and scored once.
   */
  function PressAt(b: Board, i: nat, now: real): (r: Board)
    requires i < |b.notes|
    ensures |r.notes| == |b.notes|
  {
    var n := b.notes[i];
    var accuracy := CalculateAccuracy(now - n.startTime);
    if accuracy == Miss then b
    else if IsSustained(n) then
      Board(b.notes[i := n.(isPressed := true, pressStartTime := now, isBeingHeld := true, hitAccuracy := accuracy)], b.stats)
    else
      Board(b.notes[i := n.(isHit := true, hitAccuracy := accuracy)], AddScore(b.stats, accuracy))
  }

  function Press(b: Board, lane: int, now: real): Board
  {
    match Closest(b.notes, lane, now)
    case None => b
    case Some(i) => PressAt(b, i, now)
  }

  /**
   * A press changes only the judged note. On a Miss judgment nothing changes;
   * a sustained note is pressed and held with the judgment stored and the
   * counters untouched; a short note is hit and scored exactly once.
   */
  lemma PressAtJudges(b: Board, i: nat, now: real)
    requires i < |b.notes|
    ensures var r := PressAt(b, i, now);
      (forall j :: 0 <= j < |r.notes| && j != i ==> r.notes[j] == b.notes[j]) &&
      var n := b.notes[i]; var a := CalculateAccuracy(now - n.startTime);
      if a == Miss then r == b
      else if IsSustained(n) then
        r.stats == b.stats && r.notes[i].isPressed && r.notes[i].isBeingHeld &&
        r.notes[i].hitAccuracy == a && r.notes[i].isHit == n.isHit
      else
        r.stats == AddScore(b.stats, a) && r.notes[i].isHit && r.notes[i].hitAccuracy == a &&
        r.notes[i].isPressed == n.isPressed
  {
  }

  // ---------------------------------------------------------------------------
  // handleKeyRelease
  // ---------------------------------------------------------------------------

  /** A note a release in `lane` completes: active, pressed, unhit, in the lane. */
  predicate HeldIn(n: GameNote, lane: int)
  {
    n.isActive && n.lane == lane && n.isPressed && !n.isHit
  }

  function FirstHeldFrom(notes: seq<GameNote>, lane: int, from: nat): (r: Option<nat>)
    requires from <= |notes|
    ensures r.Some? ==> from <= r.value < |notes| && HeldIn(notes[r.value], lane) &&
                        forall j :: from <= j < r.value ==> !HeldIn(notes[j], lane)
    ensures r.None? ==> forall j :: from <= j < |notes| ==> !HeldIn(notes[j], lane)
    decreases |notes| - from
  {
    if from == |notes| then None
    else if HeldIn(notes[from], lane) then Some(from)
    else FirstHeldFrom(notes, lane, from + 1)
  }

  /** The first held note of the lane, in list order. */
  function FirstHeld(notes: seq<GameNote>, lane: int): Option<nat>
  {
    FirstHeldFrom(notes, lane, 0)
  }

  /**
   * handleKeyRelease on the held note at `i`: it is resolved with its stored
   * judgment, downgraded once when the release itself is judged a Miss, plus
   * the sustain bonus. The stored judgment is not rewritten.
   */
  function ReleaseAt(b: Board, i: nat, now: real): (r: Board)
    requires i < |b.notes|
    ensures |r.notes| == |b.notes|
  {
    var n := b.notes[i];
    var noteEndTime := n.startTime + n.duration;
    var releaseAccuracy := CalculateAccuracy(now - noteEndTime);
    var finalAccuracy := if releaseAccuracy == Miss then Downgrade(n.hitAccuracy) else n.hitAccuracy;
    Board(b.notes[i := n.(isPressed := false, isBeingHeld := false, isHit := true)],
          Complete(b.stats, finalAccuracy, n.sustainProgress))
  }

  function Release(b: Board, lane: int, now: real): Board
  {
    match FirstHeld(b.notes, lane)
    case None => b
    case Some(i) => ReleaseAt(b, i, now)
  }

  /** A release resolves the held note and changes no other note. */
  lemma ReleaseAtResolves(b: Board, i: nat, now: real)
    requires i < |b.notes|
    ensures var r := ReleaseAt(b, i, now);
      (forall j :: 0 <= j < |r.notes| && j != i ==> r.notes[j] == b.notes[j]) &&
      r.notes[i] == b.notes[i].(isPressed := false, isBeingHeld := false, isHit := true)
  {
  }

  /**
   * A release resolves at most one note, the first held one in the lane: it
   * keeps the judgment of the press when the release itself is within the
   * OK window of the note's end, and otherwise lowers it by one tier, so it
   * never costs more than one tier and never turns a judged hit into a Miss.
   */
  lemma ReleaseResolvesFirstHeld(b: Board, lane: int, now: real)
    ensures var r := Release(b, lane, now);
      |r.notes| == |b.notes| &&
      match FirstHeld(b.notes, lane)
      case None => r == b && forall j :: 0 <= j < |b.notes| ==> !HeldIn(b.notes[j], lane)
      case Some(i) =>
        HeldIn(b.notes[i], lane) && r.notes[i].isHit && !r.notes[i].isPressed &&
        (forall j :: 0 <= j < i ==> !HeldIn(b.notes[j], lane)) &&
        (forall j :: 0 <= j < |b.notes| && j != i ==> r.notes[j] == b.notes[j]) &&
        var n := b.notes[i];
        var a := if CalculateAccuracy(now - (n.startTime + n.duration)) == Miss
                 then Downgrade(n.hitAccuracy) else n.hitAccuracy;
        r.stats == Complete(b.stats, a, n.sustainProgress) &&
        Rank(n.hitAccuracy) - 1 <= Rank(a) <= Rank(n.hitAccuracy) &&
        (a == Miss <==> n.hitAccuracy == Miss)
  {
    match FirstHeld(b.notes, lane)
    case None =>
    case Some(i) =>
      ReleaseAtResolves(b, i, now);
      var n := b.notes[i];
      var releaseAccuracy := CalculateAccuracy(now - (n.startTime + n.duration));
      var a := if releaseAccuracy == Miss then Downgrade(n.hitAccuracy) else n.hitAccuracy;
      assert Release(b, lane, now).stats == Complete(b.stats, a, n.sustainProgress);
  }

  // ---------------------------------------------------------------------------
  // updateInput
  // ---------------------------------------------------------------------------

  /** One lane of updateInput: a press is handled before a release. */
  function InputLane(b: Board, keys: Keys, lane: nat, now: real): Board
    requires KeysOk(keys) && lane < LaneCount
  {
    var afterPress := if keys.pressed[lane] then Press(b, lane, now) else b;
    if keys.released[lane] then Release(afterPress, lane, now) else afterPress
  }

  /** updateInput over the first `k` lanes, in lane order. */
  function InputUpTo(b: Board, keys: Keys, now: real, k: nat): Board
    requires KeysOk(keys) && k <= LaneCount
  {
    if k == 0 then b else InputLane(InputUpTo(b, keys, now, k - 1), keys, k - 1, now)
  }

  function InputAll(b: Board, keys: Keys, now: real): Board
    requires KeysOk(keys)
  {
    InputUpTo(b, keys, now, LaneCount)
  }

  // ---------------------------------------------------------------------------
  // updateSustainedNotes
  // ---------------------------------------------------------------------------

  function ClampUnit(x: real): (r: real)
    ensures 0.0 <= r <= 1.0
    ensures 0.0 <= x <= 1.0 ==> r == x
  {
    if x < 0.0 then 0.0 else if x > 1.0 then 1.0 else x
  }

  /**
   * updateSustainedNotes on the note at `i`. A held note whose lane is still
   * down gets its progress; once its end time is reached it is resolved with
   * its stored judgment plus the bonus. A held note whose lane is up is
   * resolved as a Miss.
   */
  function SustainAt(b: Board, i: nat, lanes: seq<bool>, now: real): (r: Board)
    requires i < |b.notes| && |lanes| == LaneCount && WellFormed(b.notes[i])
    ensures |r.notes| == |b.notes| && forall j :: 0 <= j < |r.notes| && j != i ==> r.notes[j] == b.notes[j]
  {
    var n := b.notes[i];
    if !n.isActive || !n.isPressed || n.isHit then b
    else if lanes[n.lane] then
      var noteElapsed := now - n.startTime;
      var progress := ClampUnit(noteElapsed / n.duration);
      var held := n.(sustainProgress := progress, isBeingHeld := true);
      var noteEndTime := n.startTime + n.duration;
      if now >= noteEndTime then
        var done := held.(isPressed := false, isBeingHeld := false, isHit := true);
        Board(b.notes[i := done], Complete(b.stats, n.hitAccuracy, progress))
      else
        Board(b.notes[i := held], b.stats)
    else
      var missed := n.(isPressed := false, isBeingHeld := false, isHit := true, hitAccuracy := Miss);
      Board(b.notes[i := missed], AddScore(b.stats, Miss))
  }

  /**
   * The sustain step keeps the note well formed (its progress is a share),
   * leaves a resolved note alone, and keeps the balance and the counters'
   * invariant.
   */
  lemma SustainAtKeeps(b: Board, i: nat, lanes: seq<bool>, now: real)
    requires i < |b.notes| && |lanes| == LaneCount && WellFormed(b.notes[i])
    ensures var r := SustainAt(b, i, lanes, now);
      WellFormed(r.notes[i]) && (b.notes[i].isHit ==> r.notes[i] == b.notes[i]) &&
      Balance(r) == Balance(b) && (StatsOk(b.stats) ==> StatsOk(r.stats))
  {
    var r := SustainAt(b, i, lanes, now);
    assert r.notes == b.notes[i := r.notes[i]];
    ResolvedUpdate(b.notes, i, r.notes[i]);
  }

  /** A sustain that reaches its end with the lane down always earns the full bonus. */
  lemma AutoCompleteFullBonus(b: Board, i: nat, lanes: seq<bool>, now: real)
    requires i < |b.notes| && |lanes| == LaneCount && WellFormed(b.notes[i])
    requires HeldIn(b.notes[i], b.notes[i].lane) && lanes[b.notes[i].lane]
    requires now >= b.notes[i].startTime + b.notes[i].duration
    ensures var r := SustainAt(b, i, lanes, now);
      r.notes[i].isHit && r.notes[i].sustainProgress == 1.0 &&
      r.stats == Complete(b.stats, b.notes[i].hitAccuracy, 1.0) &&
      r.stats.score == AddScore(b.stats, b.notes[i].hitAccuracy).score + FullBonus
  {
    var n := b.notes[i];
    assert (now - n.startTime) / n.duration >= 1.0;
    BonusBounds(1.0);
  }

  /** A held note whose lane key is up is resolved as a Miss: the combo breaks and no points are added. */
  lemma ReleasedEarlyMisses(b: Board, i: nat, lanes: seq<bool>, now: real)
    requires i < |b.notes| && |lanes| == LaneCount && WellFormed(b.notes[i])
    requires HeldIn(b.notes[i], b.notes[i].lane) && !lanes[b.notes[i].lane]
    ensures var r := SustainAt(b, i, lanes, now);
      r.notes[i].isHit && r.notes[i].hitAccuracy == Miss && !r.notes[i].isPressed &&
      r.stats.combo == 0 && r.stats.score == b.stats.score
  {
  }

  /** A note that is not held (inactive, unpressed or already hit) is left alone, and so are the counters. */
  lemma SustainIgnoresUnheld(b: Board, i: nat, lanes: seq<bool>, now: real)
    requires i < |b.notes| && |lanes| == LaneCount && WellFormed(b.notes[i])
    requires !HeldIn(b.notes[i], b.notes[i].lane)
    ensures SustainAt(b, i, lanes, now) == b
  {
  }

  /** updateSustainedNotes over the first `k` notes. */
  function SustainUpTo(b: Board, lanes: seq<bool>, now: real, k: nat): (r: Board)
    requires k <= |b.notes| && |lanes| == LaneCount && AllWellFormed(b.notes)
    ensures |r.notes| == |b.notes|
    ensures forall j :: k <= j < |r.notes| ==> r.notes[j] == b.notes[j]
  {
    if k == 0 then b else SustainAt(SustainUpTo(b, lanes, now, k - 1), k - 1, lanes, now)
  }

  lemma {:induction false} SustainUpToKeeps(b: Board, lanes: seq<bool>, now: real, k: nat)
    requires k <= |b.notes| && |lanes| == LaneCount && AllWellFormed(b.notes)
    ensures var r := SustainUpTo(b, lanes, now, k);
      AllWellFormed(r.notes) &&
      (forall j :: 0 <= j < |r.notes| && b.notes[j].isHit ==> r.notes[j] == b.notes[j]) &&
      Balance(r) == Balance(b) && (StatsOk(b.stats) ==> StatsOk(r.stats))
  {
    if k > 0 {
      SustainUpToKeeps(b, lanes, now, k - 1);
      SustainAtKeeps(SustainUpTo(b, lanes, now, k - 1), k - 1, lanes, now);
    }
  }

  function SustainAll(b: Board, lanes: seq<bool>, now: real): Board
    requires |lanes| == LaneCount && AllWellFormed(b.notes)
  {
    SustainUpTo(b, lanes, now, |b.notes|)
  }

  // ---------------------------------------------------------------------------
  // checkMissedNotes
  // ---------------------------------------------------------------------------

  /** checkMissedNotes' test: active, unhit and more than 0.2 s late; being pressed does not exempt a note. */
  predicate Overdue(n: GameNote, now: real)
  {
    n.isActive && !n.isHit && now > n.startTime + MissGrace
  }

  function SweepAt(b: Board, i: nat, now: real): (r: Board)
    requires i < |b.notes|
    ensures |r.notes| == |b.notes|
  {
    var n := b.notes[i];
    if Overdue(n, now) then
      var missed := n.(isHit := true, hitAccuracy := Miss);
      Board(b.notes[i := missed], AddScore(b.stats, Miss))
    else b
  }

  /** checkMissedNotes over the first `k` notes. */
  function SweepUpTo(b: Board, now: real, k: nat): (r: Board)
    requires k <= |b.notes|
    ensures |r.notes| == |b.notes|
  {
    if k == 0 then b else SweepAt(SweepUpTo(b, now, k - 1), k - 1, now)
  }

  /** A Miss judgment for an overdue note; any other note is left alone. */
  function Swept(n: GameNote, now: real): GameNote
  {
    if Overdue(n, now) then n.(isHit := true, hitAccuracy := Miss) else n
  }

  lemma SweepAtKeeps(b: Board, i: nat, now: real)
    requires i < |b.notes|
    ensures var r := SweepAt(b, i, now);
      r.notes == b.notes[i := Swept(b.notes[i], now)] &&
      Balance(r) == Balance(b) && (StatsOk(b.stats) ==> StatsOk(r.stats))
  {
    ResolvedUpdate(b.notes, i, Swept(b.notes[i], now));
  }

  /**
   * The sweep over the first `k` notes judges exactly the overdue ones among
   * them as Miss, leaves every other note alone, and keeps the balance.
   */
  lemma {:induction false} SweepUpToKeeps(b: Board, now: real, k: nat)
    requires k <= |b.notes|
    ensures var r := SweepUpTo(b, now, k);
      (forall j :: 0 <= j < |r.notes| ==> r.notes[j] == if j < k then Swept(b.notes[j], now) else b.notes[j]) &&
      Balance(r) == Balance(b) && (StatsOk(b.stats) ==> StatsOk(r.stats))
  {
    if k > 0 {
      SweepUpToKeeps(b, now, k - 1);
      SweepAtKeeps(SweepUpTo(b, now, k - 1), k - 1, now);
    }
  }

  function SweepAll(b: Board, now: real): Board
  {
    SweepUpTo(b, now, |b.notes|)
  }

  /** The sweep misses a held sustain note too once it is 0.2 s past its start. */
  lemma SweepMissesHeldNotes(b: Board, i: nat, now: real)
    requires i < |b.notes| && HeldIn(b.notes[i], b.notes[i].lane) && now > b.notes[i].startTime + MissGrace
    ensures var r := SweepAll(b, now);
      r.notes[i].isHit && r.notes[i].hitAccuracy == Miss && r.notes[i].isPressed
  {
    SweepUpToKeeps(b, now, |b.notes|);
  }

  // ---------------------------------------------------------------------------
  // One frame
  // ---------------------------------------------------------------------------

  /** The note phases of Update in their order: input, movement, sustains, misses. */
  function FrameBoard(b: Board, keys: Keys, now: real): Board
    requires KeysOk(keys) && AllWellFormed(b.notes)
  {
    var afterInput := InputAll(b, keys, now);
    InputKeeps(b, keys, now, LaneCount);
    MoveAllKeeps(afterInput.notes, now);
    var afterMove := Board(MoveAll(afterInput.notes, now), afterInput.stats);
    var afterSustain := SustainAll(afterMove, keys.down, now);
    SweepAll(afterSustain, now)
  }

  /** Press keeps the balance and well-formedness and never un-resolves a note. */
  lemma PressKeeps(b: Board, lane: int, now: real)
    ensures |Press(b, lane, now).notes| == |b.notes|
    ensures Balance(Press(b, lane, now)) == Balance(b)
    ensures AllWellFormed(b.notes) ==> AllWellFormed(Press(b, lane, now).notes)
    ensures StatsOk(b.stats) ==> StatsOk(Press(b, lane, now).stats)
    ensures forall j :: 0 <= j < |b.notes| && b.notes[j].isHit ==> Press(b, lane, now).notes[j].isHit
  {
    match Closest(b.notes, lane, now)
    case None =>
    case Some(i) =>
      ClosestIsNearest(b.notes, lane, now);
      PressAtJudges(b, i, now);
      ResolvedUpdate(b.notes, i, PressAt(b, i, now).notes[i]);
      assert PressAt(b, i, now).notes == b.notes[i := PressAt(b, i, now).notes[i]];
  }

  lemma ReleaseKeeps(b: Board, lane: int, now: real)
    ensures |Release(b, lane, now).notes| == |b.notes|
    ensures Balance(Release(b, lane, now)) == Balance(b)
    ensures AllWellFormed(b.notes) ==> AllWellFormed(Release(b, lane, now).notes)
    ensures StatsOk(b.stats) && AllWellFormed(b.notes) ==> StatsOk(Release(b, lane, now).stats)
    ensures forall j :: 0 <= j < |b.notes| && b.notes[j].isHit ==> Release(b, lane, now).notes[j].isHit
  {
    match FirstHeld(b.notes, lane)
    case None =>
    case Some(i) =>
      ReleaseAtResolves(b, i, now);
      ResolvedUpdate(b.notes, i, ReleaseAt(b, i, now).notes[i]);
      assert ReleaseAt(b, i, now).notes == b.notes[i := ReleaseAt(b, i, now).notes[i]];
  }

  lemma {:induction false} InputKeeps(b: Board, keys: Keys, now: real, k: nat)
    requires KeysOk(keys) && k <= LaneCount
    ensures var r := InputUpTo(b, keys, now, k);
      |r.notes| == |b.notes| && Balance(r) == Balance(b) &&
      (AllWellFormed(b.notes) ==> AllWellFormed(r.notes)) &&
      (BoardOk(b) ==> BoardOk(r)) &&
      forall j :: 0 <= j < |b.notes| && b.notes[j].isHit ==> r.notes[j].isHit
  {
    if k > 0 {
      InputKeeps(b, keys, now, k - 1);
      var before := InputUpTo(b, keys, now, k - 1);
      PressKeeps(before, k - 1, now);
      var afterPress := if keys.pressed[k - 1] then Press(before, k - 1, now) else before;
      ReleaseKeeps(afterPress, k - 1, now);
    }
  }

  /**
   * A frame keeps the balance between counters and resolved notes, keeps
   * every note and counter well formed, and never un-resolves a note: each
   * note enters the counters at most once.
   */
  lemma FrameKeeps(b: Board, keys: Keys, now: real)
    requires KeysOk(keys) && BoardOk(b)
    ensures var r := FrameBoard(b, keys, now);
      |r.notes| == |b.notes| && Balance(r) == Balance(b) && BoardOk(r) &&
      forall j :: 0 <= j < |b.notes| && b.notes[j].isHit ==> r.notes[j].isHit
  {
    var afterInput := InputAll(b, keys, now);
    InputKeeps(b, keys, now, LaneCount);
    MoveAllKeeps(afterInput.notes, now);
    var afterMove := Board(MoveAll(afterInput.notes, now), afterInput.stats);
    assert forall j :: 0 <= j < |b.notes| && b.notes[j].isHit ==> afterMove.notes[j].isHit;
    SustainUpToKeeps(afterMove, keys.down, now, |afterMove.notes|);
    var afterSustain := SustainAll(afterMove, keys.down, now);
    SweepUpToKeeps(afterSustain, now, |afterSustain.notes|);
  }

  /** After a frame no active note more than 0.2 s late is left unjudged. */
  lemma FrameLeavesNoOverdue(b: Board, keys: Keys, now: real)
    requires KeysOk(keys) && AllWellFormed(b.notes)
    ensures var r := FrameBoard(b, keys, now);
      forall j :: 0 <= j < |r.notes| ==> !Overdue(r.notes[j], now)
  {
    var afterInput := InputAll(b, keys, now);
    InputKeeps(b, keys, now, LaneCount);
    MoveAllKeeps(afterInput.notes, now);
    var afterMove := Board(MoveAll(afterInput.notes, now), afterInput.stats);
    var afterSustain := SustainAll(afterMove, keys.down, now);
    SweepUpToKeeps(afterSustain, now, |afterSustain.notes|);
  }

  /**
   * With counters and resolved notes in balance (as StartGame leaves them)
   * and the note total equal to the note count, the end-of-session test
   * after a frame holds exactly when every note has been judged.
   */
  lemma FrameEndsWhenAllJudged(b: Board, keys: Keys, now: real, totalNotes: int)
    requires KeysOk(keys) && BoardOk(b) && Balance(b) == 0 && totalNotes == |b.notes|
    ensures var r := FrameBoard(b, keys, now);
      Processed(r.stats) >= totalNotes <==> forall j :: 0 <= j < |r.notes| ==> r.notes[j].isHit
  {
    FrameKeeps(b, keys, now);
    ResolvedAll(FrameBoard(b, keys, now).notes);
  }
  /**
   * A frame that comes more than 0.75 s after a note's start takes the note
   * out of play before the miss sweep looks at it: the note was overdue, yet
   * it leaves the frame inactive and unjudged, and no counter moves.
   */
  lemma LateFrameLeavesNoteUnjudged()
    ensures var n := GameNote(2.0, 0.1, 1, 0.0, true, false, Miss, false, 0.0, false, 0.0);
      var none := [false, false, false];
      var r := FrameBoard(Board([n], NoStats), Keys(none, none, none), 2.8);
      Overdue(n, 2.8) && |r.notes| == 1 && !r.notes[0].isActive && !r.notes[0].isHit && r.stats == NoStats
  {
    var n := GameNote(2.0, 0.1, 1, 0.0, true, false, Miss, false, 0.0, false, 0.0);
    var none := [false, false, false];
    var keys := Keys(none, none, none);
    var b := Board([n], NoStats);
    assert InputUpTo(b, keys, 2.8, 1) == b;
    assert InputUpTo(b, keys, 2.8, 2) == b;
    assert InputAll(b, keys, 2.8) == b;
    var moved := MoveNote(n, 2.8);
    assert MoveAll([n], 2.8) == [moved] && !moved.isActive;
    var afterMove := Board([moved], NoStats);
    assert SustainAt(afterMove, 0, none, 2.8) == afterMove;
    assert SustainUpTo(afterMove, none, 2.8, 1) == afterMove;
    assert SustainAll(afterMove, none, 2.8) == afterMove;
    assert SweepAt(afterMove, 0, 2.8) == afterMove;
    assert SweepUpTo(afterMove, 2.8, 1) == afterMove;
    assert SweepAll(afterMove, 2.8) == afterMove;
  }
}
