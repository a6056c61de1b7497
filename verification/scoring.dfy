/**
 * Judgment and scoring rules of a play session: the timing windows of
 * calculateAccuracy, the counters addScore updates and the sustain bonus.
 * Go's int32 counters are unbounded integers here.
 */
module Scoring {

  /** A judgment, from worst to best. */
  datatype HitAccuracy = Miss | OK | Good | Perfect

  /** Half-widths of the judgment windows, in seconds. */
  const PerfectWindow: real := 0.05
  const GoodWindow: real := 0.1
  const OkWindow: real := 0.15

  /** Points per judgment before the combo bonus. */
  function Points(a: HitAccuracy): (r: int)
    ensures 0 <= r <= 100
    ensures r == 0 <==> a == Miss
    ensures r == 100 <==> a == Perfect
  {
    match a
    case Perfect => 100
    case Good => 75
    case OK => 50
    case Miss => 0
  }

  /** Position of a judgment in the order Miss < OK < Good < Perfect. */
  function Rank(a: HitAccuracy): int
  {
    match a
    case Miss => 0
    case OK => 1
    case Good => 2
    case Perfect => 3
  }

  function Abs(x: real): (r: real)
    ensures r >= 0.0 && (r == x || r == -x)
  {
    if x < 0.0 then -x else x
  }

  /** calculateAccuracy: the judgment for a signed timing error. */
  function CalculateAccuracy(timeDiff: real): (a: HitAccuracy)
    ensures a == Perfect <==> Abs(timeDiff) <= PerfectWindow
    ensures a == Miss <==> Abs(timeDiff) > OkWindow
  {
    var absTimeDiff := Abs(timeDiff);
    if absTimeDiff <= PerfectWindow then Perfect
    else if absTimeDiff <= GoodWindow then Good
    else if absTimeDiff <= OkWindow then OK
    else Miss
  }

  /** Early and late errors of the same size are judged alike. */
  lemma AccuracySymmetric(d: real)
    ensures CalculateAccuracy(-d) == CalculateAccuracy(d)
  {
  }

  /** A smaller timing error never gets a worse judgment. */
  lemma AccuracyMonotone(d1: real, d2: real)
    requires Abs(d1) <= Abs(d2)
    ensures Rank(CalculateAccuracy(d1)) >= Rank(CalculateAccuracy(d2))
  {
  }

  /** The score counters of a session. */
  datatype Stats = Stats(
    score: int,
    combo: int,
    maxCombo: int,
    perfectHits: int,
    goodHits: int,
    okHits: int,
    missedHits: int)

  /** The counters as StartGame leaves them. */
  const NoStats: Stats := Stats(0, 0, 0, 0, 0, 0, 0)

  /** Judged notes: the sum checkAllNotesProcessed compares with the note total. */
  function Processed(st: Stats): int
  {
    st.perfectHits + st.goodHits + st.okHits + st.missedHits
  }

  /** Counters are non-negative and the combo never exceeds its maximum. */
  predicate StatsOk(st: Stats)
  {
    st.score >= 0 && 0 <= st.combo <= st.maxCombo &&
    st.perfectHits >= 0 && st.goodHits >= 0 && st.okHits >= 0 && st.missedHits >= 0
  }

  /** addScore: points and combo by judgment, then the maximum, then one point per ten combo above ten. */
  function AddScore(st: Stats, a: HitAccuracy): (r: Stats)
    ensures Processed(r) == Processed(st) + 1
    ensures r.combo == (if a == Miss then 0 else st.combo + 1)
    ensures r.maxCombo >= r.combo && r.maxCombo >= st.maxCombo
    ensures StatsOk(st) ==> StatsOk(r)
  {
    var base :=
      match a
      case Perfect => st.(score := st.score + 100, combo := st.combo + 1, perfectHits := st.perfectHits + 1)
      case Good => st.(score := st.score + 75, combo := st.combo + 1, goodHits := st.goodHits + 1)
      case OK => st.(score := st.score + 50, combo := st.combo + 1, okHits := st.okHits + 1)
      case Miss => st.(combo := 0, missedHits := st.missedHits + 1);
    var peak := if base.combo > base.maxCombo then base.(maxCombo := base.combo) else base;
    if peak.combo > 10 then peak.(score := peak.score + peak.combo / 10) else peak
  }

  /** Exactly one tier counter moves, and the score grows by the judgment's points plus the combo bonus. */
  lemma AddScoreTiers(st: Stats, a: HitAccuracy)
    requires StatsOk(st)
    ensures var r := AddScore(st, a);
      r.perfectHits == st.perfectHits + (if a == Perfect then 1 else 0) &&
      r.goodHits == st.goodHits + (if a == Good then 1 else 0) &&
      r.okHits == st.okHits + (if a == OK then 1 else 0) &&
      r.missedHits == st.missedHits + (if a == Miss then 1 else 0) &&
      r.score == st.score + Points(a) + (if r.combo > 10 then r.combo / 10 else 0) &&
      r.maxCombo == (if r.combo > st.maxCombo then r.combo else st.maxCombo)
  {
  }

  /** Judgments applied in order. */
  function AddScores(st: Stats, accs: seq<HitAccuracy>): (r: Stats)
    ensures Processed(r) == Processed(st) + |accs|
    ensures StatsOk(st) ==> StatsOk(r)
  {
    if accs == [] then st else AddScore(AddScores(st, accs[..|accs| - 1]), accs[|accs| - 1])
  }

  /** Length of the run of non-Miss judgments at the end. */
  function TrailingHits(accs: seq<HitAccuracy>): nat
  {
    if accs == [] || accs[|accs| - 1] == Miss then 0 else TrailingHits(accs[..|accs| - 1]) + 1
  }

  /**
   * The combo counts the hits since the last Miss (or since the start, on
   * top of the starting combo), and the maximum is never below any combo
   * reached on the way.
   */
  lemma {:induction false} ComboIsTrailingRun(st: Stats, accs: seq<HitAccuracy>)
    ensures AddScores(st, accs).combo == if Miss in accs then TrailingHits(accs) else st.combo + |accs|
    ensures forall k :: 0 < k <= |accs| ==> AddScores(st, accs).maxCombo >= AddScores(st, accs[..k]).combo
  {
    if accs != [] {
      var init := accs[..|accs| - 1];
      ComboIsTrailingRun(st, init);
      assert Miss in accs <==> Miss in init || accs[|accs| - 1] == Miss by {
        assert accs == init + [accs[|accs| - 1]];
      }
      forall k | 0 < k <= |accs|
        ensures AddScores(st, accs).maxCombo >= AddScores(st, accs[..k]).combo
      {
        if k < |accs| {
          assert accs[..k] == init[..k];
        } else {
          assert accs[..k] == accs;
        }
      }
    }
  }

  /** The first Miss breaks the combo. */
  lemma MissResetsCombo(st: Stats)
    ensures AddScore(st, Miss).combo == 0 && AddScore(st, Miss).score == st.score
  {
  }

  /** Perfect to Good, Good to OK; OK and Miss stay as they are. */
  function Downgrade(a: HitAccuracy): (r: HitAccuracy)
    ensures Rank(r) == (if a == Perfect || a == Good then Rank(a) - 1 else Rank(a))
    ensures r == Miss <==> a == Miss
  {
    match a
    case Perfect => Good
    case Good => OK
    case _ => a
  }

  /** Share of the hold above which the sustain bonus is paid. */
  const BonusThreshold: real := 0.8
  /** Bonus points for a sustain held all the way. */
  const FullBonus: int := 50

  /** The sustain bonus int32(50 * p) for a progress p above 0.8 (truncation is the floor here, p being positive). */
  function Bonus(progress: real): (b: int)
    ensures progress <= BonusThreshold ==> b == 0
  {
    if progress > BonusThreshold then (FullBonus as real * progress).Floor else 0
  }

  /** For a progress in [0, 1] the bonus is 0 or between 40 and 50, and exactly 50 at completion. */
  lemma BonusBounds(progress: real)
    requires 0.0 <= progress <= 1.0
    ensures 0 <= Bonus(progress) <= FullBonus
    ensures progress > BonusThreshold ==> Bonus(progress) >= 40
    ensures progress == 1.0 ==> Bonus(progress) == FullBonus
  {
    if progress > BonusThreshold {
      var x := FullBonus as real * progress;
      assert 40.0 < x <= 50.0;
    }
  }

  /** Resolving a held note: addScore with its judgment, then the sustain bonus. */
  function Complete(st: Stats, a: HitAccuracy, progress: real): (r: Stats)
    ensures Processed(r) == Processed(st) + 1
    ensures StatsOk(st) && progress >= 0.0 ==> StatsOk(r)
  {
    var s := AddScore(st, a);
    s.(score := s.score + Bonus(progress))
  }
}
