/**
 * Playback state and sample synthesis (AudioManager and MIDIAudioStreamer).
 *
 * The speaker library, the audio callback's concurrency and wall-clock reads
 * are outside the model: clock readings arrive as `now` parameters and the
 * speaker's success as a boolean. The sine of the synthesis is an
 * `Oscillator`, any function of pitch and time whose values lie in [-1, 1];
 * the 440 Hz test tone is the oscillator at pitch 69 (A4).
 */
module Audio {
  import opened Notes

  const SampleRate: int := 44100
  /** Per-note amplitude, also the test tone's. */
  const Amplitude: real := 0.2
  /** Length of the fade-in and fade-out ramps, in seconds. */
  const FadeTime: real := 0.05
  /** The test tone sounds during the first two seconds of the stream. */
  const TestToneEnd: real := 2.0
  /** MIDI number of A4, the pitch whose frequency is 440 Hz. */
  const TestTonePitch: int := 69

  /** sin(2 pi f(pitch) t), abstracted to a function of pitch and time bounded by 1. */
  type Oscillator = f: (int, real) -> real | forall p: int, t: real :: -1.0 <= f(p, t) <= 1.0
    witness (p: int, t: real) => 0.0

  datatype StereoFrame = StereoFrame(left: real, right: real)

  // ---------------------------------------------------------------------------
  // Pure synthesis
  // ---------------------------------------------------------------------------

  /** A note sounds from its start (included) to its end (excluded). */
  predicate Sounding(n: MidiNote, t: real)
  {
    n.startTime <= t < n.startTime + n.duration
  }

  /** Linear fade over the first and last 50 ms of a sounding note; the fade-in wins on short notes. */
  function Envelope(t: real, start: real, end: real): (e: real)
    requires start <= t < end
    ensures 0.0 <= e <= 1.0
    ensures t - start >= FadeTime && end - t >= FadeTime ==> e == 1.0
  {
    if t - start < FadeTime then (t - start) / FadeTime
    else if end - t < FadeTime then (end - t) / FadeTime
    else 1.0
  }

  /**
   * The three lanes are panned symmetrically (lane 0 left, lane 1 centre,
   * lane 2 right) and at the same overall gain of 1.2; any other lane is
   * centred at gain 1.
   */
  lemma {:induction false} PanSymmetric(s: real)
    ensures var z := Mix(0.0, 0.0, 0);
      Pan(z, s, 0).left == Pan(z, s, 2).right && Pan(z, s, 0).right == Pan(z, s, 2).left &&
      Pan(z, s, 1).left == Pan(z, s, 1).right
    ensures forall lane :: 0 <= lane < 3 ==> Pan(Mix(0.0, 0.0, 0), s, lane).left + Pan(Mix(0.0, 0.0, 0), s, lane).right == 1.2 * s
    ensures forall lane :: (lane < 0 || lane >= 3) ==> Pan(Mix(0.0, 0.0, 0), s, lane) == Mix(0.5 * s, 0.5 * s, 1)
  {
  }

  /** The running sums of synthesizeAtTime: both channels and the number of sources counted so far. */
  datatype Mix = Mix(left: real, right: real, count: nat)

  /** The mix before any note: the test tone during the first two seconds, silence after. */
  function TestTone(t: real, osc: Oscillator): (m: Mix)
    ensures m.count == (if 0.0 <= t < TestToneEnd then 1 else 0)
  {
    if 0.0 <= t < TestToneEnd then
      var s := Amplitude * osc(TestTonePitch, t);
      Mix(s, s, 1)
    else Mix(0.0, 0.0, 0)
  }

  /**
   * One note's contribution. A sounding note raises the count first and is
   * then divided by the count so far, not by the number of notes that will
   * sound in total.
   */
  function Contribute(m: Mix, n: MidiNote, t: real, osc: Oscillator): (r: Mix)
    ensures r.count == m.count + (if Sounding(n, t) then 1 else 0)
    ensures !Sounding(n, t) ==> r == m
  {
    if !Sounding(n, t) then m
    else Pan(m, Share(NoteSample(n, t, osc), m.count + 1), n.lane)
  }

  /** A sounding note's sample before the divisor: amplitude, envelope and oscillator. */
  function NoteSample(n: MidiNote, t: real, osc: Oscillator): real
    requires Sounding(n, t)
  {
    Amplitude * Envelope(t, n.startTime, n.startTime + n.duration) * osc(n.pitch, t)
  }

  /** The running divisor: the sample over the count so far, once there is more than one source. */
  function Share(sample: real, count: nat): real
  {
    if count > 1 then sample / count as real else sample
  }

  /**
   * A share added to both channels by the lane's weights (left, centre,
   * right, and centre-quiet for any other lane), counting one more source.
   */
  function Pan(m: Mix, share: real, lane: int): (r: Mix)
    ensures r.count == m.count + 1
  {
    if lane == 0 then Mix(m.left + share * 0.8, m.right + share * 0.4, m.count + 1)
    else if lane == 1 then Mix(m.left + share * 0.6, m.right + share * 0.6, m.count + 1)
    else if lane == 2 then Mix(m.left + share * 0.4, m.right + share * 0.8, m.count + 1)
    else Mix(m.left + share * 0.5, m.right + share * 0.5, m.count + 1)
  }

  /** The mix over the first `k` notes. */
  function MixPrefix(notes: seq<MidiNote>, k: nat, t: real, osc: Oscillator): Mix
    requires k <= |notes|
  {
    if k == 0 then TestTone(t, osc)
    else Contribute(MixPrefix(notes, k - 1, t, osc), notes[k - 1], t, osc)
  }

  /** Hard clip to [-1, 1]. */
  function Clip(x: real): (r: real)
    ensures -1.0 <= r <= 1.0
    ensures -1.0 <= x <= 1.0 ==> r == x
    ensures x > 1.0 ==> r == 1.0
    ensures x < -1.0 ==> r == -1.0
  {
    if x > 1.0 then 1.0 else if x < -1.0 then -1.0 else x
  }

  /** The frame synthesizeAtTime returns at time `t`. */
  function Synthesized(notes: seq<MidiNote>, t: real, osc: Oscillator): (r: StereoFrame)
    ensures -1.0 <= r.left <= 1.0 && -1.0 <= r.right <= 1.0
  {
    var m := MixPrefix(notes, |notes|, t, osc);
    StereoFrame(Clip(m.left), Clip(m.right))
  }

  /** The notes sounding at time `t`, in order. */
  function SoundingAt(notes: seq<MidiNote>, t: real): (r: seq<MidiNote>)
    ensures |r| <= |notes|
    ensures forall n :: n in r ==> n in notes && Sounding(n, t)
  {
    if notes == [] then []
    else
      var rest := SoundingAt(notes[..|notes| - 1], t);
      if Sounding(notes[|notes| - 1], t) then rest + [notes[|notes| - 1]] else rest
  }

  /** Notes that are not sounding have no effect at all: the mix is that of the sounding notes alone. */
  lemma {:induction false} SilentNotesIgnored(notes: seq<MidiNote>, t: real, osc: Oscillator)
    ensures MixPrefix(notes, |notes|, t, osc) == MixPrefix(SoundingAt(notes, t), |SoundingAt(notes, t)|, t, osc)
  {
    if notes != [] {
      var init := notes[..|notes| - 1];
      var last := notes[|notes| - 1];
      SilentNotesIgnored(init, t, osc);
      MixPrefixOfInit(notes, t, osc);
      var rest := SoundingAt(init, t);
      if Sounding(last, t) {
        MixPrefixOfInit(rest + [last], t, osc);
        assert (rest + [last])[..|rest|] == rest;
      }
    }
  }

  lemma MixPrefixOfInit(notes: seq<MidiNote>, t: real, osc: Oscillator)
    requires notes != []
    ensures MixPrefix(notes, |notes| - 1, t, osc) == MixPrefix(notes[..|notes| - 1], |notes| - 1, t, osc)
  {
    MixPrefixAgrees(notes, notes[..|notes| - 1], |notes| - 1, t, osc);
  }

  lemma {:induction false} MixPrefixAgrees(a: seq<MidiNote>, b: seq<MidiNote>, k: nat, t: real, osc: Oscillator)
    requires k <= |a| && k <= |b| && a[..k] == b[..k]
    ensures MixPrefix(a, k, t, osc) == MixPrefix(b, k, t, osc)
  {
    if k > 0 {
      assert a[..k - 1] == a[..k][..k - 1];
      assert b[..k - 1] == b[..k][..k - 1];
      assert a[k - 1] == a[..k][k - 1];
      assert b[k - 1] == b[..k][k - 1];
      MixPrefixAgrees(a, b, k - 1, t, osc);
    }
  }

  /** The divisor counts the test tone and every sounding note. */
  lemma {:induction false} MixCount(notes: seq<MidiNote>, t: real, osc: Oscillator)
    ensures MixPrefix(notes, |notes|, t, osc).count
         == (if 0.0 <= t < TestToneEnd then 1 else 0) + |SoundingAt(notes, t)|
  {
    if notes != [] {
      MixPrefixOfInit(notes, t, osc);
      MixCount(notes[..|notes| - 1], t, osc);
    }
  }

  /**
   * The running divisor: two identical centre-lane notes past the test tone,
   * with a constant oscillator, give 0.12 for the first and 0.06 for the
   * second, 0.18 in all, where an even split would give 0.12.
   */
  lemma RunningDivisorExample()
    ensures var n := MidiNote(60, 100, 2.5, 1.0, 1);
            Synthesized([n, n], 3.0, (p: int, t: real) => 1.0) == StereoFrame(0.18, 0.18)
  {
    var n := MidiNote(60, 100, 2.5, 1.0, 1);
    var osc: Oscillator := (p: int, t: real) => 1.0;
    assert Envelope(3.0, 2.5, 3.5) == 1.0;
    assert MixPrefix([n, n], 0, 3.0, osc) == Mix(0.0, 0.0, 0);
    assert MixPrefix([n, n], 1, 3.0, osc) == Mix(0.12, 0.12, 1);
    assert MixPrefix([n, n], 2, 3.0, osc) == Mix(0.18, 0.18, 2);
  }

  /** Clamps a volume to [0, 1]. */
  function ClampVolume(v: real): (r: real)
    ensures 0.0 <= r <= 1.0
    ensures 0.0 <= v <= 1.0 ==> r == v
    ensures v < 0.0 ==> r == 0.0
    ensures v > 1.0 ==> r == 1.0
  {
    if v < 0.0 then 0.0 else if v > 1.0 then 1.0 else v
  }

  /** The body of synthesizeAtTime's note loop: envelope, running divisor, pan. */
  method MixNote(note: MidiNote, t: real, osc: Oscillator, left0: real, right0: real, count0: nat)
    returns (left: real, right: real, activeNoteCount: nat)
    ensures Mix(left, right, activeNoteCount) == Contribute(Mix(left0, right0, count0), note, t, osc)
  {
    left, right, activeNoteCount := left0, right0, count0;
    var noteStart := note.startTime;
    var noteEnd := note.startTime + note.duration;
    if t >= noteStart && t < noteEnd {
      activeNoteCount := activeNoteCount + 1;
      var envelope := Fade(t, noteStart, noteEnd);
      var sample := Amplitude * envelope * osc(note.pitch, t);
      NoteSampleIs(note, t, osc, envelope);
      ghost var raw := sample;
      if activeNoteCount > 1 {
        sample := sample / activeNoteCount as real;
      }
      assert sample == Share(raw, activeNoteCount);
      left, right := PanSample(Mix(left0, right0, count0), sample, note.lane);
    }
  }

  lemma NoteSampleIs(n: MidiNote, t: real, osc: Oscillator, envelope: real)
    requires Sounding(n, t) && envelope == Envelope(t, n.startTime, n.startTime + n.duration)
    ensures NoteSample(n, t, osc) == Amplitude * envelope * osc(n.pitch, t)
  {
  }

  /** The fade computation of synthesizeAtTime. */
  method Fade(t: real, noteStart: real, noteEnd: real) returns (envelope: real)
    requires noteStart <= t < noteEnd
    ensures envelope == Envelope(t, noteStart, noteEnd)
  {
    envelope := 1.0;
    if t - noteStart < FadeTime {
      envelope := (t - noteStart) / FadeTime;
    } else if noteEnd - t < FadeTime {
      envelope := (noteEnd - t) / FadeTime;
    }
  }

  /** The panning switch of synthesizeAtTime. */
  method PanSample(m: Mix, sample: real, lane: int) returns (left: real, right: real)
    ensures Mix(left, right, m.count + 1) == Pan(m, sample, lane)
  {
    var left0, right0 := m.left, m.right;
    if lane == 0 {
      left, right := left0 + sample * 0.8, right0 + sample * 0.4;
    } else if lane == 1 {
      left, right := left0 + sample * 0.6, right0 + sample * 0.6;
    } else if lane == 2 {
      left, right := left0 + sample * 0.4, right0 + sample * 0.8;
    } else {
      left, right := left0 + sample * 0.5, right0 + sample * 0.5;
    }
  }

  // ---------------------------------------------------------------------------
  // The streamer
  // ---------------------------------------------------------------------------

  class MidiAudioStreamer {
    const notes: seq<MidiNote>
    const sampleRate: int := SampleRate
    var currentSample: int
    /** The playback start time; None is Go's zero time. */
    var startTime: Option<real>

    constructor (notes: seq<MidiNote>)
      ensures this.notes == notes && sampleRate == SampleRate
      ensures currentSample == 0 && startTime == None
    {
      this.notes := notes;
      currentSample := 0;
      startTime := None;
    }

    /** synthesizeAtTime: the mixing loop, then the hard clip. */
    method SynthesizeAtTime(t: real, osc: Oscillator) returns (left: real, right: real)
      ensures StereoFrame(left, right) == Synthesized(notes, t, osc)
      ensures -1.0 <= left <= 1.0 && -1.0 <= right <= 1.0
    {
      left, right := 0.0, 0.0;
      var activeNoteCount: nat := 0;
      if 0.0 <= t < TestToneEnd {
        var testSample := Amplitude * osc(TestTonePitch, t);
        left := left + testSample;
        right := right + testSample;
        activeNoteCount := 1;
      }
      for k := 0 to |notes|
        invariant Mix(left, right, activeNoteCount) == MixPrefix(notes, k, t, osc)
      {
        left, right, activeNoteCount := MixNote(notes[k], t, osc, left, right, activeNoteCount);
      }
      if left > 1.0 {
        left := 1.0;
      } else if left < -1.0 {
        left := -1.0;
      }
      if right > 1.0 {
        right := 1.0;
      } else if right < -1.0 {
        right := -1.0;
      }
    }

    /**
     * Stream: with no start time, nothing is written and the stream reports
     * false. Otherwise frame i holds the synthesis at the elapsed time plus
     * i samples, and the sample counter advances by the buffer's length.
     */
    method Stream(samples: array<StereoFrame>, now: real, osc: Oscillator) returns (n: int, ok: bool)
      modifies samples, this`currentSample
      ensures startTime.None? ==> n == 0 && !ok && samples[..] == old(samples[..]) && currentSample == old(currentSample)
      ensures startTime.Some? ==>
        n == samples.Length && ok && currentSample == old(currentSample) + samples.Length &&
        forall i :: 0 <= i < samples.Length ==>
          samples[i] == Synthesized(notes, now - startTime.value + i as real / sampleRate as real, osc)
    {
      if startTime.None? {
        return 0, false;
      }
      var currentTime := now - startTime.value;
      for i := 0 to samples.Length
        invariant currentSample == old(currentSample) + i
        invariant forall j :: 0 <= j < i ==>
          samples[j] == Synthesized(notes, currentTime + j as real / sampleRate as real, osc)
      {
        var sampleTime := currentTime + i as real / sampleRate as real;
        var left, right := SynthesizeAtTime(sampleTime, osc);
        samples[i] := StereoFrame(left, right);
        currentSample := currentSample + 1;
      }
      return samples.Length, true;
    }
  }

  // ---------------------------------------------------------------------------
  // The manager
  // ---------------------------------------------------------------------------

  class AudioManager {
    const sampleRate: int := SampleRate
    var isInitialized: bool
    var isPlaying: bool
    var volume: real
    var musicStream: MidiAudioStreamer?
    var currentTime: real
    /** The playback start time; None is Go's zero time. */
    var startTime: Option<real>

    /** NewAudioManager */
    constructor ()
      ensures sampleRate == SampleRate && volume == 1.0
      ensures !isInitialized && !isPlaying && musicStream == null && currentTime == 0.0 && startTime == None
    {
      isInitialized := false;
      isPlaying := false;
      volume := 1.0;
      musicStream := null;
      currentTime := 0.0;
      startTime := None;
    }

    /** Initialize, given whether the speaker could be opened. */
    method Initialize(speakerOk: bool) returns (failed: bool)
      modifies this`isInitialized
      ensures failed == !speakerOk
      ensures isInitialized == (old(isInitialized) || speakerOk)
    {
      if !speakerOk {
        return true;
      }
      isInitialized := true;
      failed := false;
    }

    /** LoadMIDITrack: refused before initialization; otherwise a fresh stream over the notes. */
    method LoadMidiTrack(notes: seq<MidiNote>) returns (failed: bool)
      modifies this`musicStream
      ensures failed == !isInitialized
      ensures failed ==> musicStream == old(musicStream)
      ensures !failed ==> musicStream != null && fresh(musicStream) && musicStream.notes == notes &&
                          musicStream.sampleRate == sampleRate &&
                          musicStream.currentSample == 0 && musicStream.startTime == None
    {
      if !isInitialized {
        return true;
      }
      musicStream := new MidiAudioStreamer(notes);
      failed := false;
    }

    /**
     * StartPlayback: an error without initialization or stream; nothing to do
     * when already playing; otherwise both start times are set to `now`, the
     * sample counter is reset and playback is on.
     */
    method StartPlayback(now: real) returns (failed: bool)
      modifies this`isPlaying, this`startTime, musicStream
      ensures failed <==> !isInitialized || musicStream == null
      ensures failed || old(isPlaying) ==>
        isPlaying == old(isPlaying) && startTime == old(startTime) &&
        (musicStream != null ==> unchanged(musicStream))
      ensures !failed && !old(isPlaying) ==>
        isPlaying && startTime == Some(now) &&
        musicStream.startTime == Some(now) && musicStream.currentSample == 0
    {
      if !isInitialized || musicStream == null {
        return true;
      }
      if isPlaying {
        return false;
      }
      startTime := Some(now);
      musicStream.startTime := startTime;
      musicStream.currentSample := 0;
      isPlaying := true;
      failed := false;
    }

    /** StopPlayback: playback is off afterwards; a second stop changes nothing. */
    method StopPlayback()
      modifies this`isPlaying
      ensures !isPlaying
    {
      if isPlaying {
        isPlaying := false;
      }
    }

    /** Update: the playback clock moves only while playing with a start time set. */
    method Update(now: real)
      modifies this`currentTime
      ensures isPlaying && startTime.Some? ==> currentTime == now - startTime.value
      ensures !(isPlaying && startTime.Some?) ==> currentTime == old(currentTime)
    {
      if isPlaying && startTime.Some? {
        currentTime := now - startTime.value;
      }
    }

    /** SetVolume stores the requested volume clamped to [0, 1]. */
    method SetVolume(v: real)
      modifies this`volume
      ensures volume == ClampVolume(v)
    {
      var clamped := v;
      if clamped < 0.0 {
        clamped := 0.0;
      } else if clamped > 1.0 {
        clamped := 1.0;
      }
      volume := clamped;
    }

    /** Cleanup is StopPlayback. */
    method Cleanup()
      modifies this`isPlaying
      ensures !isPlaying
    {
      StopPlayback();
    }
  }

  /** Setting the volume twice is setting it once. */
  lemma ClampVolumeIdempotent(v: real)
    ensures ClampVolume(ClampVolume(v)) == ClampVolume(v)
  {
  }
}
