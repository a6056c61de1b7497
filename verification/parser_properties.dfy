/**
 * Properties of the chart parser's pure specification: variable-length
 * quantities (a reference encoder and the round trip through the reader), the
 * header rule, and what the scan of one track can emit.
 */
module ParserProperties {
  import opened Notes
  import opened MidiParser

  // ---------------------------------------------------------------------------
  // Variable-length quantities
  // ---------------------------------------------------------------------------

  lemma VlqExamples()
    ensures ReadVlq([0x7F], 0) == VlqOk(127, 1)
    ensures ReadVlq([0x81, 0x00], 0) == VlqOk(128, 2)
    ensures ReadVlq([0xFF, 0x7F], 0) == VlqOk(16383, 2)
    ensures ReadVlq([0x81, 0x80, 0x80, 0x80, 0x00], 0) == VlqOk(0x20_0000, 4)
    ensures ReadVlq([0x81, 0x80], 0) == VlqEnd(2)
  {
  }

  /** The reader fails exactly when the data ends before a terminating byte or the fourth byte. */
  lemma {:induction false} VlqFromEndIff(data: seq<Byte>, pos: int, i: nat, acc: nat)
    requires 0 <= pos && i <= 4 && (i < 4 || pos <= |data|)
    ensures VlqFrom(data, pos, i, acc).VlqEnd?
        <==> (|data| - pos < 4 - i && forall j :: pos <= j < |data| ==> data[j] >= 128)
    decreases 4 - i
  {
    if i < 4 && pos < |data| && data[pos] >= 128 {
      VlqFromEndIff(data, pos + 1, i + 1, acc * 128 + data[pos] % 128);
    }
  }

  lemma ReadVlqEndIff(data: seq<Byte>, pos: int)
    requires 0 <= pos
    ensures ReadVlq(data, pos).VlqEnd?
        <==> (|data| - pos < 4 && forall j :: pos <= j < |data| ==> data[j] >= 128)
  {
    VlqFromEndIff(data, pos, 0, 0);
  }

  /** A successful read consumes continuation bytes up to the first byte with bit 7 clear, or four bytes. */
  lemma {:induction false} VlqFromStops(data: seq<Byte>, pos: int, i: nat, acc: nat)
    requires 0 <= pos && i < 4 && VlqFrom(data, pos, i, acc).VlqOk?
    ensures var n := VlqFrom(data, pos, i, acc).next;
            n <= |data| &&
            (forall j :: pos <= j < n - 1 ==> data[j] >= 128) &&
            (n < pos + (4 - i) ==> data[n - 1] < 128)
    decreases 4 - i
  {
    var b := data[pos];
    if b >= 128 && i + 1 < 4 {
      VlqFromStops(data, pos + 1, i + 1, acc * 128 + b % 128);
    }
  }

  lemma ReadVlqStops(data: seq<Byte>, pos: int)
    requires 0 <= pos && ReadVlq(data, pos).VlqOk?
    ensures var n := ReadVlq(data, pos).next;
            n <= |data| &&
            (forall j :: pos <= j < n - 1 ==> data[j] >= 128) &&
            (n < pos + 4 ==> data[n - 1] < 128)
  {
    VlqFromStops(data, pos, 0, 0);
  }

  /** Base-128 digits of `v`, most significant first, without leading zeros. */
  function Septets(v: nat): (ds: seq<int>)
    ensures |ds| >= 1 && forall k :: 0 <= k < |ds| ==> 0 <= ds[k] < 128
    decreases v
  {
    if v < 128 then [v] else Septets(v / 128) + [v % 128]
  }

  /** Digits read into an accumulator, 7 bits at a time. */
  function Horner(acc: nat, ds: seq<int>): nat
    requires forall k :: 0 <= k < |ds| ==> 0 <= ds[k] < 128
    decreases |ds|
  {
    if ds == [] then acc else Horner(acc * 128 + ds[0], ds[1..])
  }

  /** Sets bit 7 on every digit but the last. */
  function Marked(ds: seq<int>): (bytes: seq<Byte>)
    requires forall k :: 0 <= k < |ds| ==> 0 <= ds[k] < 128
    ensures |bytes| == |ds|
    decreases |ds|
  {
    if |ds| <= 1 then ds else [ds[0] + 128] + Marked(ds[1..])
  }

  /** The standard encoding of a variable-length quantity. */
  function EncodeVlq(v: nat): seq<Byte>
  {
    Marked(Septets(v))
  }

  lemma {:induction false} HornerAppend(acc: nat, ds: seq<int>, d: int)
    requires forall k :: 0 <= k < |ds| ==> 0 <= ds[k] < 128
    requires 0 <= d < 128
    ensures Horner(acc, ds + [d]) == Horner(acc, ds) * 128 + d
    decreases |ds|
  {
    if ds == [] {
      assert Horner(acc, [d]) == Horner(acc * 128 + d, []);
    } else {
      assert (ds + [d])[1..] == ds[1..] + [d];
      HornerAppend(acc * 128 + ds[0], ds[1..], d);
    }
  }

  lemma {:induction false} SeptetsValue(v: nat)
    ensures Horner(0, Septets(v)) == v
    ensures v < 0x80 ==> |Septets(v)| <= 1
    ensures v < 0x4000 ==> |Septets(v)| <= 2
    ensures v < 0x20_0000 ==> |Septets(v)| <= 3
    ensures v < 0x1000_0000 ==> |Septets(v)| <= 4
    decreases v
  {
    if v >= 128 {
      assert v < 0x4000 ==> v / 128 < 0x80;
      assert v < 0x20_0000 ==> v / 128 < 0x4000;
      assert v < 0x1000_0000 ==> v / 128 < 0x20_0000;
      SeptetsValue(v / 128);
      HornerAppend(0, Septets(v / 128), v % 128);
    } else {
      assert Horner(0, [v]) == Horner(v, []);
    }
  }

  lemma {:induction false} ReadMarked(data: seq<Byte>, pos: int, i: nat, acc: nat, ds: seq<int>)
    requires forall k :: 0 <= k < |ds| ==> 0 <= ds[k] < 128
    requires 0 <= pos && 1 <= |ds| && i + |ds| <= 4
    requires pos + |ds| <= |data| && data[pos..pos + |ds|] == Marked(ds)
    ensures VlqFrom(data, pos, i, acc) == VlqOk(Horner(acc, ds), pos + |ds|)
    decreases |ds|
  {
    assert data[pos] == Marked(ds)[0];
    if |ds| == 1 {
      assert Horner(acc, ds) == Horner(acc * 128 + ds[0], []);
    } else {
      assert data[pos + 1..pos + |ds|] == data[pos..pos + |ds|][1..];
      ReadMarked(data, pos + 1, i + 1, acc * 128 + ds[0], ds[1..]);
    }
  }

  /** Round trip: reading the encoding of a value below 2^28 gives back the value and the position after it. */
  lemma VlqRoundTrip(v: nat, data: seq<Byte>, pos: int)
    requires v < 0x1000_0000 && 0 <= pos
    requires pos + |EncodeVlq(v)| <= |data| && data[pos..pos + |EncodeVlq(v)|] == EncodeVlq(v)
    ensures ReadVlq(data, pos) == VlqOk(v, pos + |EncodeVlq(v)|)
    ensures 1 <= |EncodeVlq(v)| <= 4
  {
    SeptetsValue(v);
    ReadMarked(data, pos, 0, 0, Septets(v));
  }

  // ---------------------------------------------------------------------------
  // Header
  // ---------------------------------------------------------------------------

  /** The declared header length (bytes 4 to 7) has no effect on the header's outcome. */
  lemma HeaderDivisionIgnoresLength(data: seq<Byte>, other: seq<Byte>)
    requires |data| == |other|
    requires forall j :: 0 <= j < |data| && !(4 <= j < 8) ==> data[j] == other[j]
    ensures HeaderDivision(data) == HeaderDivision(other)
  {
    if |data| >= 14 {
      assert data[..4] == other[..4];
    }
  }

  // ---------------------------------------------------------------------------
  // What a track scan emits
  // ---------------------------------------------------------------------------

  /** A note as the parser can emit it: byte-sized pitch and velocity, no negative times, lane not yet assigned. */
  predicate WellFormedNote(n: MidiNote)
  {
    0 <= n.pitch < 256 && 0 < n.velocity < 256 && n.startTime >= 0.0 && n.duration >= 0.0 && n.lane == 0
  }

  /** An open entry as a Note-On with velocity above 0 creates it. */
  predicate WellFormedOpen(o: OpenNote)
  {
    0 < o.velocity < 256 && o.startTime >= 0.0
  }

  /** The scan invariant: open notes started no later than the current tick, closed notes are well formed. */
  ghost predicate Sane(s: ScanState, tempo: int, ticksPerBeat: int)
    requires ticksPerBeat > 0
  {
    s.tick >= 0 &&
    (forall p :: p in s.open ==> WellFormedOpen(s.open[p]) && s.open[p].startTime <= TicksToSeconds(s.tick, tempo, ticksPerBeat)) &&
    (forall n :: n in s.notes ==> WellFormedNote(n))
  }

  lemma TicksToSecondsMonotone(t1: int, t2: int, tempo: int, ticksPerBeat: int)
    requires 0 <= t1 <= t2 && tempo >= 0 && ticksPerBeat > 0
    ensures 0.0 <= TicksToSeconds(t1, tempo, ticksPerBeat) <= TicksToSeconds(t2, tempo, ticksPerBeat)
  {
    var rate := tempo as real / (ticksPerBeat as real * 1000000.0);
    assert rate >= 0.0;
    assert t1 as real * rate <= t2 as real * rate;
  }

  lemma DispatchSane(data: seq<Byte>, trackEnd: int, tempo: int, ticksPerBeat: int, s: ScanState, status: Byte)
    requires ticksPerBeat > 0 && 0 <= s.pos && tempo >= 0
    requires Sane(s, tempo, ticksPerBeat)
    requires Dispatch(data, trackEnd, tempo, ticksPerBeat, s, status).Ok?
    ensures var s2 := Dispatch(data, trackEnd, tempo, ticksPerBeat, s, status).value;
            Sane(s2, tempo, ticksPerBeat) && s2.tick == s.tick && s.notes <= s2.notes
  {
    TicksToSecondsMonotone(0, s.tick, tempo, ticksPerBeat);
  }

  lemma StepSane(data: seq<Byte>, trackEnd: int, tempo: int, ticksPerBeat: int, s: ScanState)
    requires ticksPerBeat > 0 && 0 <= s.pos < trackEnd && tempo >= 0
    requires Sane(s, tempo, ticksPerBeat)
    requires !Step(data, trackEnd, tempo, ticksPerBeat, s).StepOutOfRange?
    ensures var s2 := Step(data, trackEnd, tempo, ticksPerBeat, s).state;
            Sane(s2, tempo, ticksPerBeat) && s.notes <= s2.notes
  {
    match ReadVlq(data, s.pos)
    case VlqEnd(p) =>
    case VlqOk(delta, p) =>
      var tick := s.tick + delta;
      TicksToSecondsMonotone(s.tick, tick, tempo, ticksPerBeat);
      var s1 := s.(pos := p, tick := tick);
      assert Sane(s1, tempo, ticksPerBeat);
      if p < trackEnd && p < |data| {
        var eventByte := data[p];
        var status: Byte := if eventByte >= 0x80 then eventByte else s.running;
        var q := if eventByte >= 0x80 then p + 1 else p;
        DispatchSane(data, trackEnd, tempo, ticksPerBeat, s1.(pos := q, running := status), status);
      }
  }

  lemma {:induction false} ScanSane(data: seq<Byte>, trackEnd: int, tempo: int, ticksPerBeat: int, s: ScanState)
    requires ticksPerBeat > 0 && 0 <= s.pos && tempo >= 0
    requires Sane(s, tempo, ticksPerBeat)
    requires Scan(data, trackEnd, tempo, ticksPerBeat, s).Ok?
    ensures var s2 := Scan(data, trackEnd, tempo, ticksPerBeat, s).value;
            Sane(s2, tempo, ticksPerBeat) && s.notes <= s2.notes
    decreases trackEnd - s.pos
  {
    if s.pos < trackEnd {
      StepSane(data, trackEnd, tempo, ticksPerBeat, s);
      match Step(data, trackEnd, tempo, ticksPerBeat, s)
      case Continue(s1) => ScanSane(data, trackEnd, tempo, ticksPerBeat, s1);
      case Stop(s1) =>
    }
  }

  /** A track's summary as the scan leaves it. */
  ghost predicate SaneSummary(t: TrackSummary)
  {
    (forall n :: n in t.closed ==> WellFormedNote(n)) &&
    (forall p :: p in t.open ==> WellFormedOpen(t.open[p]))
  }

  lemma TrackSane(data: seq<Byte>, pos: int, tempo: int, ticksPerBeat: int)
    requires 0 <= pos && ticksPerBeat > 0 && tempo >= 0
    requires ParseTrackSpec(data, pos, tempo, ticksPerBeat).TrackOk?
    ensures SaneSummary(ParseTrackSpec(data, pos, tempo, ticksPerBeat).summary)
  {
    var trackEnd := TrackBounds(data, pos).value;
    ScanSane(data, trackEnd, tempo, ticksPerBeat, InitialScan(pos + 8));
  }

  /** Whatever order the open notes come out in, every note a track emits is well formed. */
  lemma EmittedNotesWellFormed(t: TrackSummary, notes: seq<MidiNote>)
    requires SaneSummary(t) && EmitsTrack(t, notes)
    ensures forall n :: n in notes ==> WellFormedNote(n)
  {
    forall n | n in notes
      ensures WellFormedNote(n)
    {
      var k :| 0 <= k < |notes| && notes[k] == n;
      if k < |t.closed| {
        assert notes[..|t.closed|][k] == n;
      } else {
        var tail := notes[|t.closed|..];
        assert tail[k - |t.closed|] == n;
        assert n in multiset(tail);
        assert n in OpenTail(t.open);
      }
    }
  }

  lemma {:induction false} TrackListSane(data: seq<Byte>, pos: int, tempo: int, ticksPerBeat: int)
    requires 0 <= pos && ticksPerBeat > 0 && tempo >= 0
    ensures forall t :: t in TrackList(data, pos, tempo, ticksPerBeat).0 ==> SaneSummary(t)
    decreases |data| - pos
  {
    if pos < |data| {
      match ParseTrackSpec(data, pos, tempo, ticksPerBeat)
      case TrackFailed(_) =>
      case TrackOutOfRange =>
      case TrackOk(trackEnd, t) =>
        TrackSane(data, pos, tempo, ticksPerBeat);
        TrackListSane(data, trackEnd, tempo, ticksPerBeat);
    }
  }

  lemma {:induction false} EmitsTracksWellFormed(ts: seq<TrackSummary>, notes: seq<MidiNote>)
    requires EmitsTracks(ts, notes)
    requires forall t :: t in ts ==> SaneSummary(t)
    ensures forall n :: n in notes ==> WellFormedNote(n)
    decreases |ts|
  {
    if ts != [] {
      var k := |notes| - TrackSize(ts[|ts| - 1]);
      EmitsTracksWellFormed(ts[..|ts| - 1], notes[..k]);
      EmittedNotesWellFormed(ts[|ts| - 1], notes[k..]);
      assert notes == notes[..k] + notes[k..];
    }
  }

  /**
   * Every note the parser returns for a file has a byte-sized pitch, a
   * velocity in 1..255, and no negative start time or duration.
   */
  lemma ParsedNotesWellFormed(data: seq<Byte>, tempo: int, notes: seq<MidiNote>, outcome: Outcome)
    requires tempo >= 0 && ParsedFile(data, tempo, notes, outcome) && outcome == Done
    ensures forall n :: n in notes ==> WellFormedNote(n)
  {
    match HeaderDivision(data)
    case Failure(_) =>
    case Success(division) =>
      TrackListSane(data, 14, tempo, division);
      EmitsTracksWellFormed(TrackList(data, 14, tempo, division).0, notes);
  }

  // ---------------------------------------------------------------------------
  // A worked chart
  // ---------------------------------------------------------------------------

  /**
   * A one-track file at 480 ticks per beat: Note-On 60 velocity 100, then 240
   * ticks later a running-status Note-On 60 velocity 0, then the end-of-track
   * meta event 00 FF 2F 00.
   */
  const ExampleChart: seq<Byte> := [
    0x4D, 0x54, 0x68, 0x64, 0x00, 0x00, 0x00, 0x06, 0x00, 0x00, 0x00, 0x01, 0x01, 0xE0,
    0x4D, 0x54, 0x72, 0x6B, 0x00, 0x00, 0x00, 0x0C,
    0x00, 0x90, 0x3C, 0x64,
    0x81, 0x70, 0x3C, 0x00,
    0x00, 0xFF, 0x2F, 0x00]

  /**
   * The chart yields one note of a quarter second. The running-status byte is
   * read as a pitch; the meta event's type byte 0x2F is then read as a delta
   * time and its length byte as a data byte under running status 0xFF.
   */
  const ExampleNote: MidiNote := MidiNote(60, 100, 0.0, 0.25, 0)

  /** The scan states of the example track after each event. */
  function ExampleState(k: nat): ScanState
  {
    if k == 0 then InitialScan(22)
    else if k == 1 then ScanState(26, 0, 0x90, map[60 := OpenNote(100, 0.0)], [])
    else if k == 2 then ScanState(30, 240, 0x90, map[], [ExampleNote])
    else if k == 3 then ScanState(32, 240, 0xFF, map[], [ExampleNote])
    else if k == 4 then ScanState(33, 287, 0xFF, map[], [ExampleNote])
    else ScanState(34, 287, 0xFF, map[], [ExampleNote])
  }

  lemma ExampleStep0()
    ensures Step(ExampleChart, 34, DefaultTempo, 480, ExampleState(0)) == Continue(ExampleState(1))
  {
    assert ReadVlq(ExampleChart, 22) == VlqOk(0, 23);
    assert ExampleChart[23] == 0x90 && ExampleChart[24] == 60 && ExampleChart[25] == 100;
    assert TicksToSeconds(0, DefaultTempo, 480) == 0.0;
    assert Dispatch(ExampleChart, 34, DefaultTempo, 480, ScanState(24, 0, 0x90, map[], []), 0x90)
        == Ok(ExampleState(1));
  }

  lemma ExampleStep1()
    ensures Step(ExampleChart, 34, DefaultTempo, 480, ExampleState(1)) == Continue(ExampleState(2))
  {
    assert ReadVlq(ExampleChart, 26) == VlqOk(240, 28);
    assert TicksToSeconds(240, DefaultTempo, 480) == 0.25;
  }

  lemma ExampleStep2()
    ensures Step(ExampleChart, 34, DefaultTempo, 480, ExampleState(2)) == Continue(ExampleState(3))
  {
    assert ReadVlq(ExampleChart, 30) == VlqOk(0, 31);
  }

  lemma ExampleStep3()
    ensures Step(ExampleChart, 34, DefaultTempo, 480, ExampleState(3)) == Continue(ExampleState(4))
  {
    assert ReadVlq(ExampleChart, 32) == VlqOk(0x2F, 33);
  }

  lemma ExampleStep4()
    ensures Step(ExampleChart, 34, DefaultTempo, 480, ExampleState(4)) == Stop(ExampleState(5))
  {
    assert ReadVlq(ExampleChart, 33) == VlqOk(0, 34);
  }

  lemma ExampleTrack()
    ensures ParseTrackSpec(ExampleChart, 14, DefaultTempo, 480) == TrackOk(34, TrackSummary([ExampleNote], map[]))
  {
    var data := ExampleChart;
    assert data[14..18] == TrackMagic;
    assert Be32(data, 18) == 12;
    assert TrackBounds(data, 14) == Success(34);
    ExampleStep4();
    assert Scan(data, 34, DefaultTempo, 480, ExampleState(4)) == Ok(ExampleState(5));
    ExampleStep3();
    assert Scan(data, 34, DefaultTempo, 480, ExampleState(3)) == Ok(ExampleState(5));
    ExampleStep2();
    assert Scan(data, 34, DefaultTempo, 480, ExampleState(2)) == Ok(ExampleState(5));
    ExampleStep1();
    assert Scan(data, 34, DefaultTempo, 480, ExampleState(1)) == Ok(ExampleState(5));
    ExampleStep0();
    assert Scan(data, 34, DefaultTempo, 480, ExampleState(0)) == Ok(ExampleState(5));
  }

  /**
   * The chart yields one note of a quarter second. The running-status byte is
   * read as a pitch; the meta event's type byte 0x2F is then read as a delta
   * time and its length byte as a data byte under running status 0xFF.
   */
  lemma ExampleChartParses(notes: seq<MidiNote>, outcome: Outcome)
    requires ParsedFile(ExampleChart, DefaultTempo, notes, outcome)
    ensures outcome == Done && notes == [ExampleNote]
  {
    ExampleHeader();
    ExampleTrackList();
    var t := TrackSummary([ExampleNote], map[]);
    assert EmitsTracks([t], notes);
    EmitsOneClosedTrack(t, notes);
  }

  lemma ExampleHeader()
    ensures HeaderDivision(ExampleChart) == Success(480)
  {
    assert ExampleChart[..4] == HeaderMagic;
  }

  lemma ExampleTrackList()
    ensures TrackList(ExampleChart, 14, DefaultTempo, 480) == ([TrackSummary([ExampleNote], map[])], Done)
  {
    var t := TrackSummary([ExampleNote], map[]);
    ExampleTrack();
    TrackListStep(ExampleChart, 14, DefaultTempo, 480);
    assert TrackList(ExampleChart, 34, DefaultTempo, 480) == ([], Done);
    assert [t] + [] == [t];
  }

  lemma EmitsOneClosedTrack(t: TrackSummary, notes: seq<MidiNote>)
    requires t.open == map[] && EmitsTracks([t], notes)
    ensures notes == t.closed
  {
    assert OpenTail(t.open) == {};
    var k := |notes| - TrackSize(t);
    assert [t][..0] == [];
    assert notes[..k] == [];
    assert notes == notes[k..];
  }
}
