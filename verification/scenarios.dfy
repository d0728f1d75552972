/** Small files worked through the converter, one behaviour each. */
module Scenarios {
  import opened Pitch
  import opened Timing
  import opened Midi
  import opened Gcode
  import opened Converter
  import opened Laws

  lemma Fold1(p: Player, m0: Message, channel: int, ticksPerBeat: int)
    requires ticksPerBeat > 0
    ensures TrackFold(p, [m0], channel, ticksPerBeat) == Step(p, m0.delta, m0, channel, ticksPerBeat)
  {
    TrackFoldSnoc(p, [], m0, channel, ticksPerBeat);
    assert [] + [m0] == [m0];
  }

  lemma Fold2(p: Player, m0: Message, m1: Message, channel: int, ticksPerBeat: int)
    requires ticksPerBeat > 0
    ensures TrackFold(p, [m0, m1], channel, ticksPerBeat)
         == Step(Step(p, m0.delta, m0, channel, ticksPerBeat), m0.delta + m1.delta, m1, channel, ticksPerBeat)
  {
    Fold1(p, m0, channel, ticksPerBeat);
    TrackFoldSnoc(p, [m0], m1, channel, ticksPerBeat);
    assert [m0] + [m1] == [m0, m1];
    assert EndTick([m0]) == m0.delta by { assert [m0][..0] == []; }
  }

  lemma Fold3(p: Player, m0: Message, m1: Message, m2: Message, channel: int, ticksPerBeat: int)
    requires ticksPerBeat > 0
    ensures TrackFold(p, [m0, m1, m2], channel, ticksPerBeat)
         == Step(Step(Step(p, m0.delta, m0, channel, ticksPerBeat), m0.delta + m1.delta, m1, channel, ticksPerBeat),
                 m0.delta + m1.delta + m2.delta, m2, channel, ticksPerBeat)
  {
    Fold2(p, m0, m1, channel, ticksPerBeat);
    TrackFoldSnoc(p, [m0, m1], m2, channel, ticksPerBeat);
    assert [m0, m1] + [m2] == [m0, m1, m2];
    assert EndTick([m0, m1]) == m0.delta + m1.delta by {
      assert [m0, m1][..1] == [m0];
      assert [m0][..0] == [];
      assert EndTick([m0]) == m0.delta;
    }
  }

  lemma Tracks1(p: Player, a: Track, channel: int, ticksPerBeat: int)
    requires ticksPerBeat > 0
    ensures TracksFold(p, [a], channel, ticksPerBeat) == TrackFold(p, a, channel, ticksPerBeat)
  {
    TracksSingle(p, a, channel, ticksPerBeat);
  }

  lemma Tracks2(p: Player, a: Track, b: Track, channel: int, ticksPerBeat: int)
    requires ticksPerBeat > 0
    ensures TracksFold(p, [a, b], channel, ticksPerBeat)
         == TrackFold(TrackFold(p, a, channel, ticksPerBeat), b, channel, ticksPerBeat)
  {
    TracksSingle(p, a, channel, ticksPerBeat);
    TracksFoldSnoc(p, [a], b, channel, ticksPerBeat);
    assert [a] + [b] == [a, b];
  }

  /** Middle C (note 60) and E above it (note 64). */
  lemma MiddleOctave()
    ensures Freq(60) == 261 && Freq(64) == 329
  {
    assert Pow2(5) == 32;
  }

  /** One beat of A4 at the default tempo and 480 ticks per beat is one
      440 Hz tone of 500 ms. */
  lemma OneBeatTone()
    ensures Tones([[NoteOn(0, 0, 69, 100), NoteOff(480, 0, 69, 64)]], 480, 0) == [Tone(440, 500)]
  {
    var a, b := NoteOn(0, 0, 69, 100), NoteOff(480, 0, 69, 64);
    Tracks1(Initial, [a, b], 0, 480);
    Fold2(Initial, a, b, 0, 480);
    var s1 := Step(Initial, 0, a, 0, 480);
    assert s1 == Initial.(pending := map[69 := 0]);
    FreqAnchors();
    DefaultBeat();
    assert Step(s1, 480, b, 0, 480).tones == [Tone(440, 500)];
  }

  lemma EmitOne(t: Tone)
    ensures Emit([t]) == [StartBanner, EnableSteppers, Beep(t.freq, t.ms), Pause, DisableSteppers, EndBanner]
  {
    assert [t][..0] == [];
  }

  /** ... and the whole program is six lines. */
  lemma OneBeatProgram()
    ensures Convert([[NoteOn(0, 0, 69, 100), NoteOff(480, 0, 69, 64)]], 480)
         == [StartBanner, EnableSteppers, Beep(440, 500), Pause, DisableSteppers, EndBanner]
  {
    OneBeatTone();
    EmitOne(Tone(440, 500));
  }

  /** Starts at ticks 0 and 10, end at tick 20: a single tone of the last
      10 ticks, not two. */
  lemma RetriggerOnce()
    ensures Tones([[NoteOn(0, 0, 60, 100), NoteOn(10, 0, 60, 100), NoteOff(10, 0, 60, 0)]], 480, 0)
         == [Tone(261, 10)]
  {
    var a, b, c := NoteOn(0, 0, 60, 100), NoteOn(10, 0, 60, 100), NoteOff(10, 0, 60, 0);
    Tracks1(Initial, [a, b, c], 0, 480);
    Fold3(Initial, a, b, c, 0, 480);
    var s1 := Step(Initial, 0, a, 0, 480);
    assert s1 == Initial.(pending := map[60 := 0]);
    var s2 := Step(s1, 10, b, 0, 480);
    assert s2 == Initial.(pending := map[60 := 10]);
    var s3 := Step(s2, 20, c, 0, 480);
    assert DurationMs(10, DefaultTempo, 480) == 10;
    MiddleOctave();
    assert s3.tones == [Tone(261, 10)];
  }

  /** A note end with no start before it yields nothing and is not an error. */
  lemma UnmatchedEnd()
    ensures Convert([[NoteOff(0, 0, 62, 64)]], 480) == Emit([])
  {
    var a := NoteOff(0, 0, 62, 64);
    Tracks1(Initial, [a], 0, 480);
    Fold1(Initial, a, 0, 480);
    assert Step(Initial, 0, a, 0, 480) == Initial;
  }

  /** A note left open at the end of the file yields nothing. */
  lemma UnclosedNote()
    ensures Convert([[NoteOn(0, 0, 64, 100)]], 480) == Emit([])
  {
    var a := NoteOn(0, 0, 64, 100);
    Tracks1(Initial, [a], 0, 480);
    Fold1(Initial, a, 0, 480);
    assert Step(Initial, 0, a, 0, 480).tones == [];
  }

  /** A tempo change between the start and the end of a note applies to the
      whole note: 480 ticks, the last 240 of them after a switch to 1 s per
      beat, last 1000 ms (not 250 + 500). */
  lemma TempoAtNoteEnd()
    ensures Tones([[NoteOn(0, 0, 69, 100), SetTempo(240, 1000000), NoteOff(240, 0, 69, 0)]], 480, 0)
         == [Tone(440, 1000)]
  {
    var a, b, c := NoteOn(0, 0, 69, 100), SetTempo(240, 1000000), NoteOff(240, 0, 69, 0);
    Tracks1(Initial, [a, b, c], 0, 480);
    Fold3(Initial, a, b, c, 0, 480);
    var s1 := Step(Initial, 0, a, 0, 480);
    assert s1 == Initial.(pending := map[69 := 0]);
    var s2 := Step(s1, 240, b, 0, 480);
    assert s2 == Player(1000000, map[69 := 0], []);
    FreqAnchors();
    WholeBeats(1, 1000000, 480);
    var s3 := Step(s2, 480, c, 0, 480);
    assert s3.tones == [Tone(440, 1000)];
  }

  /** Notes on another channel are ignored. */
  lemma OtherChannelIgnored()
    ensures Convert([[NoteOn(0, 1, 60, 100), NoteOff(480, 1, 60, 0)]], 480, 0) == Emit([])
  {
    var a, b := NoteOn(0, 1, 60, 100), NoteOff(480, 1, 60, 0);
    Tracks1(Initial, [a, b], 0, 480);
    Fold2(Initial, a, b, 0, 480);
    assert Step(Initial, 0, a, 0, 480) == Initial;
    assert Step(Initial, 480, b, 0, 480) == Initial;
  }

  /** A span too short for one millisecond is dropped: 1 tick at 960 ticks
      per beat is about 0.52 ms. */
  lemma ShortNoteDropped()
    ensures Tones([[NoteOn(0, 0, 60, 100), NoteOff(1, 0, 60, 0)]], 960, 0) == []
  {
    var a, b := NoteOn(0, 0, 60, 100), NoteOff(1, 0, 60, 0);
    Tracks1(Initial, [a, b], 0, 960);
    Fold2(Initial, a, b, 0, 960);
    var s1 := Step(Initial, 0, a, 0, 960);
    assert s1 == Initial.(pending := map[60 := 0]);
    assert DurationMs(1, DefaultTempo, 960) == 0;
    assert Step(s1, 1, b, 0, 960).tones == [];
  }

  /** A note started in one track is ended by a later track, whose ticks
      count from 0 again. */
  lemma EndedInLaterTrack()
    ensures Tones([[NoteOn(0, 0, 69, 100)], [NoteOff(480, 0, 69, 0)]], 480, 0) == [Tone(440, 500)]
  {
    var a, b := NoteOn(0, 0, 69, 100), NoteOff(480, 0, 69, 0);
    Tracks2(Initial, [a], [b], 0, 480);
    Fold1(Initial, a, 0, 480);
    var s1 := Step(Initial, 0, a, 0, 480);
    assert s1 == Initial.(pending := map[69 := 0]);
    Fold1(s1, b, 0, 480);
    FreqAnchors();
    DefaultBeat();
    assert Step(s1, 480, b, 0, 480).tones == [Tone(440, 500)];
  }

  /** Started at tick 960 of one track, ended at tick 480 of the next: the
      span is negative, so nothing is written, and the entry is gone. */
  lemma NegativeSpanAcrossTracks()
    ensures Tones([[NoteOn(960, 0, 60, 100)], [NoteOff(480, 0, 60, 0)]], 480, 0) == []
    ensures TracksFold(Initial, [[NoteOn(960, 0, 60, 100)], [NoteOff(480, 0, 60, 0)]], 0, 480).pending == map[]
  {
    var a, b := NoteOn(960, 0, 60, 100), NoteOff(480, 0, 60, 0);
    Tracks2(Initial, [a], [b], 0, 480);
    Fold1(Initial, a, 0, 480);
    var s1 := Step(Initial, 960, a, 0, 480);
    assert s1 == Initial.(pending := map[60 := 960]);
    Fold1(s1, b, 0, 480);
    NonPositiveSpan(-480, DefaultTempo, 480);
    var s2 := Step(s1, 480, b, 0, 480);
    assert s2.pending == map[] && s2.tones == [];
  }

  /** The first track of `TracksConcatenated`: note 60 from tick 100 to 480. */
  lemma FirstTrackTone()
    ensures TrackFold(Initial, [NoteOn(100, 0, 60, 100), NoteOff(380, 0, 60, 0)], 0, 480)
         == Player(DefaultTempo, map[], [Tone(261, 395)])
  {
    var a, b := NoteOn(100, 0, 60, 100), NoteOff(380, 0, 60, 0);
    Fold2(Initial, a, b, 0, 480);
    MiddleOctave();
    var s1 := Step(Initial, 100, a, 0, 480);
    assert s1 == Initial.(pending := map[60 := 100]);
    assert DurationMs(380, DefaultTempo, 480) == 395;
  }

  /** The second track of `TracksConcatenated`: note 64 from tick 0 to 480. */
  lemma SecondTrackTone(p: Player)
    requires p == Player(DefaultTempo, map[], [Tone(261, 395)])
    ensures TrackFold(p, [NoteOn(0, 0, 64, 100), NoteOff(480, 0, 64, 0)], 0, 480).tones
         == [Tone(261, 395), Tone(329, 500)]
  {
    var c, d := NoteOn(0, 0, 64, 100), NoteOff(480, 0, 64, 0);
    Fold2(p, c, d, 0, 480);
    MiddleOctave();
    DefaultBeat();
    var s3 := Step(p, 0, c, 0, 480);
    assert s3 == p.(pending := map[64 := 0]);
  }

  /** Tracks are written one after the other, not merged by time: the first
      track's tone comes first although the second track's note starts earlier. */
  lemma TracksConcatenated()
    ensures Tones([[NoteOn(100, 0, 60, 100), NoteOff(380, 0, 60, 0)],
                   [NoteOn(0, 0, 64, 100), NoteOff(480, 0, 64, 0)]], 480, 0)
         == [Tone(261, 395), Tone(329, 500)]
  {
    var a, b := NoteOn(100, 0, 60, 100), NoteOff(380, 0, 60, 0);
    var c, d := NoteOn(0, 0, 64, 100), NoteOff(480, 0, 64, 0);
    Tracks2(Initial, [a, b], [c, d], 0, 480);
    FirstTrackTone();
    SecondTrackTone(TrackFold(Initial, [a, b], 0, 480));
  }

  /** A span of exactly one millisecond: 13 ticks at 3900 ticks per beat
      and 300000 us per beat.  In exact arithmetic this is a 1 ms tone. */
  lemma ExactOneMs()
    ensures Tones([[SetTempo(0, 300000), NoteOn(0, 0, 69, 100), NoteOff(13, 0, 69, 0)]], 3900, 0)
         == [Tone(440, 1)]
  {
    var a, b, c := SetTempo(0, 300000), NoteOn(0, 0, 69, 100), NoteOff(13, 0, 69, 0);
    Tracks1(Initial, [a, b, c], 0, 3900);
    Fold3(Initial, a, b, c, 0, 3900);
    var s1 := Step(Initial, 0, a, 0, 3900);
    assert s1 == Player(300000, map[], []);
    var s2 := Step(s1, 0, b, 0, 3900);
    assert s2 == Player(300000, map[69 := 0], []);
    FreqAnchors();
    assert DurationMs(13, 300000, 3900) == 1;
    assert Step(s2, 13, c, 0, 3900).tones == [Tone(440, 1)];
  }
}
