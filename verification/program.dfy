/** The converter written as the source writes it: nested loops over tracks
    and messages, a running tick counter per track, mutable tempo and
    pending table, and the output lines appended as tones are found.  The
    contracts tie it to the functional definition in `Converter`, whose
    ticks are prefix sums of the deltas. */
module Program {
  import opened Pitch
  import opened Timing
  import opened Midi
  import opened Gcode
  import opened Converter

  /** Whether the variables of the loop hold what state `st` describes. */
  ghost predicate Mirrors(st: Player, tempo: nat, noteOnTime: map<NoteNumber, int>, lines: seq<Command>)
  {
    tempo == st.tempo && noteOnTime == st.pending && lines == Header + Body(st.tones)
  }

  /** The body of the inner loop: one message at absolute tick `absTime`. */
  method Handle(msg: Message, absTime: int, channel: int, ticksPerBeat: int,
                tempo0: nat, noteOnTime0: map<NoteNumber, int>, lines0: seq<Command>, ghost st: Player)
    returns (tempo: nat, noteOnTime: map<NoteNumber, int>, lines: seq<Command>)
    requires ticksPerBeat > 0 && Mirrors(st, tempo0, noteOnTime0, lines0)
    ensures Mirrors(Step(st, absTime, msg, channel, ticksPerBeat), tempo, noteOnTime, lines)
  {
    tempo, noteOnTime, lines := tempo0, noteOnTime0, lines0;
    if msg.SetTempo? {
      tempo := msg.tempo;
    } else if msg.NoteOn? && msg.channel == channel && msg.velocity > 0 {
      noteOnTime := noteOnTime[msg.note := absTime];
    } else if (msg.NoteOff? || (msg.NoteOn? && msg.velocity == 0)) && msg.channel == channel {
      noteOnTime, lines := NoteEnd(msg.note, absTime, ticksPerBeat, tempo, noteOnTime, lines, st);
    }
  }

  /** A note end on the selected channel: pop the pending start, if any, and
      write the tone when it lasts at least a millisecond. */
  method NoteEnd(note: NoteNumber, absTime: int, ticksPerBeat: int,
                 tempo: nat, noteOnTime0: map<NoteNumber, int>, lines0: seq<Command>, ghost st: Player)
    returns (noteOnTime: map<NoteNumber, int>, lines: seq<Command>)
    requires ticksPerBeat > 0 && Mirrors(st, tempo, noteOnTime0, lines0)
    ensures Mirrors(Close(st, absTime, note, ticksPerBeat), tempo, noteOnTime, lines)
  {
    noteOnTime, lines := noteOnTime0, lines0;
    if note in noteOnTime {
      var startTick := noteOnTime[note];
      noteOnTime := noteOnTime - {note};
      var durTicks := absTime - startTick;
      var durMs := DurationMs(durTicks, tempo, ticksPerBeat);
      var freq := Freq(note);
      ghost var t := Tone(freq, durMs);
      assert Close(st, absTime, note, ticksPerBeat) == Player(tempo, noteOnTime, st.tones + Sounded(t));
      if durMs > 0 {
        BodySnoc(st.tones, t);
        assert Header + Body(st.tones + [t]) == lines + [Beep(freq, durMs), Pause];
        lines := lines + [Beep(freq, durMs), Pause];
      } else {
        assert st.tones + Sounded(t) == st.tones;
      }
    }
  }

  /** The inner loop: one track, its tick counter starting at 0. */
  method PlayTrack(track: Track, channel: int, ticksPerBeat: int,
                   tempo0: nat, noteOnTime0: map<NoteNumber, int>, lines0: seq<Command>, ghost st: Player)
    returns (tempo: nat, noteOnTime: map<NoteNumber, int>, lines: seq<Command>)
    requires ticksPerBeat > 0 && Mirrors(st, tempo0, noteOnTime0, lines0)
    ensures Mirrors(TrackFold(st, track, channel, ticksPerBeat), tempo, noteOnTime, lines)
  {
    tempo, noteOnTime, lines := tempo0, noteOnTime0, lines0;
    var absTime := 0;
    var j := 0;
    while j < |track|
      invariant 0 <= j <= |track|
      invariant absTime == EndTick(track[..j])
      invariant Mirrors(TrackFold(st, track[..j], channel, ticksPerBeat), tempo, noteOnTime, lines)
    {
      var msg := track[j];
      assert track[..j + 1][..j] == track[..j];
      absTime := absTime + msg.delta;
      tempo, noteOnTime, lines :=
        Handle(msg, absTime, channel, ticksPerBeat, tempo, noteOnTime, lines, TrackFold(st, track[..j], channel, ticksPerBeat));
      j := j + 1;
    }
    assert track[..j] == track;
  }

  /** `midi_to_gcode` on an already decoded file, without the file write. */
  method MidiToGcode(tracks: seq<Track>, ticksPerBeat: int, channel: int := 0) returns (lines: seq<Command>)
    requires ticksPerBeat > 0
    ensures lines == Convert(tracks, ticksPerBeat, channel)
  {
    var tempo: nat := DefaultTempo;
    lines := Header;
    var noteOnTime: map<NoteNumber, int> := map[];
    var i := 0;
    while i < |tracks|
      invariant 0 <= i <= |tracks|
      invariant Mirrors(TracksFold(Initial, tracks[..i], channel, ticksPerBeat), tempo, noteOnTime, lines)
    {
      assert tracks[..i + 1][..i] == tracks[..i];
      tempo, noteOnTime, lines :=
        PlayTrack(tracks[i], channel, ticksPerBeat, tempo, noteOnTime, lines, TracksFold(Initial, tracks[..i], channel, ticksPerBeat));
      i := i + 1;
    }
    assert tracks[..i] == tracks;
    lines := lines + Footer;
  }
}
