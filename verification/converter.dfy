/** The MIDI-to-G-code conversion: one forward pass over the tracks in order.

    Three things are carried along: the tempo in force, a table of pending
    note starts keyed by note number only, and the tones emitted so far.
    Tempo and table survive from one track to the next; the tick counter
    starts again at 0 in each track.  A note-on with positive velocity on
    the selected channel records (or overwrites) the start tick of its
    note; a note-off, or a note-on with velocity 0, on that channel closes
    the pending start of its note, if there is one, into a tone whose
    duration uses the tempo in force at the closing message.  Tones of
    zero or negative duration are dropped. */
module Converter {
  import opened Pitch
  import opened Timing
  import opened Midi
  import opened Gcode

  /** The state carried from message to message. */
  datatype Player = Player(tempo: nat, pending: map<NoteNumber, int>, tones: seq<Tone>)

  /** The state before the first track: default tempo, nothing pending, no tones. */
  const Initial: Player := Player(DefaultTempo, map[], [])

  /** A note-on with positive velocity on `channel`: it starts a note. */
  predicate Opens(m: Message, channel: int)
  {
    m.NoteOn? && m.channel == channel && m.velocity > 0
  }

  /** A note-off, or a note-on with velocity 0, on `channel`: it ends a note. */
  predicate Closes(m: Message, channel: int)
  {
    (m.NoteOff? || (m.NoteOn? && m.velocity == 0)) && m.channel == channel
  }

  /** The tone a pending start of `note` at `start` becomes when it is closed
      at `tick` under `tempo`. */
  function ToneFor(note: NoteNumber, start: int, tick: int, tempo: nat, ticksPerBeat: int): Tone
    requires ticksPerBeat > 0
  {
    Tone(Freq(note), DurationMs(tick - start, tempo, ticksPerBeat))
  }

  /** What a tone-producing span adds to the output: the tone, or nothing
      when its duration is not positive. */
  function Sounded(t: Tone): (r: seq<Tone>)
    ensures |r| <= 1
    ensures t.ms > 0 <==> r == [t]
  {
    if t.ms > 0 then [t] else []
  }

  /** Closing `note` at `tick`: its entry, if any, is popped, and at most one
      tone is added, with the note's frequency. */
  function Close(p: Player, tick: int, note: NoteNumber, ticksPerBeat: int): (q: Player)
    requires ticksPerBeat > 0
    ensures q.tempo == p.tempo
    ensures q.pending.Keys == p.pending.Keys - {note}
    ensures forall n :: n in q.pending ==> q.pending[n] == p.pending[n]
    ensures p.tones <= q.tones && |q.tones| <= |p.tones| + 1
    ensures |q.tones| == |p.tones| + 1 ==> q.tones[|p.tones|].freq == Freq(note) && q.tones[|p.tones|].ms > 0
    ensures note !in p.pending ==> q == p
  {
    if note in p.pending then
      var t := ToneFor(note, p.pending[note], tick, p.tempo, ticksPerBeat);
      Player(p.tempo, p.pending - {note}, p.tones + Sounded(t))
    else p
  }

  /** Processing one message that sits at absolute tick `tick`. */
  function Step(p: Player, tick: int, m: Message, channel: int, ticksPerBeat: int): (q: Player)
    requires ticksPerBeat > 0
    ensures p.tones <= q.tones && |q.tones| <= |p.tones| + 1
  {
    if m.SetTempo? then p.(tempo := m.tempo)
    else if Opens(m, channel) then p.(pending := p.pending[m.note := tick])
    else if Closes(m, channel) then Close(p, tick, m.note, ticksPerBeat)
    else p
  }

  /** The state after the messages of one track, each at its absolute tick
      counted from 0 at the start of the track. */
  function TrackFold(p: Player, track: Track, channel: int, ticksPerBeat: int): (q: Player)
    requires ticksPerBeat > 0
    ensures p.tones <= q.tones && |q.tones| <= |p.tones| + |track|
    decreases |track|
  {
    if |track| == 0 then p
    else
      var before := TrackFold(p, track[..|track| - 1], channel, ticksPerBeat);
      Step(before, EndTick(track), track[|track| - 1], channel, ticksPerBeat)
  }

  /** The state after the tracks in order; the state passes from each track
      to the next unchanged. */
  function TracksFold(p: Player, tracks: seq<Track>, channel: int, ticksPerBeat: int): (q: Player)
    requires ticksPerBeat > 0
    ensures p.tones <= q.tones
    decreases |tracks|
  {
    if |tracks| == 0 then p
    else
      var before := TracksFold(p, tracks[..|tracks| - 1], channel, ticksPerBeat);
      TrackFold(before, tracks[|tracks| - 1], channel, ticksPerBeat)
  }

  /** The tones of a file, in the order their closing messages are met. */
  function Tones(tracks: seq<Track>, ticksPerBeat: int, channel: int): seq<Tone>
    requires ticksPerBeat > 0
  {
    TracksFold(Initial, tracks, channel, ticksPerBeat).tones
  }

  /** A tone the converter can write: positive length, audible frequency. */
  predicate Audible(t: Tone)
  {
    t.ms > 0 && 8 <= t.freq <= 12543
  }

  predicate AllAudible(tones: seq<Tone>)
  {
    forall i :: 0 <= i < |tones| ==> Audible(tones[i])
  }

  /** The G-code program for a decoded MIDI file. */
  function Convert(tracks: seq<Track>, ticksPerBeat: int, channel: int := 0): (r: seq<Command>)
    requires ticksPerBeat > 0
    ensures |r| >= 4 && |r| % 2 == 0
    ensures r[0] == StartBanner && r[1] == EnableSteppers
    ensures r[|r| - 2] == DisableSteppers && r[|r| - 1] == EndBanner
    ensures forall k :: 0 <= k < (|r| - 4) / 2 ==>
              r[2 + 2 * k].Beep? && r[2 + 2 * k].ms > 0 && 8 <= r[2 + 2 * k].freq <= 12543
              && r[3 + 2 * k] == Pause
  {
    var tones := Tones(tracks, ticksPerBeat, channel);
    TonesAudible(tracks, ticksPerBeat, channel);
    Emit(tones)
  }

  // ---------------------------------------------------------------------
  // The pairing rules, one message at a time

  /** Note messages on another channel change nothing; a tempo message
      sets the tempo whatever channel is selected, and touches nothing else. */
  lemma ChannelFilter(p: Player, tick: int, m: Message, channel: int, ticksPerBeat: int)
    requires ticksPerBeat > 0
    ensures IsNoteFor(m, channel) || m.SetTempo? || Step(p, tick, m, channel, ticksPerBeat) == p
    ensures m.SetTempo? ==> Step(p, tick, m, channel, ticksPerBeat) == p.(tempo := m.tempo)
  {
  }

  /** A note start on the channel records its tick, replacing any earlier
      start of the same note that was never closed, and emits nothing. */
  lemma Retrigger(p: Player, tick: int, m: Message, channel: int, ticksPerBeat: int)
    requires ticksPerBeat > 0 && Opens(m, channel)
    ensures var q := Step(p, tick, m, channel, ticksPerBeat);
            && q.pending.Keys == p.pending.Keys + {m.note}
            && q.pending[m.note] == tick
            && (forall n :: n in p.pending && n != m.note ==> q.pending[n] == p.pending[n])
            && q.tones == p.tones && q.tempo == p.tempo
  {
  }

  /** A note end whose note has no pending start is a no-op. */
  lemma UnmatchedClose(p: Player, tick: int, m: Message, channel: int, ticksPerBeat: int)
    requires ticksPerBeat > 0 && Closes(m, channel) && m.note !in p.pending
    ensures Step(p, tick, m, channel, ticksPerBeat) == p
  {
  }

  /** A matched note end removes exactly that note's entry, leaves the other
      entries alone, and appends at most one tone: the note's frequency for
      the span since its start at the current tempo, if that span lasts at
      least a millisecond. */
  lemma MatchedClose(p: Player, tick: int, m: Message, channel: int, ticksPerBeat: int)
    requires ticksPerBeat > 0 && Closes(m, channel) && m.note in p.pending
    ensures var q := Step(p, tick, m, channel, ticksPerBeat);
            var ms := DurationMs(tick - p.pending[m.note], p.tempo, ticksPerBeat);
            && q.pending.Keys == p.pending.Keys - {m.note}
            && (forall n :: n in q.pending ==> q.pending[n] == p.pending[n])
            && q.tempo == p.tempo
            && (ms > 0 ==> q.tones == p.tones + [Tone(Freq(m.note), ms)])
            && (ms <= 0 ==> q.tones == p.tones)
  {
  }

  // ---------------------------------------------------------------------
  // Invariants of the whole pass

  lemma {:induction false} TrackFoldAudible(p: Player, track: Track, channel: int, ticksPerBeat: int)
    requires ticksPerBeat > 0
    requires AllAudible(p.tones)
    ensures AllAudible(TrackFold(p, track, channel, ticksPerBeat).tones)
    decreases |track|
  {
    if |track| > 0 {
      var before := TrackFold(p, track[..|track| - 1], channel, ticksPerBeat);
      TrackFoldAudible(p, track[..|track| - 1], channel, ticksPerBeat);
      var m := track[|track| - 1];
      var q := Step(before, EndTick(track), m, channel, ticksPerBeat);
      if !m.SetTempo? && !Opens(m, channel) && Closes(m, channel) && m.note in before.pending {
        var t := ToneFor(m.note, before.pending[m.note], EndTick(track), before.tempo, ticksPerBeat);
        FreqRange(m.note);
        assert q.tones == before.tones + Sounded(t);
      } else {
        assert q.tones == before.tones;
      }
    }
  }

  lemma {:induction false} TracksFoldAudible(p: Player, tracks: seq<Track>, channel: int, ticksPerBeat: int)
    requires ticksPerBeat > 0
    requires AllAudible(p.tones)
    ensures AllAudible(TracksFold(p, tracks, channel, ticksPerBeat).tones)
    decreases |tracks|
  {
    if |tracks| > 0 {
      var before := TracksFold(p, tracks[..|tracks| - 1], channel, ticksPerBeat);
      TracksFoldAudible(p, tracks[..|tracks| - 1], channel, ticksPerBeat);
      TrackFoldAudible(before, tracks[|tracks| - 1], channel, ticksPerBeat);
    }
  }

  /** Every tone of a file lasts at least a millisecond and has a frequency
      between 8 and 12543 Hz. */
  lemma TonesAudible(tracks: seq<Track>, ticksPerBeat: int, channel: int)
    requires ticksPerBeat > 0
    ensures AllAudible(Tones(tracks, ticksPerBeat, channel))
  {
    TracksFoldAudible(Initial, tracks, channel, ticksPerBeat);
  }
}
