# midi2gcode in Dafny

A model of the MIDI-to-G-code converter `midi_to_gcode` (tools/midi2gcode.py).
The converter turns a decoded MIDI file into a G-code program that plays the
notes of one channel as beeps. It makes one forward pass over the tracks, in
order, and carries three things along:

- the tempo in force, in microseconds per beat (default 500000, 120 BPM);
- a table of pending note starts, keyed by note number only;
- the program lines written so far.

Tempo and table carry over from one track to the next. The absolute tick
counter starts again at 0 in every track.

The pairing rules on the selected channel (default 0) are as follows.

- A note-on with positive velocity records the start tick of its note. It
  overwrites any earlier start of that note that was never closed.
- A note-off, or a note-on with velocity 0, closes its note's pending start,
  if there is one. The start becomes a beep `M300 S<freq> P<ms>` followed by
  the fixed pause `M300 S0 P30`.
- The duration is the tick span times the tempo in force at the closing
  message, divided by `ticks_per_beat * 1000`, truncated toward zero. A
  duration of 0 or less writes nothing.
- `<freq>` is the integer part of `440 * 2^((note - 69) / 12)`.

The program starts with a comment and `M17` and ends with `M18` and a comment.

Files, one module each:

- `pitch.dfy` (`Pitch`): note number to frequency. A 32-bit fixed-point
  table of the twelve notes of the lowest octave, each entry proved to be the
  rounded-down value of 2^32 * 440 * 2^((p - 69) / 12), is shifted up by
  octaves and truncated. Monotonicity, the range 8..12543 Hz, octave doubling
  and the A anchors are proved.
- `timing.dfy` (`Timing`): tick spans to milliseconds with Python's
  truncating `int()`.
- `midi.dfy` (`Midi`): the decoded input, meaning messages with delta times,
  tracks, and absolute ticks as prefix sums of the deltas.
- `gcode.dfy` (`Gcode`): commands, the emitted program shape, and a parser
  that reads the tones back (round trip in both directions).
- `gcode_text.dfy` (`GcodeText`): the text of each line, with decimal numbers
  that read back to the same value.
- `converter.dfy` (`Converter`): the fold itself: `Step`, `TrackFold`,
  `TracksFold`, `Convert`, and the per-message pairing rules.
- `laws.dfy` (`Laws`): properties of the whole pass. They cover tracks
  passing their state on, the tempo being the last tempo message, channel
  isolation, and tone counts. They also describe the pending table and each
  emitted tone in terms of the last start of the note.
- `program.dfy` (`Program`): the converter with the source's nested loops,
  running tick counter and mutable table. It is proved equal to `Convert`.
- `scenarios.dfy` (`Scenarios`): small concrete files worked through.

Some behaviours of the code worth knowing:

- The pending table is keyed by note number alone and is not cleared at the
  end of a track. A later track can close a note opened earlier, against its
  own tick counter, which restarts at 0.
- The duration uses only the tempo in force when the note closes. No
  tempo-map integration is done, and no out-of-order tempo error exists.
- Tones come out in the order their notes close, track after track. They are
  not merged by start time.
- The frequency is truncated, not rounded.
- The pause after each tone is a fixed 30 ms.

Inputs the decoder guarantees are expressed as types: note numbers and
velocities are 0..127, channels are 0..15, and delta times and tempos are
non-negative. `ticks_per_beat > 0` is a precondition.

## Model

| member | source | states |
|---|---|---|
| Pitch.BaseExact | tools/midi2gcode.py:3-5 | each pitch-class entry of the lowest octave is the integer part of 2^32 times the source's formula 440·2^((p−69)/12), stated by twelfth powers so no real roots are needed |
| Pitch.FreqAnchors | tools/midi2gcode.py:3-5 | note 69 gives 440 Hz, note 81 gives 880 Hz and note 57 gives 220 Hz |
| Pitch.FreqStep | tools/midi2gcode.py:3-5 | one semitone up never lowers the frequency |
| Pitch.FreqMonotone | tools/midi2gcode.py:3-5 | the frequency never decreases with the note number (truncation makes some neighbours equal: notes 0 and 1 are both 8 Hz) |
| Pitch.FreqRange | tools/midi2gcode.py:3-5 | every note 0..127 sounds between 8 and 12543 Hz |
| Pitch.FreqOctave | tools/midi2gcode.py:3-5 | an octave up gives twice the frequency, or one more after truncation |
| Timing.TruncDiv | tools/midi2gcode.py:34 | `int()` of a quotient: the largest multiple not above a non-negative dividend, and the smallest not below a negative one |
| Timing.DurationMs | tools/midi2gcode.py:33-34 | whole milliseconds of a tick span at a tempo; positive exactly when span*tempo reaches ticks_per_beat*1000 |
| Timing.NonPositiveSpan | tools/midi2gcode.py:33-36 | a span that does not move forward, or a zero tempo, never yields a positive duration |
| Timing.WholeBeats | tools/midi2gcode.py:24-25 | k beats last k*tempo/1000 ms whatever ticks_per_beat is |
| Timing.DefaultBeat | tools/midi2gcode.py:11-12 | 480 ticks at 480 ticks per beat and the default tempo last 500 ms |
| Midi.TickAtStep | tools/midi2gcode.py:20-22 | a track's first message sits at its own delta, and each later one adds its delta to the previous tick |
| Midi.TickMonotone | tools/midi2gcode.py:20-22 | absolute ticks never decrease along a track |
| Gcode.Body | tools/midi2gcode.py:36-38 | two lines per tone: the tone's beep, then the 30 ms pause |
| Gcode.Emit | tools/midi2gcode.py:14-41 | the program is the start comment and M17, the beep and pause pairs in order, then M18 and the end comment; length 4 + 2 per tone |
| Gcode.ParseEmit | tools/midi2gcode.py:36-41 | the tones can be read back from the emitted program |
| Gcode.EmitParse | tools/midi2gcode.py:36-41 | every program that reads back as some tones is exactly the one emitted for them |
| GcodeText.Line | tools/midi2gcode.py:14-41 | each command is written as one non-empty line, starting with `;` exactly for the comments, with no newline in it (unless a comment's text has one), so the newline join keeps one command per line |
| GcodeText.NatTextValue | tools/midi2gcode.py:37 | decimal digits of a number read back to that number |
| GcodeText.BeepLineInjective | tools/midi2gcode.py:37 | two beep lines with the same text have the same frequency and duration |
| GcodeText.StartAndEndLines | tools/midi2gcode.py:14-41 | the framing comments and the pause have exactly the source's text |
| Converter.Close | tools/midi2gcode.py:31-38 | closing a note pops exactly its entry and leaves the others and the tempo alone; it adds at most one tone, with the note's frequency and a positive duration; with no entry for the note nothing changes |
| Converter.Step | tools/midi2gcode.py:23-38 | one message keeps every earlier tone and adds at most one |
| Converter.TrackFold | tools/midi2gcode.py:20-38 | a track keeps every earlier tone and adds at most one per message |
| Converter.TracksFold | tools/midi2gcode.py:19-21 | folding the tracks never removes or changes a tone already written |
| Converter.Convert | tools/midi2gcode.py:7-41 | the program is framed by start comment and M17, then M18 and end comment; every tone line has a positive duration and a frequency in 8..12543, and is followed by the pause |
| Converter.ChannelFilter | tools/midi2gcode.py:23-30 | note messages on another channel, and other messages, change nothing; a tempo message sets the tempo whatever the channel |
| Converter.Retrigger | tools/midi2gcode.py:27-28 | a note start records its tick, overwriting an unclosed start of the same note, and leaves other entries and the output alone |
| Converter.UnmatchedClose | tools/midi2gcode.py:30-31 | a note end without a pending start is a no-op |
| Converter.MatchedClose | tools/midi2gcode.py:30-38 | a matched note end removes exactly its entry and appends the tone for its span at the current tempo, or nothing if that is not positive |
| Converter.TonesAudible | tools/midi2gcode.py:33-37 | every emitted tone lasts at least 1 ms and has a frequency in 8..12543 |
| Laws.TracksAppend | tools/midi2gcode.py:19-21 | folding tracks a then b equals folding a + b: nothing is reset between tracks but the tick counter |
| Laws.TracksFoldSnoc | tools/midi2gcode.py:19-21 | a further track is folded from the state the earlier tracks left, tempo and pending table included |
| Laws.TracksSingle | tools/midi2gcode.py:19-22 | a single track is folded from its own tick 0, from whatever state it is given |
| Laws.TrackTempo | tools/midi2gcode.py:23-25 | after a track the tempo is its last tempo message's, or the previous tempo |
| Laws.TracksTempo | tools/midi2gcode.py:11-25 | over a file the tempo is that of the last tempo message in any track, or the default |
| Laws.ConvertSilent | tools/midi2gcode.py:27-41 | with no note message on the channel the program is exactly the four framing lines |
| Laws.TrackBudget | tools/midi2gcode.py:27-38 | in one track, tones plus pending entries grow by at most the note starts, and tones by at most the note ends |
| Laws.ToneCount | tools/midi2gcode.py:27-41 | a file yields no more tones than note starts nor than note ends on the channel, and 4 + 2 lines per tone |
| Laws.LastNoteEvent | tools/midi2gcode.py:27-32 | the last start or end of a note in a track, with no later one |
| Laws.PendingMeaning | tools/midi2gcode.py:17-32 | after a track a note is pending exactly when its last start or end there is a start, at that start's tick; if the track never touches it, its entry is unchanged |
| Laws.ClosingTone | tools/midi2gcode.py:30-38 | a note end adds the tone from the note's last start in the track (or from a start left by an earlier track) to now, at the last tempo set; nothing if the last event was an end |
| Program.Handle | tools/midi2gcode.py:22-38 | the loop body on one message does what one step of the fold does |
| Program.NoteEnd | tools/midi2gcode.py:31-38 | popping a pending start and writing its beep and pause matches closing the note |
| Program.PlayTrack | tools/midi2gcode.py:20-38 | the inner loop, with its running tick sum, equals folding the track at prefix-sum ticks |
| Program.MidiToGcode | tools/midi2gcode.py:7-41 | the loop program produces exactly `Convert` |
| Scenarios.OneBeatProgram | tools/midi2gcode.py:11-41 | one beat of note 69 at 480 ticks per beat gives the six-line program with `M300 S440 P500` |
| Scenarios.RetriggerOnce | tools/midi2gcode.py:27-38 | starts at ticks 0 and 10 and an end at 20 give the single tone `M300 S261 P10`, the last 10 ticks |
| Scenarios.UnmatchedEnd | tools/midi2gcode.py:30-31 | an end with no start gives only the four framing lines |
| Scenarios.UnclosedNote | tools/midi2gcode.py:27-28 | a note never ended gives only the four framing lines |
| Scenarios.TempoAtNoteEnd | tools/midi2gcode.py:23-34 | a tempo change inside a note applies to its whole span |
| Scenarios.OtherChannelIgnored | tools/midi2gcode.py:27-30 | notes on channel 1 are ignored when channel 0 is selected |
| Scenarios.ShortNoteDropped | tools/midi2gcode.py:34-36 | a span under 1 ms is dropped |
| Scenarios.EndedInLaterTrack | tools/midi2gcode.py:17-22 | a note started in one track is ended by a later one against the later track's ticks |
| Scenarios.NegativeSpanAcrossTracks | tools/midi2gcode.py:33-36 | a cross-track negative span writes nothing and removes the entry |
| Scenarios.TracksConcatenated | tools/midi2gcode.py:19-38 | tones come out track by track, not by start time |
| Scenarios.ExactOneMs | tools/midi2gcode.py:24-37 | 13 ticks at 3900 ticks per beat and 300000 us per beat give one 1 ms tone of 440 Hz (in exact arithmetic; see the floating-point line under Left out) |

## Left out

- Decoding the MIDI bytes (`MidiFile`, lines 1 and 8): tracks come in already decoded, and the decoder's value ranges are types.
- A zero `ticks_per_beat` (the source would divide by zero at line 12) is excluded by a precondition.
- Joining the lines with newlines and writing the file (lines 43-44), and the module-level call (line 47): I/O.
- The unused `current_time` variable (line 16).
- Pitch.Freq — equality with `int(440 * 2^((n - 69) / 12))` is proved only at the anchors (`Pitch.FreqAnchors`) and, through `Pitch.BaseExact`, for the table entries; for other notes the octave shift works on the rounded-down table and a per-note proof against the formula is too expensive for the verifier. That the two agree for every note 0..127 is not proved here.
- Floating point. Durations use exact rational arithmetic with truncation toward zero. The source computes `dur_ticks * (tempo / tpb / 1000.0)` in doubles, and when the exact duration is a whole number of milliseconds the double product can fall just below it, so `int()` gives one millisecond less than the model. If the exact duration is 1 ms the source then writes no tone at all: with 3900 ticks per beat, tempo 300000 and a 13-tick note the double product is 0.9999999999999999, so the source writes two lines fewer than the model, whose `4 + 2·tones` line count (`Laws.ToneCount`, `Scenarios.ExactOneMs`) is that of exact arithmetic. Frequencies are computed in integers from the table; see the Pitch.Freq line above.
