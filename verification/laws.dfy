/** Properties of the whole conversion pass, stated against independent
    descriptions of the input: the last tempo message, the last note event
    of each note, and counts of note starts and ends. */
module Laws {
  import opened Pitch
  import opened Timing
  import opened Midi
  import opened Gcode
  import opened Converter

  // ---------------------------------------------------------------------
  // Tracks pass their state on

  /** Folding two runs of tracks one after the other is folding their
      concatenation: nothing about tempo or pending notes is reset between
      tracks. */
  lemma {:induction false} TracksAppend(p: Player, a: seq<Track>, b: seq<Track>, channel: int, ticksPerBeat: int)
    requires ticksPerBeat > 0
    ensures TracksFold(p, a + b, channel, ticksPerBeat)
         == TracksFold(TracksFold(p, a, channel, ticksPerBeat), b, channel, ticksPerBeat)
    decreases |b|
  {
    if |b| == 0 {
      assert a + b == a;
    } else {
      var ab := a + b;
      assert ab[..|ab| - 1] == a + b[..|b| - 1];
      assert ab[|ab| - 1] == b[|b| - 1];
      TracksAppend(p, a, b[..|b| - 1], channel, ticksPerBeat);
    }
  }

  /** Appending a message to a track appends one step, at the tick the
      track had reached plus the message's delta. */
  lemma TrackFoldSnoc(p: Player, init: Track, m: Message, channel: int, ticksPerBeat: int)
    requires ticksPerBeat > 0
    ensures TrackFold(p, init + [m], channel, ticksPerBeat)
         == Step(TrackFold(p, init, channel, ticksPerBeat), EndTick(init) + m.delta, m, channel, ticksPerBeat)
  {
    assert (init + [m])[..|init|] == init;
  }

  /** Appending a track folds it from the state the earlier tracks left. */
  lemma TracksFoldSnoc(p: Player, init: seq<Track>, t: Track, channel: int, ticksPerBeat: int)
    requires ticksPerBeat > 0
    ensures TracksFold(p, init + [t], channel, ticksPerBeat)
         == TrackFold(TracksFold(p, init, channel, ticksPerBeat), t, channel, ticksPerBeat)
  {
    assert (init + [t])[..|init|] == init;
  }

  /** A single track is folded from tick 0, from whatever state the earlier
      tracks left. */
  lemma TracksSingle(p: Player, t: Track, channel: int, ticksPerBeat: int)
    requires ticksPerBeat > 0
    ensures TracksFold(p, [t], channel, ticksPerBeat) == TrackFold(p, t, channel, ticksPerBeat)
  {
    assert [t][..0] == [];
  }

  // ---------------------------------------------------------------------
  // The tempo in force

  /** The tempo of the last tempo message of `msgs`, or `tempo` if there is none. */
  function LastTempo(msgs: seq<Message>, tempo: nat): nat
  {
    if |msgs| == 0 then tempo
    else if msgs[|msgs| - 1].SetTempo? then msgs[|msgs| - 1].tempo
    else LastTempo(msgs[..|msgs| - 1], tempo)
  }

  /** All messages of the tracks, in processing order. */
  function Flatten(tracks: seq<Track>): seq<Message>
  {
    if |tracks| == 0 then [] else Flatten(tracks[..|tracks| - 1]) + tracks[|tracks| - 1]
  }

  lemma {:induction false} LastTempoAppend(a: seq<Message>, b: seq<Message>, tempo: nat)
    ensures LastTempo(a + b, tempo) == LastTempo(b, LastTempo(a, tempo))
    decreases |b|
  {
    if |b| == 0 {
      assert a + b == a;
    } else {
      assert (a + b)[..|a + b| - 1] == a + b[..|b| - 1];
      LastTempoAppend(a, b[..|b| - 1], tempo);
    }
  }

  /** After a track, the tempo is the one its last tempo message set, or the
      one in force before it. */
  lemma {:induction false} TrackTempo(p: Player, track: Track, channel: int, ticksPerBeat: int)
    requires ticksPerBeat > 0
    ensures TrackFold(p, track, channel, ticksPerBeat).tempo == LastTempo(track, p.tempo)
    decreases |track|
  {
    if |track| > 0 {
      TrackTempo(p, track[..|track| - 1], channel, ticksPerBeat);
    }
  }

  /** Across a whole file, the tempo is that of the last tempo message in any
      track (tracks taken in order), or the starting one: tempo is global. */
  lemma {:induction false} TracksTempo(p: Player, tracks: seq<Track>, channel: int, ticksPerBeat: int)
    requires ticksPerBeat > 0
    ensures TracksFold(p, tracks, channel, ticksPerBeat).tempo == LastTempo(Flatten(tracks), p.tempo)
    decreases |tracks|
  {
    if |tracks| > 0 {
      var init := tracks[..|tracks| - 1];
      TracksTempo(p, init, channel, ticksPerBeat);
      TrackTempo(TracksFold(p, init, channel, ticksPerBeat), tracks[|tracks| - 1], channel, ticksPerBeat);
      LastTempoAppend(Flatten(init), tracks[|tracks| - 1], p.tempo);
    }
  }

  // ---------------------------------------------------------------------
  // Channel isolation over whole inputs

  predicate NoNotesFor(track: Track, channel: int)
  {
    forall j :: 0 <= j < |track| ==> !IsNoteFor(track[j], channel)
  }

  /** A track with no note message on the channel changes only the tempo. */
  lemma {:induction false} TrackSilent(p: Player, track: Track, channel: int, ticksPerBeat: int)
    requires ticksPerBeat > 0 && NoNotesFor(track, channel)
    ensures TrackFold(p, track, channel, ticksPerBeat) == p.(tempo := LastTempo(track, p.tempo))
    decreases |track|
  {
    if |track| > 0 {
      var init := track[..|track| - 1];
      assert NoNotesFor(init, channel) by {
        forall j | 0 <= j < |init| ensures !IsNoteFor(init[j], channel) {
          assert init[j] == track[j];
        }
      }
      TrackSilent(p, init, channel, ticksPerBeat);
      assert !IsNoteFor(track[|track| - 1], channel);
    }
  }

  /** A file none of whose tracks has a note message on the channel leaves the
      pending table and the tones as they were. */
  lemma {:induction false} TracksSilent(p: Player, tracks: seq<Track>, channel: int, ticksPerBeat: int)
    requires ticksPerBeat > 0
    requires forall i :: 0 <= i < |tracks| ==> NoNotesFor(tracks[i], channel)
    ensures var q := TracksFold(p, tracks, channel, ticksPerBeat);
            q.pending == p.pending && q.tones == p.tones
    decreases |tracks|
  {
    if |tracks| > 0 {
      var init := tracks[..|tracks| - 1];
      TracksSilent(p, init, channel, ticksPerBeat);
      TrackSilent(TracksFold(p, init, channel, ticksPerBeat), tracks[|tracks| - 1], channel, ticksPerBeat);
    }
  }

  /** With no note on the selected channel, the program is just the four
      framing lines. */
  lemma ConvertSilent(tracks: seq<Track>, ticksPerBeat: int, channel: int)
    requires ticksPerBeat > 0
    requires forall i :: 0 <= i < |tracks| ==> NoNotesFor(tracks[i], channel)
    ensures Convert(tracks, ticksPerBeat, channel) == [StartBanner, EnableSteppers, DisableSteppers, EndBanner]
  {
    TracksSilent(Initial, tracks, channel, ticksPerBeat);
  }

  // ---------------------------------------------------------------------
  // How many tones

  /** The number of note starts on `channel` in `msgs`. */
  function OpenCount(msgs: seq<Message>, channel: int): nat
  {
    if |msgs| == 0 then 0
    else OpenCount(msgs[..|msgs| - 1], channel) + (if Opens(msgs[|msgs| - 1], channel) then 1 else 0)
  }

  /** The number of note ends on `channel` in `msgs`. */
  function CloseCount(msgs: seq<Message>, channel: int): nat
  {
    if |msgs| == 0 then 0
    else CloseCount(msgs[..|msgs| - 1], channel) + (if Closes(msgs[|msgs| - 1], channel) then 1 else 0)
  }

  lemma StepBudget(p: Player, tick: int, m: Message, channel: int, ticksPerBeat: int)
    requires ticksPerBeat > 0
    ensures var q := Step(p, tick, m, channel, ticksPerBeat);
            && |q.tones| + |q.pending.Keys| <= |p.tones| + |p.pending.Keys| + (if Opens(m, channel) then 1 else 0)
            && |q.tones| <= |p.tones| + (if Closes(m, channel) then 1 else 0)
  {
    var q := Step(p, tick, m, channel, ticksPerBeat);
    if m.SetTempo? {
    } else if Opens(m, channel) {
      assert q.pending.Keys == p.pending.Keys + {m.note};
    } else if Closes(m, channel) && m.note in p.pending {
      assert q.pending.Keys == p.pending.Keys - {m.note};
    }
  }

  /** Every tone uses up a pending start, and every pending start comes from
      a distinct note start; and each note end yields at most one tone. */
  lemma {:induction false} TrackBudget(p: Player, track: Track, channel: int, ticksPerBeat: int)
    requires ticksPerBeat > 0
    ensures var q := TrackFold(p, track, channel, ticksPerBeat);
            && |q.tones| + |q.pending.Keys| <= |p.tones| + |p.pending.Keys| + OpenCount(track, channel)
            && |q.tones| <= |p.tones| + CloseCount(track, channel)
    decreases |track|
  {
    if |track| > 0 {
      var init := track[..|track| - 1];
      TrackBudget(p, init, channel, ticksPerBeat);
      StepBudget(TrackFold(p, init, channel, ticksPerBeat), EndTick(track), track[|track| - 1], channel, ticksPerBeat);
    }
  }

  lemma {:induction false} CountAppend(a: seq<Message>, b: seq<Message>, channel: int)
    ensures OpenCount(a + b, channel) == OpenCount(a, channel) + OpenCount(b, channel)
    ensures CloseCount(a + b, channel) == CloseCount(a, channel) + CloseCount(b, channel)
    decreases |b|
  {
    if |b| == 0 {
      assert a + b == a;
    } else {
      assert (a + b)[..|a + b| - 1] == a + b[..|b| - 1];
      CountAppend(a, b[..|b| - 1], channel);
    }
  }

  lemma {:induction false} TracksBudget(p: Player, tracks: seq<Track>, channel: int, ticksPerBeat: int)
    requires ticksPerBeat > 0
    ensures var q := TracksFold(p, tracks, channel, ticksPerBeat);
            && |q.tones| + |q.pending.Keys| <= |p.tones| + |p.pending.Keys| + OpenCount(Flatten(tracks), channel)
            && |q.tones| <= |p.tones| + CloseCount(Flatten(tracks), channel)
    decreases |tracks|
  {
    if |tracks| > 0 {
      var init := tracks[..|tracks| - 1];
      TracksBudget(p, init, channel, ticksPerBeat);
      TrackBudget(TracksFold(p, init, channel, ticksPerBeat), tracks[|tracks| - 1], channel, ticksPerBeat);
      CountAppend(Flatten(init), tracks[|tracks| - 1], channel);
    }
  }

  /** A file yields no more tones than it has note starts, nor more than it
      has note ends, on the selected channel; the program has two lines per
      tone and four more. */
  lemma ToneCount(tracks: seq<Track>, ticksPerBeat: int, channel: int)
    requires ticksPerBeat > 0
    ensures |Tones(tracks, ticksPerBeat, channel)| <= OpenCount(Flatten(tracks), channel)
    ensures |Tones(tracks, ticksPerBeat, channel)| <= CloseCount(Flatten(tracks), channel)
    ensures |Convert(tracks, ticksPerBeat, channel)| == 4 + 2 * |Tones(tracks, ticksPerBeat, channel)|
  {
    TracksBudget(Initial, tracks, channel, ticksPerBeat);
  }

  // ---------------------------------------------------------------------
  // What the pending table holds, and which tone a note end produces

  /** Whether `m` starts or ends note `note` on `channel`. */
  predicate Touches(m: Message, note: int, channel: int)
  {
    (Opens(m, channel) || Closes(m, channel)) && m.note == note
  }

  /** The index of the last message of `msgs` that starts or ends `note` on
      `channel`, or -1 if there is none. */
  function LastNoteEvent(msgs: seq<Message>, note: int, channel: int): (i: int)
    ensures -1 <= i < |msgs|
    ensures i >= 0 ==> Touches(msgs[i], note, channel)
    ensures forall j :: i < j < |msgs| ==> !Touches(msgs[j], note, channel)
  {
    if |msgs| == 0 then -1
    else if Touches(msgs[|msgs| - 1], note, channel) then |msgs| - 1
    else LastNoteEvent(msgs[..|msgs| - 1], note, channel)
  }

  lemma TickAtPrefix(track: Track, k: int, i: int)
    requires 0 <= i < k <= |track|
    ensures TickAt(track[..k], i) == TickAt(track, i)
  {
    assert track[..k][..i + 1] == track[..i + 1];
  }

  /** After a track, note `n` is pending exactly when its last start-or-end
      in the track is a start, at that start's tick; if the track never
      touches `n`, its entry is whatever it was before the track. */
  lemma {:induction false} PendingMeaning(p: Player, track: Track, channel: int, ticksPerBeat: int, n: NoteNumber)
    requires ticksPerBeat > 0
    ensures var q := TrackFold(p, track, channel, ticksPerBeat);
            var i := LastNoteEvent(track, n, channel);
            && (i == -1 ==> (n in q.pending <==> n in p.pending))
            && (i == -1 && n in p.pending ==> q.pending[n] == p.pending[n])
            && (i >= 0 && Opens(track[i], channel) ==> n in q.pending && q.pending[n] == TickAt(track, i))
            && (i >= 0 && Closes(track[i], channel) ==> n !in q.pending)
    decreases |track|
  {
    if |track| > 0 {
      var k := |track| - 1;
      var init := track[..k];
      PendingMeaning(p, init, channel, ticksPerBeat, n);
      var i := LastNoteEvent(track, n, channel);
      if i < k {
        assert i == LastNoteEvent(init, n, channel);
        if i >= 0 {
          assert init[i] == track[i];
          TickAtPrefix(track, k, i);
        }
      } else {
        assert track[..k + 1] == track;
      }
    }
  }

  /** The tones a note end adds: if the last earlier start-or-end of its note
      in the same track is a start at message `i`, one tone of that note's
      frequency lasting from tick(i) to the current tick at the tempo of the
      last tempo message so far, dropped unless it lasts at least 1 ms. If
      the track has not touched the note before, the start pending from an
      earlier track (if any) is used, against this track's tick count. If the
      last earlier event is an end, nothing. */
  lemma ClosingTone(p: Player, track: Track, j: int, channel: int, ticksPerBeat: int)
    requires ticksPerBeat > 0
    requires 0 <= j < |track| && Closes(track[j], channel)
    ensures var before := TrackFold(p, track[..j], channel, ticksPerBeat);
            var after := TrackFold(p, track[..j + 1], channel, ticksPerBeat);
            var n := track[j].note;
            var i := LastNoteEvent(track[..j], n, channel);
            var tempo := LastTempo(track[..j], p.tempo);
            && (i >= 0 && Opens(track[i], channel) ==>
                  after.tones == before.tones
                    + Sounded(Tone(Freq(n), DurationMs(TickAt(track, j) - TickAt(track, i), tempo, ticksPerBeat))))
            && (i == -1 && n in p.pending ==>
                  after.tones == before.tones
                    + Sounded(Tone(Freq(n), DurationMs(TickAt(track, j) - p.pending[n], tempo, ticksPerBeat))))
            && (i >= 0 && Closes(track[i], channel) ==> after.tones == before.tones)
            && (i == -1 && n !in p.pending ==> after.tones == before.tones)
  {
    var pre := track[..j];
    var n := track[j].note;
    assert track[..j + 1][..j] == pre;
    assert track[..j + 1][j] == track[j];
    PendingMeaning(p, pre, channel, ticksPerBeat, n);
    TrackTempo(p, pre, channel, ticksPerBeat);
    var i := LastNoteEvent(pre, n, channel);
    if i >= 0 {
      assert pre[i] == track[i];
      TickAtPrefix(track, j, i);
    }
  }
}
