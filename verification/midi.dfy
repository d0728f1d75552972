/** Decoded MIDI input: what the file decoder yields for each track.

    Only the message kinds the converter looks at are distinguished; every
    message carries its delta time, the ticks elapsed since the previous
    message of the same track. */
module Midi {
  import opened Pitch

  type Channel = c: int | 0 <= c < 16
  type Velocity = v: int | 0 <= v < 128

  datatype Message =
    | SetTempo(delta: nat, tempo: nat)   // a meta message: it has no channel
    | NoteOn(delta: nat, channel: Channel, note: NoteNumber, velocity: Velocity)
    | NoteOff(delta: nat, channel: Channel, note: NoteNumber, velocity: Velocity)
    | Other(delta: nat)

  /** One track: its messages in file order. */
  type Track = seq<Message>

  /** The sum of the deltas of `msgs`: the tick of the last one, counted from
      the start of the track. */
  function EndTick(msgs: seq<Message>): (t: nat)
    ensures |msgs| > 0 ==> t >= msgs[|msgs| - 1].delta
  {
    if |msgs| == 0 then 0 else EndTick(msgs[..|msgs| - 1]) + msgs[|msgs| - 1].delta
  }

  /** The absolute tick of message `i`: every delta up to and including its own. */
  function TickAt(track: Track, i: int): nat
    requires 0 <= i < |track|
  {
    EndTick(track[..i + 1])
  }

  /** The first message of a track sits at its own delta (the count starts
      at 0 in every track), and each later one adds its delta to the tick of
      the message before it. */
  lemma TickAtStep(track: Track, i: int)
    requires 0 <= i < |track|
    ensures i == 0 ==> TickAt(track, i) == track[0].delta
    ensures i > 0 ==> TickAt(track, i) == TickAt(track, i - 1) + track[i].delta
  {
    assert track[..i + 1][..i] == track[..i];
    if i == 0 {
      assert EndTick(track[..0]) == 0;
    }
  }

  /** Ticks never decrease along a track. */
  lemma {:induction false} TickMonotone(track: Track, i: int, j: int)
    requires 0 <= i <= j < |track|
    ensures TickAt(track, i) <= TickAt(track, j)
    decreases j - i
  {
    if i < j {
      TickAtStep(track, j);
      TickMonotone(track, i, j - 1);
    }
  }

  /** Whether `m` is a note message on channel `channel`. */
  predicate IsNoteFor(m: Message, channel: int)
  {
    (m.NoteOn? || m.NoteOff?) && m.channel == channel
  }
}
