/** The G-code program the converter writes.

    A program is a start comment and `M17` (motors on), then for every tone
    a beep `M300 S<freq> P<ms>` followed by a fixed 30 ms silent beep
    `M300 S0 P30`, then `M18` (motors off) and an end comment. */
module Gcode {
  import opened Wrappers

  /** One line of G-code. */
  datatype Command =
    | Comment(text: string)            // `;` followed by `text`
    | EnableSteppers                   // M17
    | DisableSteppers                  // M18
    | Beep(freq: int, ms: int)         // M300 S<freq> P<ms>

  /** One sounded note: its frequency in Hz and its length in ms. */
  datatype Tone = Tone(freq: int, ms: int)

  const StartBanner: Command := Comment(" ==== START MIDI TO GCODE ====")
  const EndBanner: Command := Comment(" ==== END MIDI TO GCODE ====")

  /** The gap written after every tone so that consecutive notes stay apart. */
  const Pause: Command := Beep(0, 30)

  const Header: seq<Command> := [StartBanner, EnableSteppers]
  const Footer: seq<Command> := [DisableSteppers, EndBanner]

  /** The lines for `tones`, in order: each tone's beep followed by the pause. */
  function Body(tones: seq<Tone>): (b: seq<Command>)
    ensures |b| == 2 * |tones|
    ensures forall i :: 0 <= i < |tones| ==>
              b[2 * i] == Beep(tones[i].freq, tones[i].ms) && b[2 * i + 1] == Pause
  {
    if |tones| == 0 then []
    else
      var last := tones[|tones| - 1];
      Body(tones[..|tones| - 1]) + [Beep(last.freq, last.ms), Pause]
  }

  /** The whole program for `tones`. */
  function Emit(tones: seq<Tone>): (r: seq<Command>)
    ensures |r| == 4 + 2 * |tones|
    ensures r[0] == StartBanner && r[1] == EnableSteppers
    ensures r[|r| - 2] == DisableSteppers && r[|r| - 1] == EndBanner
    ensures forall i :: 0 <= i < |tones| ==>
              r[2 + 2 * i] == Beep(tones[i].freq, tones[i].ms) && r[3 + 2 * i] == Pause
  {
    Header + Body(tones) + Footer
  }

  /** Reads the tones back from the lines between the header and footer:
      pairs of a beep and the pause, or nothing if the lines have another shape. */
  function ParseBody(b: seq<Command>): Option<seq<Tone>>
  {
    if |b| == 0 then Some([])
    else if |b| >= 2 && b[|b| - 2].Beep? && b[|b| - 1] == Pause then
      match ParseBody(b[..|b| - 2])
      case Some(ts) => Some(ts + [Tone(b[|b| - 2].freq, b[|b| - 2].ms)])
      case None => None
    else None
  }

  /** Reads the tones back from a whole program. */
  function Parse(cmds: seq<Command>): Option<seq<Tone>>
  {
    if |cmds| >= 4 && cmds[..2] == Header && cmds[|cmds| - 2..] == Footer then
      ParseBody(cmds[2..|cmds| - 2])
    else None
  }

  lemma {:induction false} ParseBodyOfBody(tones: seq<Tone>)
    ensures ParseBody(Body(tones)) == Some(tones)
  {
    if |tones| > 0 {
      var init := tones[..|tones| - 1];
      var b := Body(tones);
      assert b[..|b| - 2] == Body(init);
      ParseBodyOfBody(init);
      assert init + [tones[|tones| - 1]] == tones;
    }
  }

  lemma {:induction false} BodyOfParseBody(b: seq<Command>, tones: seq<Tone>)
    requires ParseBody(b) == Some(tones)
    ensures Body(tones) == b
    decreases |b|
  {
    if |b| > 0 {
      var init := b[..|b| - 2];
      var ts :| ParseBody(init) == Some(ts);
      BodyOfParseBody(init, ts);
      assert tones[..|tones| - 1] == ts;
      assert init + b[|b| - 2..] == b;
    }
  }

  /** Emitting loses nothing: the tones can be read back from the program. */
  lemma ParseEmit(tones: seq<Tone>)
    ensures Parse(Emit(tones)) == Some(tones)
  {
    var r := Emit(tones);
    assert r[..2] == Header;
    assert r[|r| - 2..] == Footer;
    assert r[2..|r| - 2] == Body(tones);
    ParseBodyOfBody(tones);
  }

  /** Every program that reads back as `tones` is exactly the one emitted for
      them: nothing but the header, the beep-and-pause pairs and the footer. */
  lemma EmitParse(cmds: seq<Command>, tones: seq<Tone>)
    requires Parse(cmds) == Some(tones)
    ensures Emit(tones) == cmds
  {
    BodyOfParseBody(cmds[2..|cmds| - 2], tones);
    assert cmds == cmds[..2] + cmds[2..|cmds| - 2] + cmds[|cmds| - 2..];
  }

  /** Appending a tone appends its two lines to the body. */
  lemma BodySnoc(tones: seq<Tone>, t: Tone)
    ensures Body(tones + [t]) == Body(tones) + [Beep(t.freq, t.ms), Pause]
  {
    assert (tones + [t])[..|tones|] == tones;
  }
}
