/** Tick spans to milliseconds.

    The source keeps `time_ms_per_tick = tempo / ticks_per_beat / 1000` and
    turns a span into `int(dur_ticks * time_ms_per_tick)`.  In exact
    arithmetic that is the quotient dur_ticks * tempo / (ticks_per_beat * 1000)
    truncated toward zero, which is what this module computes. */
module Timing {

  /** Microseconds per beat before any tempo message: 120 beats per minute. */
  const DefaultTempo: nat := 500000

  /** Integer division rounding toward zero, as Python's `int()` of a quotient
      (Dafny's own `/` rounds toward minus infinity on negative dividends). */
  function TruncDiv(a: int, d: int): (q: int)
    requires d > 0
    ensures 0 <= a ==> 0 <= q && q * d <= a < (q + 1) * d
    ensures a < 0 ==> q <= 0 && (q - 1) * d < a <= q * d
  {
    if a >= 0 then a / d else -((-a) / d)
  }

  /** The length in whole milliseconds of a span of `ticks` at `tempo`
      microseconds per beat, truncated toward zero. */
  function DurationMs(ticks: int, tempo: nat, ticksPerBeat: int): (ms: int)
    requires ticksPerBeat > 0
    ensures 0 <= ticks ==> 0 <= ms * ticksPerBeat * 1000 <= ticks * tempo
    ensures 0 <= ticks ==> ticks * tempo < (ms + 1) * ticksPerBeat * 1000
    ensures ms > 0 <==> ticks * tempo >= ticksPerBeat * 1000
  {
    TruncDiv(ticks * tempo, ticksPerBeat * 1000)
  }

  lemma MulNonPositive(a: int, b: nat)
    requires a <= 0
    ensures a * b <= 0
  {
  }

  /** A span that does not move forward, or a tempo of zero, never yields a
      positive duration (so the converter emits nothing for it). */
  lemma NonPositiveSpan(ticks: int, tempo: nat, ticksPerBeat: int)
    requires ticksPerBeat > 0
    requires ticks <= 0 || tempo == 0
    ensures DurationMs(ticks, tempo, ticksPerBeat) <= 0
  {
    if ticks <= 0 {
      MulNonPositive(ticks, tempo);
    }
  }

  lemma DivUnique(a: int, d: int, q: int, r: int)
    requires d > 0 && 0 <= r < d && a == q * d + r
    ensures a / d == q
  {
    var q', r' := a / d, a % d;
    assert a == q' * d + r';
    assert (q - q') * d == r' - r;
    if q > q' {
      MulAtLeast(q - q', d);
    } else if q < q' {
      MulAtLeast(q' - q, d);
    }
  }

  lemma MulAtLeast(k: int, d: int)
    requires k >= 1 && d > 0
    ensures k * d >= d
  {
  }

  /** `beats` whole beats last `beats * tempo` microseconds: the duration is
      that many milliseconds, truncated, whatever the file's resolution. */
  lemma WholeBeats(beats: nat, tempo: nat, ticksPerBeat: int)
    requires ticksPerBeat > 0
    ensures DurationMs(beats * ticksPerBeat, tempo, ticksPerBeat) == beats * tempo / 1000
  {
    var us := beats * tempo;
    var q, r := us / 1000, us % 1000;
    assert us == q * 1000 + r;
    calc {
      beats * ticksPerBeat * tempo;
      us * ticksPerBeat;
      { assert us * ticksPerBeat == (q * 1000 + r) * ticksPerBeat; }
      q * (ticksPerBeat * 1000) + r * ticksPerBeat;
    }
    MulMonotoneStrict(r, 1000, ticksPerBeat);
    DivUnique(beats * ticksPerBeat * tempo, ticksPerBeat * 1000, q, r * ticksPerBeat);
  }

  lemma MulMonotoneStrict(a: nat, b: int, k: int)
    requires a < b && k > 0
    ensures 0 <= a * k < b * k
  {
  }

  /** With 480 ticks per beat at the default tempo, one beat (480 ticks)
      lasts 500 ms. */
  lemma DefaultBeat()
    ensures DurationMs(480, DefaultTempo, 480) == 500
  {
    WholeBeats(1, DefaultTempo, 480);
  }
}
