/** Frequency of a MIDI note (`note_to_freq` followed by `int(...)`).

    The source evaluates 440 * 2^((note - 69) / 12) in floating point and
    truncates it.  Here the twelve pitch classes of the lowest octave are
    stored as 32-bit fixed-point numbers, rounded down (`BaseExact` proves
    each entry against 440 * 2^((p - 69) / 12) by twelfth powers), and each
    octave up doubles the value before the fraction is cut off. */
module Pitch {

  /** A MIDI note number; the decoder only ever yields 0..127. */
  type NoteNumber = n: int | 0 <= n < 128

  /** The fixed-point scale 2^32 of the pitch-class table. */
  const Scale: int := 0x1_0000_0000

  /** floor(2^32 * 440 * 2^((p - 69) / 12)): the frequency of note p (0..11),
      the lowest octave, in 32-bit fixed point. Pitch class 9 is A at 13.75 Hz. */
  function Base(p: int): (b: int)
    requires 0 <= p < 12
    ensures Scale * 8 < b < Scale * 16
  {
    [ 35114788961, 37202822970, 39415017943, 41758756874,
      44241861775, 46872619776, 49659810789, 52612736803,
      55741252936, 59055800320, 62567440946, 66287894591 ][p]
  }

  /** x^12, by squaring. */
  function Pow12(x: int): int
  {
    var x2 := x * x;
    var x4 := x2 * x2;
    x4 * x4 * x4
  }

  /** 2^(69 - p) for a pitch class p of the lowest octave. */
  function BelowA4(p: int): int
    requires 0 <= p < 12
  {
    0x200_0000_0000_0000 * [4096, 2048, 1024, 512, 256, 128, 64, 32, 16, 8, 4, 2][p]
  }

  /** Each table entry b is the integer part of 2^32 * 440 * 2^((p - 69) / 12):
      raised to the twelfth power, b^12 * 2^(69 - p) <= (2^32 * 440)^12 and
      (b + 1)^12 * 2^(69 - p) is above it. */
  lemma BaseExact(p: int)
    requires 0 <= p < 12
    ensures Pow12(Base(p)) * BelowA4(p) <= Pow12(Scale * 440) < Pow12(Base(p) + 1) * BelowA4(p)
  {
  }

  function Pow2(k: nat): (r: nat)
    ensures r >= 1
  {
    if k == 0 then 1 else 2 * Pow2(k - 1)
  }

  /** The frequency of `note` in whole hertz: its pitch-class entry shifted
      up by its octave, with the fraction cut off. */
  function Freq(note: NoteNumber): (f: int)
    ensures 0 <= f
    ensures f * Scale <= Base(note % 12) * Pow2(note / 12) < (f + 1) * Scale
  {
    Base(note % 12) * Pow2(note / 12) / Scale
  }

  /** A4 (note 69) is 440 Hz, and the octaves around it are exact:
      A3 is 220 Hz and A5 is 880 Hz. */
  lemma FreqAnchors()
    ensures Freq(69) == 440
    ensures Freq(81) == 880
    ensures Freq(57) == 220
  {
    assert Pow2(4) == 16 && Pow2(5) == 32 && Pow2(6) == 64;
  }

  /** The pitch classes of one octave are strictly increasing, and the top one
      lies below twice the bottom one. */
  lemma BaseIncreasing(p: int)
    requires 0 <= p < 11
    ensures Base(p) < Base(p + 1)
    ensures Base(11) <= 2 * Base(0)
  {
  }

  lemma MulMonotone(a: int, b: int, k: int)
    requires a <= b && k >= 0
    ensures a * k <= b * k
  {
  }

  lemma DivMonotone(a: int, b: int)
    requires a <= b
    ensures a / Scale <= b / Scale
  {
  }

  /** One semitone up never lowers the frequency. */
  lemma FreqStep(n: int)
    requires 0 <= n < 127
    ensures Freq(n) <= Freq(n + 1)
  {
    var p, q := n % 12, n / 12;
    if p < 11 {
      assert (n + 1) % 12 == p + 1 && (n + 1) / 12 == q;
      BaseIncreasing(p);
      MulMonotone(Base(p), Base(p + 1), Pow2(q));
    } else {
      assert (n + 1) % 12 == 0 && (n + 1) / 12 == q + 1;
      BaseIncreasing(0);
      MulMonotone(Base(11), 2 * Base(0), Pow2(q));
      assert 2 * Base(0) * Pow2(q) == Base(0) * Pow2(q + 1);
    }
    DivMonotone(Base(p) * Pow2(q), Base((n + 1) % 12) * Pow2((n + 1) / 12));
  }

  /** The frequency is monotone in the note number. */
  lemma {:induction false} FreqMonotone(a: NoteNumber, b: NoteNumber)
    requires a <= b
    ensures Freq(a) <= Freq(b)
    decreases b - a
  {
    if a < b {
      FreqStep(a);
      FreqMonotone(a + 1, b);
    }
  }

  /** Every note sounds between 8 Hz (note 0) and 12543 Hz (note 127). */
  lemma FreqRange(n: NoteNumber)
    ensures 8 <= Freq(n) <= 12543
  {
    FreqMonotone(0, n);
    FreqMonotone(n, 127);
    assert Freq(0) == 8;
    assert Freq(127) == 12543;
  }

  /** An octave up doubles the exact frequency, so after truncation the
      result is twice the lower one, or one more than that. */
  lemma FreqOctave(n: int)
    requires 0 <= n < 116
    ensures 2 * Freq(n) <= Freq(n + 12) <= 2 * Freq(n) + 1
  {
    var p, q := n % 12, n / 12;
    assert (n + 12) % 12 == p && (n + 12) / 12 == q + 1;
    var x := Base(p) * Pow2(q);
    assert Base(p) * Pow2(q + 1) == 2 * x;
    var k, r := x / Scale, x % Scale;
    assert x == Scale * k + r && 0 <= r < Scale;
    assert 2 * x == Scale * (2 * k) + 2 * r;
    assert (2 * x) / Scale == 2 * k + (2 * r) / Scale;
  }
}
