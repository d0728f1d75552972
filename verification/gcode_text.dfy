/** The text of each G-code line, as the source formats it: integers in
    plain decimal (Python's `str` of an int), `M300 S<freq> P<ms>` for a
    beep, and comments starting with `;`. */
module GcodeText {
  import opened Gcode

  predicate IsDigit(c: char)
  {
    '0' <= c <= '9'
  }

  predicate AllDigits(s: string)
  {
    forall i :: 0 <= i < |s| ==> IsDigit(s[i])
  }

  function DigitChar(d: int): (c: char)
    requires 0 <= d < 10
    ensures IsDigit(c) && c as int - '0' as int == d
  {
    (d + '0' as int) as char
  }

  /** The decimal digits of `n`, most significant first, without leading zeros. */
  function NatText(n: nat): (s: string)
    ensures |s| >= 1 && AllDigits(s)
    ensures |s| > 1 ==> s[0] != '0'
  {
    if n < 10 then [DigitChar(n)] else NatText(n / 10) + [DigitChar(n % 10)]
  }

  /** The number a string of decimal digits denotes. */
  function DigitsValue(s: string): nat
    requires AllDigits(s)
  {
    if |s| == 0 then 0
    else DigitsValue(s[..|s| - 1]) * 10 + (s[|s| - 1] as int - '0' as int)
  }

  /** Reading the digits back gives the number. */
  lemma {:induction false} NatTextValue(n: nat)
    ensures DigitsValue(NatText(n)) == n
  {
    if n >= 10 {
      var s := NatText(n);
      assert s[..|s| - 1] == NatText(n / 10);
      NatTextValue(n / 10);
    }
  }

  /** Python's `str` of an integer. */
  function IntText(i: int): string
  {
    if i < 0 then "-" + NatText(-i) else NatText(i)
  }

  /** No newline in `s`. */
  predicate OneLine(s: string)
  {
    forall i :: 0 <= i < |s| ==> s[i] != '\n'
  }

  /** The text of one command line.  It is never empty, it starts with `;`
      exactly for comments, and it holds no newline unless a comment's text
      does, so joining the lines with newlines keeps one command per line. */
  function Line(c: Command): (r: string)
    ensures |r| > 0 && (r[0] == ';' <==> c.Comment?)
    ensures (!c.Comment? || OneLine(c.text)) ==> OneLine(r)
  {
    match c
    case Comment(t) => ";" + t
    case EnableSteppers => "M17"
    case DisableSteppers => "M18"
    case Beep(f, ms) => "M300 S" + IntText(f) + " P" + IntText(ms)
  }

  /** The lines of a program, in order. */
  function Lines(cmds: seq<Command>): (r: seq<string>)
    ensures |r| == |cmds|
    ensures forall i :: 0 <= i < |cmds| ==> r[i] == Line(cmds[i])
  {
    if |cmds| == 0 then [] else Lines(cmds[..|cmds| - 1]) + [Line(cmds[|cmds| - 1])]
  }

  lemma StartAndEndLines()
    ensures Line(StartBanner) == "; ==== START MIDI TO GCODE ===="
    ensures Line(EndBanner) == "; ==== END MIDI TO GCODE ===="
    ensures Line(Pause) == "M300 S0 P30"
  {
    assert NatText(30) == "30";
  }

  /** The length of the run of digits `s` starts with. */
  function DigitRun(s: string): (n: nat)
    ensures n <= |s|
  {
    if |s| == 0 || !IsDigit(s[0]) then 0 else 1 + DigitRun(s[1..])
  }

  lemma {:induction false} DigitRunOf(a: string, rest: string)
    requires AllDigits(a) && |rest| > 0 && !IsDigit(rest[0])
    ensures DigitRun(a + rest) == |a|
    decreases |a|
  {
    if |a| > 0 {
      assert (a + rest)[1..] == a[1..] + rest;
      DigitRunOf(a[1..], rest);
    } else {
      assert a + rest == rest;
    }
  }

  /** A digit string followed by " P" splits in one place only. */
  lemma SplitUnique(a1: string, b1: string, a2: string, b2: string)
    requires AllDigits(a1) && AllDigits(a2)
    requires a1 + " P" + b1 == a2 + " P" + b2
    ensures a1 == a2 && b1 == b2
  {
    var s := a1 + " P" + b1;
    assert s == a1 + (" P" + b1) && s == a2 + (" P" + b2);
    DigitRunOf(a1, " P" + b1);
    DigitRunOf(a2, " P" + b2);
    assert a1 == s[..|a1|] == a2;
    assert b1 == s[|a1| + 2..] == b2;
  }

  /** Two beeps with non-negative fields are written as the same line only
      when they are the same beep: no tone is lost or merged in formatting. */
  lemma BeepLineInjective(f1: nat, ms1: nat, f2: nat, ms2: nat)
    requires Line(Beep(f1, ms1)) == Line(Beep(f2, ms2))
    ensures f1 == f2 && ms1 == ms2
  {
    var prefix := "M300 S";
    var a1, b1, a2, b2 := NatText(f1), NatText(ms1), NatText(f2), NatText(ms2);
    var s1, s2 := a1 + " P" + b1, a2 + " P" + b2;
    assert Line(Beep(f1, ms1)) == prefix + s1;
    assert Line(Beep(f2, ms2)) == prefix + s2;
    assert s1 == (prefix + s1)[|prefix|..] == (prefix + s2)[|prefix|..] == s2;
    SplitUnique(a1, b1, a2, b2);
    NatTextValue(f1);
    NatTextValue(f2);
    NatTextValue(ms1);
    NatTextValue(ms2);
  }
}
