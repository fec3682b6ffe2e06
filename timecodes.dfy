/** The part of the external `timecode` package that the EDL code uses:
    parsing and printing HH:MM:SS:FF tokens, their order, and ranges. The
    package itself is not part of this model; a timecode is its four
    two-digit fields. */
module Timecodes {
  import opened Text

  /** One two-digit field of a timecode. */
  type Field = n: nat | n < 100

  datatype Timecode = Timecode(hours: Field, minutes: Field, seconds: Field, frames: Field)

  /** A range of timecodes, start and end. */
  datatype TimecodeRange = TimecodeRange(start: Timecode, end: Timecode)

  /** `\d{2}:\d{2}:\d{2}:\d{2}` as a whole token. */
  predicate IsTimecodeToken(t: string) {
    && |t| == 11
    && IsDigit(t[0]) && IsDigit(t[1]) && t[2] == ':'
    && IsDigit(t[3]) && IsDigit(t[4]) && t[5] == ':'
    && IsDigit(t[6]) && IsDigit(t[7]) && t[8] == ':'
    && IsDigit(t[9]) && IsDigit(t[10])
  }

  function TwoDigits(a: char, b: char): Field
    requires IsDigit(a) && IsDigit(b)
  {
    DigitValue(a) * 10 + DigitValue(b)
  }

  /** `Timecode(token)`. */
  function Parse(t: string): (tc: Timecode)
    requires IsTimecodeToken(t)
  {
    Timecode(TwoDigits(t[0], t[1]), TwoDigits(t[3], t[4]), TwoDigits(t[6], t[7]), TwoDigits(t[9], t[10]))
  }

  function FormatField(n: Field): string {
    [DigitChar(n / 10), DigitChar(n % 10)]
  }

  /** `str(timecode)`. */
  function Format(tc: Timecode): (t: string)
    ensures IsTimecodeToken(t)
  {
    FormatField(tc.hours) + ":" + FormatField(tc.minutes) + ":" + FormatField(tc.seconds) + ":" + FormatField(tc.frames)
  }

  /** Printing and parsing are inverse on valid timecodes and on tokens. */
  lemma ParseFormat(tc: Timecode)
    ensures Parse(Format(tc)) == tc
  {
  }

  lemma FormatFieldOfDigits(a: char, b: char)
    requires IsDigit(a) && IsDigit(b)
    ensures FormatField(TwoDigits(a, b)) == [a, b]
  {
  }

  lemma FormatParse(t: string)
    requires IsTimecodeToken(t)
    ensures Format(Parse(t)) == t
  {
    FormatFieldOfDigits(t[0], t[1]);
    FormatFieldOfDigits(t[3], t[4]);
    FormatFieldOfDigits(t[6], t[7]);
    FormatFieldOfDigits(t[9], t[10]);
    assert t == [t[0], t[1]] + ":" + [t[3], t[4]] + ":" + [t[6], t[7]] + ":" + [t[9], t[10]];
  }

  /** A timecode token holds no whitespace, so it is one token of a line. */
  lemma TimecodeTokenIsToken(t: string)
    requires IsTimecodeToken(t)
    ensures IsToken(t)
  {
  }

  /** The position of a timecode, reading its four fields as one number. */
  function Position(tc: Timecode): nat {
    ((tc.hours * 100 + tc.minutes) * 100 + tc.seconds) * 100 + tc.frames
  }

  /** The order of timecodes: earlier position first. */
  predicate Le(a: Timecode, b: Timecode) { Position(a) <= Position(b) }

  /** The order is antisymmetric, so it is a total order. */
  lemma LeAntisymmetric(a: Timecode, b: Timecode)
    requires Le(a, b) && Le(b, a)
    ensures a == b
  {
    var ra := (a.minutes * 100 + a.seconds) * 100 + a.frames;
    var rb := (b.minutes * 100 + b.seconds) * 100 + b.frames;
    assert Position(a) == a.hours * 1000000 + ra && 0 <= ra < 1000000;
    assert Position(b) == b.hours * 1000000 + rb && 0 <= rb < 1000000;
    assert a.hours == b.hours;
    var qa, qb := a.minutes * 100 + a.seconds, b.minutes * 100 + b.seconds;
    assert ra == qa * 100 + a.frames && rb == qb * 100 + b.frames;
    assert qa == qb;
    assert a.minutes == b.minutes;
  }

  function Min(a: Timecode, b: Timecode): Timecode { if Le(a, b) then a else b }

  function Max(a: Timecode, b: Timecode): Timecode { if Le(a, b) then b else a }
}
