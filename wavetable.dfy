/** The oscillator's lookup tables: one cycle of each waveform, one entry per
    output sample, and the mapping from the waveform picker's position to a
    waveform. */
module Wavetable {
  import opened JavaInt

  /** Output sample rate in Hz, which is also the length of every table. */
  const SAMPLE_RATE: int := 44100

  /** The frequency range the control surface offers, in Hz. */
  const MAX_FREQUENCY: int := 20000
  const MIN_FREQUENCY: int := 20

  datatype Waveform = Sine | Sawtooth | Square | Triangle

  /** The waveform `setWave(pos)` selects: positions 0 to 3 name the four
      waveforms, and any other position falls back to the sine. */
  function WaveformAt(pos: int32): (w: Waveform)
    ensures w == Sine <==> pos == 0 || pos < 0 || 3 < pos
    ensures w == Sawtooth <==> pos == 1
    ensures w == Square <==> pos == 2
    ensures w == Triangle <==> pos == 3
  {
    match pos
    case 1 => Sawtooth
    case 2 => Square
    case 3 => Triangle
    case _ => Sine
  }

  /** The picker position of a waveform; selecting it gives the waveform back. */
  function Position(w: Waveform): (pos: int32)
    ensures 0 <= pos <= 3
    ensures WaveformAt(pos) == w
  {
    match w
    case Sine => 0
    case Sawtooth => 1
    case Square => 2
    case Triangle => 3
  }

  /** Entry `i` of the square table: the loudest positive sample over the
      first half of the cycle, the loudest negative sample over the second. */
  function SquareAt(i: int): (s: int16)
  {
    if i < SAMPLE_RATE / 2 then SHORT_MAX else SHORT_MIN
  }

  /** The square table as a value: one cycle, every entry at full positive or
      full negative scale. */
  function SquareTable(): (t: seq<int16>)
    ensures |t| == SAMPLE_RATE
    ensures forall i :: 0 <= i < |t| ==> t[i] == SHORT_MAX || t[i] == SHORT_MIN
  {
    seq(SAMPLE_RATE, i => SquareAt(i))
  }

  /** The square table has one entry per sample, is at full positive scale up
      to the middle and at full negative scale from there, and switches between
      entries N/2 - 1 and N/2. */
  lemma SquareShape()
    ensures |SquareTable()| == SAMPLE_RATE
    ensures forall i :: 0 <= i < SAMPLE_RATE / 2 ==> SquareTable()[i] == SHORT_MAX
    ensures forall i :: SAMPLE_RATE / 2 <= i < SAMPLE_RATE ==> SquareTable()[i] == SHORT_MIN
    ensures SquareTable()[SAMPLE_RATE / 2 - 1] == SHORT_MAX
    ensures SquareTable()[SAMPLE_RATE / 2] == SHORT_MIN
  {
  }

  /** Fills a fresh table with the square wave, one entry at a time. */
  method GenerateSqr() returns (table: array<int16>)
    ensures fresh(table)
    ensures table.Length == SAMPLE_RATE
    ensures table[..] == SquareTable()
  {
    table := new int16[SAMPLE_RATE];
    for i := 0 to SAMPLE_RATE
      invariant forall j :: 0 <= j < i ==> table[j] == SquareTable()[j]
    {
      if i < SAMPLE_RATE / 2 {
        table[i] := SHORT_MAX;
      } else {
        table[i] := SHORT_MIN;
      }
    }
  }
}
