/** The oscillator engine: its control state (frequency, volume, playing flag,
    phase, active table), the four lookup tables, the output buffer and the
    audio track it streams into. */
module Modulo {
  import opened JavaInt
  import opened Wavetable
  import opened PhaseAccumulator
  import opened AudioSink

  /** How a fill ends: normally, or with the out-of-bounds read of table entry
      `index` (always negative) at slot `slot`, which throws
      `ArrayIndexOutOfBoundsException` in Java. */
  datatype FillOutcome = Completed | IndexOutOfBounds(index: int, slot: nat)

  class Oscillator {
    var frequency: int32
    var isPlaying: bool
    var audioTrack: AudioTrack
    var volume: int32
    /** The active table: always one of the four below, never a copy. */
    var sample: array<int16>
    var buffer: array<int16>
    var sin: array<int16>
    var sqr: array<int16>
    var tri: array<int16>
    var saw: array<int16>
    var phase: int32

    /** The object invariant: four distinct tables of one cycle each, the
        active table aliasing one of them, and a buffer that is none of them. */
    ghost predicate Valid()
      reads this, audioTrack
    {
      && sin.Length == SAMPLE_RATE && saw.Length == SAMPLE_RATE
      && sqr.Length == SAMPLE_RATE && tri.Length == SAMPLE_RATE
      && sin != saw && sin != sqr && sin != tri && saw != sqr && saw != tri && sqr != tri
      && (sample == sin || sample == saw || sample == sqr || sample == tri)
      && buffer != sin && buffer != saw && buffer != sqr && buffer != tri
      && audioTrack.Valid()
    }

    /** The table that holds a waveform. */
    function TableOf(w: Waveform): (t: array<int16>)
      reads this
    {
      match w
      case Sine => sin
      case Sawtooth => saw
      case Square => sqr
      case Triangle => tri
    }

    /** Builds the engine with the sine selected, 440 Hz, volume 50 and the
        track open. The sine, sawtooth and triangle tables are computed in
        floating point outside this model and passed in; the square table is
        generated here. `bufferSize` is the device's minimum buffer size. */
    constructor (bufferSize: nat, sinTable: seq<int16>, sawTable: seq<int16>, triTable: seq<int16>)
      requires |sinTable| == SAMPLE_RATE && |sawTable| == SAMPLE_RATE && |triTable| == SAMPLE_RATE
      ensures Valid()
      ensures frequency == 440 && volume == 50 && !isPlaying && phase == 0
      ensures sample == sin
      ensures sin[..] == sinTable && saw[..] == sawTable && tri[..] == triTable
      ensures sqr[..] == SquareTable()
      ensures buffer.Length == bufferSize
      ensures fresh(buffer) && fresh(sin) && fresh(saw) && fresh(sqr) && fresh(tri) && fresh(audioTrack)
      ensures audioTrack.state == Initialized && audioTrack.playState == Stopped
      ensures audioTrack.gain == 50 && audioTrack.written == [] && audioTrack.queued == []
    {
      frequency := 440;
      volume := 50;
      isPlaying := false;
      buffer := new int16[bufferSize];
      var track := InitializeAudioTrack(50);
      audioTrack := track;
      var square := GenerateSqr();
      sqr := square;
      sin := new int16[SAMPLE_RATE](i requires 0 <= i < SAMPLE_RATE => sinTable[i]);
      tri := new int16[SAMPLE_RATE](i requires 0 <= i < SAMPLE_RATE => triTable[i]);
      saw := new int16[SAMPLE_RATE](i requires 0 <= i < SAMPLE_RATE => sawTable[i]);
      sample := sin;
      phase := 0;
      new;
      assert sin[..] == sinTable;
      assert saw[..] == sawTable;
      assert tri[..] == triTable;
    }

    /** Opens a new track and sets its gain from `volume`. */
    static method InitializeAudioTrack(volume: int32) returns (track: AudioTrack)
      ensures fresh(track) && track.Valid()
      ensures track.state == Initialized && track.playState == Stopped
      ensures track.gain == GainFor(volume)
      ensures track.written == [] && track.queued == []
    {
      track := new AudioTrack();
      track.SetStereoVolume(volume);
    }

    /** Fills the buffer from the active table through the phase accumulator
        and writes it to the track. A fill that reads outside the table
        throws `ArrayIndexOutOfBoundsException` in Java before anything is
        written to the track. */
    method FillBuffer() returns (outcome: FillOutcome)
      requires Valid()
      modifies this`phase, buffer, audioTrack
      ensures Valid()
      ensures unchanged(sin, saw, sqr, tri)
      ensures audioTrack.state == old(audioTrack.state) && audioTrack.playState == old(audioTrack.playState)
      ensures audioTrack.gain == old(audioTrack.gain)
      ensures outcome.Completed? <==> NoFault(old(phase), frequency, buffer.Length)
      ensures outcome.Completed? ==>
        && buffer[..] == Rendered(sample[..], old(phase), frequency, buffer.Length)
        && phase == PhaseAt(old(phase), frequency, buffer.Length)
        && audioTrack.written
           == old(audioTrack.written) + (if audioTrack.state == Initialized then [buffer[..]] else [])
        && audioTrack.queued
           == old(audioTrack.queued) + (if audioTrack.state == Initialized then buffer[..] else [])
      ensures outcome.IndexOutOfBounds? ==>
        && outcome.slot < buffer.Length
        && NoFault(old(phase), frequency, outcome.slot)
        && outcome.index == ReadIndex(old(phase), frequency, outcome.slot) < 0
        && phase == outcome.index
        && buffer[..outcome.slot] == Rendered(sample[..], old(phase), frequency, outcome.slot)
        && buffer[outcome.slot..] == old(buffer[outcome.slot..])
        && audioTrack.written == old(audioTrack.written)
        && audioTrack.queued == old(audioTrack.queued)
    {
      outcome := FillSlots();
      if outcome.Completed? {
        audioTrack.Write(buffer[..]);
      }
    }

    /** The loop of `fillBuffer`. Each slot first reduces `phase` with Java's
        `%`, then reads that table entry, then adds `frequency` in 32-bit
        arithmetic. A negative reduced phase is an out-of-bounds read: the
        loop stops there, having written the slots before it, with `phase`
        left at the negative remainder. */
    method FillSlots() returns (outcome: FillOutcome)
      requires sample.Length == SAMPLE_RATE && buffer != sample
      modifies this`phase, buffer
      ensures outcome.Completed? <==> NoFault(old(phase), frequency, buffer.Length)
      ensures outcome.Completed? ==>
        && buffer[..] == Rendered(sample[..], old(phase), frequency, buffer.Length)
        && phase == PhaseAt(old(phase), frequency, buffer.Length)
      ensures outcome.IndexOutOfBounds? ==>
        && outcome.slot < buffer.Length
        && NoFault(old(phase), frequency, outcome.slot)
        && outcome.index == ReadIndex(old(phase), frequency, outcome.slot) < 0
        && phase == outcome.index
        && buffer[..outcome.slot] == Rendered(sample[..], old(phase), frequency, outcome.slot)
        && buffer[outcome.slot..] == old(buffer[outcome.slot..])
    {
      ghost var p0 := phase;
      ghost var table := sample[..];
      var i := 0;
      while i < buffer.Length
        invariant 0 <= i <= buffer.Length
        invariant phase == PhaseAt(p0, frequency, i)
        invariant NoFault(p0, frequency, i)
        invariant forall j :: 0 <= j < i ==> buffer[j] == table[ReadIndex(p0, frequency, j)]
        invariant forall j :: i <= j < buffer.Length ==> buffer[j] == old(buffer[j])
      {
        phase := JavaRem(phase, sample.Length);
        assert phase == ReadIndex(p0, frequency, i);
        if phase < 0 {
          RenderedFrom(table, p0, frequency, buffer[..i]);
          assert buffer[i..] == old(buffer[i..]);
          return IndexOutOfBounds(phase, i);
        }
        NoFaultExtend(p0, frequency, i);
        buffer[i] := sample[phase];
        assert buffer[i] == table[ReadIndex(p0, frequency, i)];
        phase := AddInt(phase, frequency);
        i := i + 1;
      }
      RenderedFrom(table, p0, frequency, buffer[..]);
      outcome := Completed;
    }

    /** Selects a table by the picker's position; any position other than
        0 to 3 selects the sine. */
    method SetWave(pos: int32)
      requires Valid()
      modifies this`sample
      ensures Valid()
      ensures sample == TableOf(WaveformAt(pos))
    {
      match pos
      case 0 => sample := sin;
      case 1 => sample := saw;
      case 2 => sample := sqr;
      case 3 => sample := tri;
      case _ => sample := sin;
    }

    /** Starts playback: reopens the track if it has been released, sets the
        playing flag, fills and writes one buffer, and starts the track. An
        out-of-bounds read in the fill throws before the track is started. */
    method Play() returns (outcome: FillOutcome)
      requires Valid()
      modifies this`audioTrack, this`isPlaying, this`phase, buffer, audioTrack
      ensures Valid()
      ensures isPlaying && audioTrack.state == Initialized
      ensures old(audioTrack.state) == Initialized ==>
        audioTrack == old(audioTrack) && audioTrack.gain == old(audioTrack.gain)
      ensures old(audioTrack.state) == Uninitialized ==> fresh(audioTrack) && audioTrack.gain == GainFor(volume)
      ensures outcome.Completed? <==> NoFault(old(phase), frequency, buffer.Length)
      ensures outcome.Completed? ==>
        && buffer[..] == Rendered(sample[..], old(phase), frequency, buffer.Length)
        && phase == PhaseAt(old(phase), frequency, buffer.Length)
        && audioTrack.playState == Playing
        && audioTrack.written
           == (if old(audioTrack.state) == Initialized then old(audioTrack.written) else []) + [buffer[..]]
        && audioTrack.queued
           == (if old(audioTrack.state) == Initialized then old(audioTrack.queued) else []) + buffer[..]
      ensures outcome.IndexOutOfBounds? ==>
        && phase == outcome.index < 0
        && audioTrack.written
           == (if old(audioTrack.state) == Initialized then old(audioTrack.written) else [])
        && audioTrack.queued
           == (if old(audioTrack.state) == Initialized then old(audioTrack.queued) else [])
        && audioTrack.playState
           == (if old(audioTrack.state) == Initialized then old(audioTrack.playState) else Stopped)
    {
      if audioTrack.state == Initialized {
        isPlaying := true;
        outcome := FillBuffer();
        if outcome.Completed? {
          audioTrack.Play();
        }
      } else {
        audioTrack := InitializeAudioTrack(volume);
        isPlaying := true;
        outcome := FillBuffer();
        if outcome.Completed? {
          audioTrack.Play();
        }
      }
    }

    /** Pauses an initialised track, clears the playing flag and flushes what
        the track had queued; the track stays open. Does nothing otherwise. */
    method Pause()
      requires Valid()
      modifies this`isPlaying, audioTrack
      ensures Valid()
      ensures audioTrack.written == old(audioTrack.written) && audioTrack.gain == old(audioTrack.gain)
      ensures audioTrack.state == old(audioTrack.state)
      ensures old(audioTrack.state) == Initialized ==>
        !isPlaying && audioTrack.playState == Paused && audioTrack.queued == []
      ensures old(audioTrack.state) == Uninitialized ==>
        isPlaying == old(isPlaying) && unchanged(audioTrack)
    {
      if audioTrack.state == Initialized {
        SetIsPlaying(false);
        audioTrack.Pause();
        audioTrack.Flush();
      }
    }

    /** Stops an initialised track: clears the playing flag, pauses and
        flushes the track and releases it. Does nothing otherwise, so a second
        stop changes nothing. */
    method Stop()
      requires Valid()
      modifies this`isPlaying, audioTrack
      ensures Valid()
      ensures audioTrack.written == old(audioTrack.written) && audioTrack.gain == old(audioTrack.gain)
      ensures old(audioTrack.state) == Initialized ==>
        && !isPlaying
        && audioTrack.state == Uninitialized && audioTrack.playState == Stopped
        && audioTrack.queued == []
      ensures old(audioTrack.state) == Uninitialized ==>
        isPlaying == old(isPlaying) && unchanged(audioTrack)
    {
      if audioTrack.state == Initialized {
        SetIsPlaying(false);
        audioTrack.Pause();
        audioTrack.Flush();
        audioTrack.Release();
      }
    }

    /** Stores the frequency as given: no range check. */
    method SetFreq(freq: int32)
      modifies this`frequency
      ensures frequency == freq
      ensures GetFreq() == freq
    {
      frequency := freq;
    }

    function GetFreq(): (f: int32)
      reads this
    {
      frequency
    }

    method SetIsPlaying(boo: bool)
      modifies this`isPlaying
      ensures isPlaying == boo
      ensures GetIsPlaying() == boo
    {
      isPlaying := boo;
    }

    function GetIsPlaying(): (b: bool)
      reads this
    {
      isPlaying
    }

    /** Stores the volume as given, with no range check, and pushes the gain
        it amounts to to the track. */
    method SetVolume(vol: int32)
      requires Valid()
      modifies this`volume, audioTrack`gain
      ensures Valid()
      ensures volume == vol && GetVolume() == vol
      ensures audioTrack.gain == if audioTrack.state == Initialized then GainFor(vol) else old(audioTrack.gain)
    {
      volume := vol;
      audioTrack.SetStereoVolume(volume);
    }

    function GetVolume(): (v: int32)
      reads this
    {
      volume
    }
  }

  // ---------------------------------------------------------------------------
  // Scenarios that drive the engine through its public operations

  /** Select the square wave, set 1 Hz and fill a buffer of one full table:
      the first half of the buffer is at full positive scale and the second
      half at full negative scale. */
  method SquareAtOneHertz(sinTable: seq<int16>, sawTable: seq<int16>, triTable: seq<int16>)
    returns (samples: seq<int16>)
    requires |sinTable| == SAMPLE_RATE && |sawTable| == SAMPLE_RATE && |triTable| == SAMPLE_RATE
    ensures |samples| == SAMPLE_RATE
    ensures forall i :: 0 <= i < SAMPLE_RATE / 2 ==> samples[i] == SHORT_MAX
    ensures forall i :: SAMPLE_RATE / 2 <= i < SAMPLE_RATE ==> samples[i] == SHORT_MIN
  {
    var osc := new Oscillator(SAMPLE_RATE, sinTable, sawTable, triTable);
    osc.SetWave(2);
    osc.SetFreq(1);
    SquareSweep();
    var outcome := osc.FillBuffer();
    samples := osc.buffer[..];
  }

  /** Play, stop, stop again and play again: the stop releases the track and
      clears the playing flag, the second stop changes nothing, and the next
      play opens a new track and plays without a fault. */
  method StopThenReplay(bufferSize: nat, sinTable: seq<int16>, sawTable: seq<int16>, triTable: seq<int16>)
    returns (stopped: bool, released: TrackState, restopped: bool, replaying: bool, reopened: TrackState, outcome: FillOutcome)
    requires |sinTable| == SAMPLE_RATE && |sawTable| == SAMPLE_RATE && |triTable| == SAMPLE_RATE
    ensures !stopped && released == Uninitialized && !restopped
    ensures replaying && reopened == Initialized && outcome == Completed
  {
    var osc := new Oscillator(bufferSize, sinTable, sawTable, triTable);
    ControlRangeIsSafe(0, 440);
    outcome := osc.Play();
    PhaseInvariant(0, 440, bufferSize);
    osc.Stop();
    stopped, released := osc.isPlaying, osc.audioTrack.state;
    osc.Stop();
    restopped := osc.isPlaying;
    ControlRangeIsSafe(osc.phase, 440);
    outcome := osc.Play();
    replaying, reopened := osc.isPlaying, osc.audioTrack.state;
  }

  /** The engine stores whatever volume it is given; only the track's gain is
      capped at full scale. */
  method VolumeAboveRange(sinTable: seq<int16>, sawTable: seq<int16>, triTable: seq<int16>)
    returns (volume: int32, gain: int)
    requires |sinTable| == SAMPLE_RATE && |sawTable| == SAMPLE_RATE && |triTable| == SAMPLE_RATE
    ensures volume == 150 && gain == 100
  {
    var osc := new Oscillator(1, sinTable, sawTable, triTable);
    osc.SetVolume(100);
    osc.SetVolume(150);
    volume, gain := osc.GetVolume(), osc.audioTrack.gain;
  }
}
