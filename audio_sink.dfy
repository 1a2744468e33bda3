/** The platform audio track the oscillator streams into, reduced to what the
    oscillator relies on: whether the handle is initialised, its play state,
    its gain, and a ghost record of the samples it has accepted. */
module AudioSink {
  import opened JavaInt

  /** `STATE_INITIALIZED`, or `STATE_UNINITIALIZED` (which is also what a
      released track reports). */
  datatype TrackState = Uninitialized | Initialized

  datatype PlayState = Stopped | Paused | Playing

  /** The gain the track applies, as the percentage of full scale a requested
      volume amounts to: the track clamps its gain to the range it supports. */
  function GainFor(volume: int32): (g: int)
    ensures 0 <= g <= 100
    ensures 0 <= volume <= 100 ==> g == volume
    ensures volume < 0 ==> g == 0
    ensures 100 < volume ==> g == 100
  {
    if volume < 0 then 0 else if volume > 100 then 100 else volume
  }

  class AudioTrack {
    var state: TrackState
    var playState: PlayState
    var gain: int
    /** Every buffer the track has accepted, in order. */
    ghost var written: seq<seq<int16>>
    /** The accepted samples still waiting to be played. */
    ghost var queued: seq<int16>

    ghost predicate Valid()
      reads this
    {
      0 <= gain <= 100 && (state == Uninitialized ==> playState == Stopped && queued == [])
    }

    /** Opens a mono 16-bit streaming track at full gain. */
    constructor ()
      ensures Valid()
      ensures state == Initialized && playState == Stopped && gain == 100
      ensures written == [] && queued == []
    {
      state := Initialized;
      playState := Stopped;
      gain := 100;
      written := [];
      queued := [];
    }

    /** Accepts a buffer when the track is initialised; a released track
        refuses the write and records nothing. */
    method Write(data: seq<int16>)
      requires Valid()
      modifies this
      ensures Valid()
      ensures state == old(state) && playState == old(playState) && gain == old(gain)
      ensures old(state) == Initialized ==> written == old(written) + [data] && queued == old(queued) + data
      ensures old(state) == Uninitialized ==> written == old(written) && queued == old(queued)
    {
      if state == Initialized {
        written := written + [data];
        queued := queued + data;
      }
    }

    /** Sets the gain from a volume percentage; refused on a released track. */
    method SetStereoVolume(volume: int32)
      requires Valid()
      modifies this`gain
      ensures Valid()
      ensures gain == if state == Initialized then GainFor(volume) else old(gain)
    {
      if state == Initialized {
        gain := GainFor(volume);
      }
    }

    method Play()
      requires Valid() && state == Initialized
      modifies this`playState
      ensures Valid()
      ensures playState == Playing
    {
      playState := Playing;
    }

    method Pause()
      requires Valid() && state == Initialized
      modifies this`playState
      ensures Valid()
      ensures playState == Paused
    {
      playState := Paused;
    }

    /** Discards the queued samples of a paused or stopped track; a playing or
        released track is left as it is. */
    method Flush()
      requires Valid()
      modifies this`queued
      ensures Valid()
      ensures queued == if state == Initialized && playState != Playing then [] else old(queued)
    {
      if state == Initialized && playState != Playing {
        queued := [];
      }
    }

    /** Gives the handle back to the platform: the track stops, drops what it
        had queued and reports itself uninitialised from then on. */
    method Release()
      requires Valid()
      modifies this`state, this`playState, this`queued
      ensures Valid()
      ensures state == Uninitialized && playState == Stopped && queued == []
    {
      state := Uninitialized;
      playState := Stopped;
      queued := [];
    }
  }
}
