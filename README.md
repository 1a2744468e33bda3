# Modulo oscillator, modelled in Dafny

Modulo is an Android tone generator. Its engine, the `Oscillator` class, plays
a waveform by reading a one-cycle lookup table through an integer phase
accumulator. Each table has one entry per output sample: N = 44100 entries,
the sample rate. The engine fills a buffer of L samples and streams it to an
`AudioTrack`. Each slot of the buffer does three things:

1. wraps `phase` with Java's `%` by the table length;
2. copies that table entry into the slot;
3. adds `frequency` to `phase` in 32-bit `int` arithmetic.

Because N equals the sample rate, a step of `frequency` entries per sample
plays `frequency` cycles per second.

This project models that engine:

- its control state: frequency, volume, playing flag, phase and the active table;
- the four tables, with the square table generated in integer arithmetic;
- waveform selection by picker position;
- the play/pause/stop machine over the track's initialised/released state;
- the buffer fill, including what happens when a read falls outside the table.

The model proves what the fill computes. Slot `i` of a buffer started at
phase `p0` holds `table[(p0 + i*f) mod N]`. Consecutive buffers continue one
stream without a seam. The phase left behind is congruent to `p0 + L*f` and
stays below `N + f`.

The engine never checks the frequency it is given. Whenever `phase` is negative
and not a multiple of N, Java's `%` returns a negative index and the read throws
`ArrayIndexOutOfBoundsException`. A negative step can get there: from phase 0,
any step strictly between −N and 0 does at the second slot. So can a step large
enough that `phase + frequency` overflows an `int`. The model returns the
exception as a `FillOutcome` and shows concrete inputs that reach it. The safe range of steps is `0 ≤ f ≤ 2^31 − 1 − (N − 1)`, and it
is tight. Every frequency the sliders offer, 20 to 20000 Hz, lies inside it.

Files, one module each:

- `java_int.dfy` (`JavaInt`): Java `int` and `short` as subset types, `int`
  addition with wrap-around, and Java's truncating `%`.
- `wavetable.dfy` (`Wavetable`): the sample rate and frequency limits, the
  waveform picker mapping, and the square table with its generator.
- `phase_accumulator.dfy` (`PhaseAccumulator`): the accumulator as functions
  (`PhaseAt`, `ReadIndex`, `NoFault`, `Rendered`) and the lemmas about them.
- `audio_sink.dfy` (`AudioSink`): the platform audio track, abstracted. It is
  initialised or uninitialised, has a play state and a gain, and keeps a ghost
  record of the buffers it accepted and of the samples still queued.
- `oscillator.dfy` (`Modulo`): the `Oscillator` class, plus three scenarios
  that drive it through its public operations.

Four behaviours of the code are worth stating plainly, and the model follows
each of them:

- `setFreq` stores any `int`, with no range check (Oscillator.java:102-105).
- `phase` is reduced at the top of each slot but not after the last
  increment (Oscillator.java:215), so between fills it can be as large as
  `N + f − 1`. With a step outside the safe range it can be negative.
- `play` never checks that the track it has just created opened
  (Oscillator.java:85).
- `setVolume` calls `setStereoVolume` even on a released track, which refuses
  the call (Oscillator.java:121).

## Model

| member | source | states |
|---|---|---|
| `JavaInt.AddInt` | src/com/modulo/Oscillator.java:215 | `phase += frequency` on Java `int`s: the exact sum when it fits; otherwise the sum shifted by 2^32, which makes an overflow negative and an underflow non-negative |
| `JavaInt.AddIntCongruent` | src/com/modulo/Oscillator.java:215 | the wrapped sum is congruent to the exact sum modulo 2^32, and it is the only `int` that is |
| `JavaInt.JavaRem` | src/com/modulo/Oscillator.java:207 | `phase %= sample.length`: the remainder is strictly between −n and n, equals Dafny's `%` for a non-negative dividend, and is non-positive for a negative dividend |
| `Wavetable.WaveformAt` | src/com/modulo/Oscillator.java:223-238 | `setWave`'s switch: 0 selects sine, 1 sawtooth, 2 square, 3 triangle, and every other position (the `default`) selects sine, each stated as an if-and-only-if |
| `Wavetable.Position` | src/com/modulo/Oscillator.java:225-236 | every waveform has a picker position in 0..3 that selects it |
| `Wavetable.SquareShape` | src/com/modulo/Oscillator.java:184-197 | the square table has N entries: `Short.MAX_VALUE` for i < N/2, `Short.MIN_VALUE` from N/2 on, so entry N/2−1 is 32767 and entry N/2 is −32768 |
| `Wavetable.GenerateSqr` | src/com/modulo/Oscillator.java:180-198 | fills a fresh array of length N whose contents are the square table |
| `Wavetable.SquareTable` | src/com/modulo/Oscillator.java:186-196 | the square table `generateSqr` builds, as a value: N entries, each either 32767 or −32768 |
| `PhaseAccumulator.PhaseAt` | src/com/modulo/Oscillator.java:207-215 | the value of `phase` at the top of slot i of a fill started at p0: each slot applies Java's `%` by N and then adds `f` with 32-bit wrap-around. With a step 0 ≤ f ≤ 2^31−1−(N−1), every phase after the first slot lies strictly within N of f |
| `PhaseAccumulator.ReadIndex` | src/com/modulo/Oscillator.java:207-211 | the table index slot i reads, `phase % sample.length` in Java's arithmetic, which lies strictly between −N and N and is out of bounds exactly when negative |
| `PhaseAccumulator.Rendered` | src/com/modulo/Oscillator.java:203-216 | the block a fault-free fill of `count` slots writes into `buffer`: one sample per slot, slot i holding the table entry at `ReadIndex` i |
| `PhaseAccumulator.PhaseInvariant` | src/com/modulo/Oscillator.java:203-216 | for a start phase ≥ 0 and a step 0 ≤ f ≤ 2^31−1−(N−1), the phase is never negative, is below N + f after every increment, and is congruent modulo N to the unreduced position |
| `PhaseAccumulator.ReadIndexClosedForm` | src/com/modulo/Oscillator.java:207-211 | under the same bounds, slot i reads table index `(p0 + i*f) mod N`, which lies in [0, N) |
| `PhaseAccumulator.RenderedClosedForm` | src/com/modulo/Oscillator.java:203-216 | under the same bounds no read of a fill of any length leaves the table, and the block has L slots with slot i equal to `table[(p0 + i*f) mod N]` |
| `PhaseAccumulator.PhaseAfterFill` | src/com/modulo/Oscillator.java:207-215 | after a fill of L ≥ 1 slots the phase is congruent to `p0 + L*f` modulo N, lies in [0, N + f), and is again a safe start for the next fill |
| `PhaseAccumulator.ControlRangeIsSafe` | src/com/modulo/Oscillator.java:10-11 | every frequency in [MIN_FREQUENCY, MAX_FREQUENCY] is a safe step, so from a non-negative phase no fill of any length faults |
| `PhaseAccumulator.PhaseAtSplit` | src/com/modulo/Oscillator.java:200-216 | `phase` carries over between calls: a steps and then b more from where they stopped equal a + b steps |
| `PhaseAccumulator.RenderedSplit` | src/com/modulo/Oscillator.java:200-216 | two consecutive fills of a and b slots are fault-free exactly when one fill of a + b slots is, and then they produce the same samples in the same order |
| `PhaseAccumulator.FullCycleReturns` | src/com/modulo/Oscillator.java:207-215 | fills totalling exactly N slots at any safe step bring the phase back to its start modulo N |
| `PhaseAccumulator.NegativeStepFaults` | src/com/modulo/Oscillator.java:102-105 | `setFreq` accepts a negative step. From phase 0 with −N < f < 0, the second slot reads index f < 0, so every fill of two or more slots faults |
| `PhaseAccumulator.OverflowingStepFaults` | src/com/modulo/Oscillator.java:207-215 | the safe bound is tight: with step 2^31−1−(N−2) from phase N−1, `phase += frequency` overflows to `Integer.MIN_VALUE` and the next slot reads a negative index |
| `PhaseAccumulator.SquareSweep` | src/com/modulo/Oscillator.java:188-194 | reading the square table from phase 0 at step 1 for N slots gives N/2 samples of 32767 followed by N/2 samples of −32768 |
| `AudioSink.GainFor` | src/com/modulo/Oscillator.java:121 | the gain a volume percentage sets lies in [0, 100]: the percentage itself when it is in range, 0 below, 100 above |
| `AudioSink.AudioTrack.constructor` | src/com/modulo/Oscillator.java:65-68 | a new streaming track is initialised, stopped, at full gain, and has accepted nothing |
| `AudioSink.AudioTrack.Write` | src/com/modulo/Oscillator.java:219 | an initialised track appends the buffer to what it has accepted and queued; a released track accepts nothing; state, play state and gain stay as they were |
| `AudioSink.AudioTrack.SetStereoVolume` | src/com/modulo/Oscillator.java:70 | an initialised track takes the gain of the volume; a released track keeps its gain |
| `AudioSink.AudioTrack.Play` | src/com/modulo/Oscillator.java:81 | an initialised track is playing afterwards |
| `AudioSink.AudioTrack.Pause` | src/com/modulo/Oscillator.java:57 | an initialised track is paused afterwards |
| `AudioSink.AudioTrack.Flush` | src/com/modulo/Oscillator.java:58 | an initialised track that is not playing drops its queued samples; otherwise the queue stays as it was |
| `AudioSink.AudioTrack.Release` | src/com/modulo/Oscillator.java:99 | the track is uninitialised and stopped afterwards, with nothing queued |
| `Modulo.Oscillator.constructor` | src/com/modulo/Oscillator.java:20-49 | frequency 440, volume 50, not playing, phase 0. The sine table is active. Every table has length N, and the square table is the generated one. The buffer has the device's length. The track is open, stopped, at gain 50, has accepted nothing and has nothing queued |
| `Modulo.Oscillator.InitializeAudioTrack` | src/com/modulo/Oscillator.java:63-73 | returns a fresh, initialised, stopped track whose gain comes from the current volume |
| `Modulo.Oscillator.FillBuffer` | src/com/modulo/Oscillator.java:200-220 | completes exactly when no slot reads outside the table. On completion the buffer holds the rendered block, `phase` is the phase after L steps, and an initialised track has appended the buffer to its log and its queue. On a fault it reports the slot and the negative index, and `phase` is that index. Earlier slots are rendered, later slots untouched, and the track's log and queue are unchanged. The track's state, play state and gain never change. The four tables, the frequency, the volume, the flag and the active table never change |
| `Modulo.Oscillator.FillSlots` | src/com/modulo/Oscillator.java:203-216 | the loop of the fill, with the same outcome, buffer and phase contract as `FillBuffer` and no write |
| `Modulo.Oscillator.SetWave` | src/com/modulo/Oscillator.java:223-238 | the active table becomes the table of `WaveformAt(pos)`, and nothing else changes |
| `Modulo.Oscillator.Play` | src/com/modulo/Oscillator.java:75-90 | ends with the playing flag set and an initialised track. An initialised track is kept with its gain; a released one is replaced by a fresh one with the current volume's gain and an empty log and queue. On completion one rendered buffer has been appended to the track's log and queue and the track is playing. On a fault the phase holds the negative index, nothing new was written or queued, and the track was never started: a kept track keeps its play state and a new one is stopped |
| `Modulo.Oscillator.Pause` | src/com/modulo/Oscillator.java:51-60 | on an initialised track: clears the flag, pauses the track and empties its queue, and keeps it open. Otherwise nothing changes |
| `Modulo.Oscillator.Stop` | src/com/modulo/Oscillator.java:92-101 | on an initialised track: clears the flag and leaves the track released, stopped and empty. Otherwise nothing changes, so a second stop is a no-op |
| `Modulo.Oscillator.SetFreq` | src/com/modulo/Oscillator.java:102-109 | stores the given frequency exactly, with no clamping; `getFreq` returns it |
| `Modulo.Oscillator.SetIsPlaying` | src/com/modulo/Oscillator.java:110-117 | stores the flag; `getIsPlaying` returns it |
| `Modulo.Oscillator.SetVolume` | src/com/modulo/Oscillator.java:118-126 | stores the given volume exactly. `getVolume` returns it. An initialised track takes the matching gain, and a released one keeps its own |
| `Modulo.SquareAtOneHertz` | src/com/modulo/Oscillator.java:200-238 | construct, select position 2, set 1 Hz and fill a buffer of N slots: the first half is all 32767 and the second half all −32768 |
| `Modulo.StopThenReplay` | src/com/modulo/Oscillator.java:75-101 | play, stop, stop, play: the stop clears the flag and releases the track, the second stop leaves the flag clear, and the next play reopens the track and completes its fill |
| `Modulo.VolumeAboveRange` | src/com/modulo/Oscillator.java:118-126 | after `setVolume(100)` and `setVolume(150)`, `getVolume` reports 150 (the engine does not clamp) while the track's gain is 100 |

## Left out

- `generateSin`, `generateSaw`, `generateTri`: they compute in `float` with `Math.sin` and float-to-short casts. Their tables are constructor parameters of length N, and their contents are not modelled.
- `getMinBufferSize`: it is a platform query. The buffer length is a constructor parameter. The model does not cover the negative error codes it can return, which would make `new short[...]` throw.
- AudioTrack platform behaviour: the track is reduced to its state, play state, gain, accepted buffers and queue. Playback timing, the blocking of `write` and device-open failure are not modelled; a new track always opens.
- `AudioSink.GainFor`: states the float gain `getMaxVolume()*(volume/100.0f)` as an integer percentage clamped to [0, 100], without float rounding.
- Exceptions: only the out-of-bounds table read is modelled, returned as a `FillOutcome`. Its propagation to the caller is not modelled, nor the `IllegalStateException` that `audioTrack.play()` would throw on a track that failed to open.
- Concurrency: `ToneGen.java` runs `fillBuffer` in a loop on a background thread while the UI thread calls the setters, with no synchronisation. The model is sequential: each operation runs to completion.
- `ToneGen.java`: the user interface, text parsing, the caller-side clamps of frequency to at most 20000 and volume to at most 100, and the slider offset. The model covers the engine only.
