# test-esp-sound, modelled in Dafny

`src/main.rs` drives an I2S audio output on an ESP32. It streams interleaved
16-bit stereo PCM at 16000 frames per second through an I2S driver with 12 DMA
buffers of 240 frames each. It has two wave generators:

- `SendSinewave` keeps a phase accumulator `omega` and one reusable byte buffer
  that holds all the DMA buffers. Each `send(n_buffers)` overwrites the first
  `n_buffers * 240` frames. Each frame gets the sample `sin(omega * freq)`
  scaled by half of `i16::MAX` and cast to `u16`. The phase then advances by
  `TAU / 16000` and wraps at `TAU`. The filled prefix goes to the driver.
- `SendTriangleWave` builds one table in `new(freq)`. The table has
  `16000 / freq` frames. It is filled from a value that starts at 0 and moves
  by `0.1 / frames` per frame, with its slope negated when it crosses a bound.
  Each value is scaled by `i16::MAX`, cast to `i16` and reinterpreted as
  `u16`. Every `send` hands the same table to the driver.

A frame is four bytes: the sample little-endian in the left slot, then again in
the right slot.

The project has three modules:

- `Pcm` (`pcm.dfy`) holds the constants, Rust's float-to-integer and
  `i16`-to-`u16` casts, and the frame encoding. It proves the encoding against
  a decoder.
- `Sine` (`sinewave.dfy`) models `SendSinewave` as a class with a mutable phase
  and an `array` buffer. It proves the phase arithmetic and what `Send` writes.
- `Triangle` (`trianglewave.dfy`) models `SendTriangleWave` as a class whose
  constructor runs the table loop over an `array`. It proves what the table
  holds.

f32 values are `real`. Every float-to-integer `as` cast is truncation toward
zero followed by saturation. `sin` is a parameter of the members that need it.

What the table code does differs from a symmetric triangle wave. The slope is
`0.1 / frames`, so over the `frames` frames of the table the value climbs from
0 to just under 0.1. It never reaches the bound 1 and never reflects. The table
therefore holds a rising ramp of samples in `0..=3276`, repeated on every
`send`. The model follows the code: `RampNeverReflects`, `TriangleSampleAt`
and `TriangleSamplesRise` state this. The falling-branch test is `value < 1.0`
where `-1.0` would mirror the rising one. The model keeps that test as written,
and `FallingStepLeavesRange` states its effect. The sine cast goes straight to
`u16`, so the negative half-wave saturates to 0. The model keeps that too
(`ScaleSine`).

## Model

| member | source | states |
|---|---|---|
| Pcm.TruncToInt | src/main.rs:46 | The integer part of a float cast: non-negative values round down, negative values round up, and the result differs by less than 1 |
| Pcm.SaturateToU16 | src/main.rs:46 | `x as u16` gives 0 for anything below 1 (every negative value included), the truncation inside the range and `u16::MAX` above it |
| Pcm.SaturateToI16 | src/main.rs:75 | `x as i16` gives the truncation inside the range and saturates to `i16::MIN` or `i16::MAX` outside it |
| Pcm.SaturateToUsize | src/main.rs:69 | `x as usize` on the 32-bit target: 0 below 1, the truncation within range, `usize::MAX` from `usize::MAX + 1` up |
| Pcm.I16AsU16 | src/main.rs:75 | `v as u16` on an `i16` keeps the value modulo 2^16: non-negative values are unchanged and negative ones get the top bit set |
| Pcm.U16AsI16 | src/main.rs:75 | Reading sixteen bits back as two's complement inverts `I16AsU16` |
| Pcm.I16RoundTrip | src/main.rs:75 | Every `i16` survives the `u16` reinterpretation and back |
| Pcm.LowByte | src/main.rs:48 | `(v & 0x00ff) as u8` is the byte congruent to `v` modulo 256 |
| Pcm.HighByte | src/main.rs:49 | `((v & 0xff00) >> 8) as u8` is the byte `h` with `256 * h <= v < 256 * (h + 1)` |
| Pcm.FromLittleEndian | src/main.rs:48-51 | The value rebuilt from two bytes has exactly those bytes as its masked low byte and shifted high byte |
| Pcm.LittleEndianRoundTrip | src/main.rs:48-51 | Every 16-bit sample is recovered from its low and high byte |
| Pcm.FrameBytes | src/main.rs:48-51 | A frame is four bytes, and both its left and its right slot decode to the sample |
| Pcm.PutFrame | src/main.rs:77-80 | The four byte writes put the frame of `v` at offset `i` and leave every other byte of the buffer unchanged |
| Pcm.Frames | src/main.rs:45-51 | A stream of frames has four bytes per sample |
| Pcm.Decode | src/main.rs:48-51 | A receiver reading one channel gets one sample per whole frame |
| Pcm.FramesAt | src/main.rs:45-51 | Byte `4k+j` of the stream is byte `j` of sample `k`'s frame: frames are laid out in sample order at stride 4 |
| Pcm.DecodeFrames | src/main.rs:48-51 | Decoding either channel of the encoded stream returns exactly the samples, and the two channels carry identical bytes |
| Pcm.EncodeDecoded | src/main.rs:48-51 | Conversely, any whole-frame stream whose channels agree is the encoding of its left channel, so the encoding is a bijection onto such streams |
| Pcm.FramesAppend | src/main.rs:45-51 | Encoding distributes over concatenation of sample sequences |
| Sine.SendLength | src/main.rs:45 | A send covers `4 * n_buffers * DMA_FRAMES` bytes, and that fits the buffer exactly when `n_buffers <= DMA_BUFFERS` |
| Sine.PhaseAfter | src/main.rs:45-56 | The phase after `n` frames: `AdvancePhase` applied `n` times. Its properties are stated by the three lemmas below |
| Sine.AdvancePhase | src/main.rs:52-56 | One frame adds `OMEGA_INC` to the phase, less one turn when it reaches `TAU`, and keeps a phase in `[0, TAU)` inside it |
| Sine.PhaseStaysInPeriod | src/main.rs:52-56 | Any number of frames keeps the phase in `[0, TAU)` |
| Sine.PhaseAfterAdd | src/main.rs:52-56 | Advancing `a` frames then `b` frames equals advancing `a + b` frames |
| Sine.PhaseAfterWinds | src/main.rs:52-56 | After `n` frames the phase is the start plus `n * OMEGA_INC` less a whole number of turns |
| Sine.ReduceModTau | src/main.rs:54-56 | Reduction modulo `TAU` lands in `[0, TAU)` |
| Sine.PhaseAfterIsReduced | src/main.rs:52-56 | After `n` frames the phase equals `(omega + n * OMEGA_INC) mod TAU` |
| Sine.ScaleSine | src/main.rs:46 | A sine value at most 0 gives sample 0; one in `[0, 1]` gives the truncation of `s * 0.5 * i16::MAX`; one at most 1 never exceeds 16383 |
| Sine.SineSample | src/main.rs:46 | The sample of one frame is `ScaleSine` of `sin(omega * freq)`. `ScaleSine` states its bounds |
| Sine.SineSamples | src/main.rs:45-57 | A block of `n` frames has `n` samples |
| Sine.SineSampleAt | src/main.rs:45-57 | Frame `k` of a block holds the sample at the phase reached after `k` frames |
| Sine.SineSamplesSplit | src/main.rs:40-60 | Phase continuity: `a + b` frames are the first `a` followed by `b` frames from the phase reached after `a` |
| Sine.SineBytesSplit | src/main.rs:40-60 | Two consecutive sends put on the wire exactly the bytes of one send of both |
| Sine.SineSamplesInRange | src/main.rs:46-51 | With `sin` in `[-1, 1]`, every sample either channel carries lies in `0..=16383` |
| Sine.SendSinewave.constructor | src/main.rs:30-36 | `new` stores the frequency, starts the phase at 0 and allocates a zeroed buffer of `DMA_BUFFERS * DMA_FRAMES * 4` bytes |
| Sine.SendSinewave.Send | src/main.rs:40-60 | Given `n_buffers <= DMA_BUFFERS`, the bytes handed over are the frames of `n_buffers * DMA_FRAMES` samples from the old phase. The buffer's prefix holds exactly those bytes and the rest is unchanged. The phase advanced by that many frames and stays in `[0, TAU)` |
| Triangle.TableFrames | src/main.rs:69 | The frame count is the truncated `16000 / freq`, saturated into `usize`: `usize::MAX` for a zero frequency or a quotient of at least `2^32`, and 0 for a negative frequency or a quotient below 1 |
| Triangle.TableFrames440 | src/main.rs:127 | The 440 Hz tone the program plays gets a table of 36 frames |
| Triangle.InitialSlope | src/main.rs:72 | The initial slope of a non-empty table is positive |
| Triangle.InitialSlopeSpread | src/main.rs:72 | Over the table's frames the slope adds up to exactly 0.1 |
| Triangle.Step | src/main.rs:81-89 | One ramp update: add the slope, then reflect at a bound. `StepReflects` states what it does |
| Triangle.StepReflects | src/main.rs:81-89 | A step reflects exactly when the value rises past 1 or falls below 1. A reflection mirrors the value about 1 or about -1 and negates the slope. Otherwise the slope is added. The slope's magnitude never changes |
| Triangle.RampAfter | src/main.rs:74-89 | After any number of steps the slope is still `value_inc` as first computed or its negation: its magnitude never changes |
| Triangle.FallingStepLeavesRange | src/main.rs:86-88 | Because the falling test is `< 1.0`, a falling step landing in `(-1, 1)` is thrown below -1 |
| Triangle.ClimbIsProduct | src/main.rs:81 | `k` unreflected steps of slope `s` climb by `k * s` |
| Triangle.ClimbRises | src/main.rs:81 | More unreflected steps of a positive slope climb strictly higher |
| Triangle.RampBelowTenth | src/main.rs:72-81 | Within the table the climb stays in `[0, 0.1)` |
| Triangle.RampNeverReflects | src/main.rs:72-89 | Within the table the value after `k` steps is `k * 0.1 / frames` and the slope is unchanged: no reflection ever happens |
| Triangle.TriangleSample | src/main.rs:75 | A value in `[-1, 1]` is stored as the 16 bits of the truncated `value * i16::MAX` |
| Triangle.RampSamples | src/main.rs:74-90 | A ramp block of `k` frames has `k` samples |
| Triangle.RampSampleAt | src/main.rs:74-90 | Frame `k` holds the sample of the value after `k` steps |
| Triangle.RampFrameAppend | src/main.rs:74-81 | Writing the frame of step `k` after the first `k` frames gives the first `k + 1` |
| Triangle.TriangleSamples | src/main.rs:70-90 | A table of `n` frames has `n` samples |
| Triangle.TriangleTable | src/main.rs:70 | A table of `n` frames has `4 * n` bytes |
| Triangle.LowRampSample | src/main.rs:75 | A value in `[0, 0.1)` is stored as its truncated scaled value, in `0..=3276` |
| Triangle.TriangleSampleAt | src/main.rs:68-90 | Sample `k` of the table is the truncation of `k * (0.1 / frames) * i16::MAX`, in `0..=3276`, so the sign bit is never set |
| Triangle.TriangleSamplesRise | src/main.rs:68-90 | The table is a non-decreasing ramp: a later frame never holds a smaller sample |
| Triangle.AdvanceRamp | src/main.rs:81-89 | The in-place update of `value` and `value_inc` performs exactly one `Step` |
| Triangle.PutRampFrame | src/main.rs:75-80 | Storing the current value's sample extends the table written so far by one frame and leaves every later byte unchanged |
| Triangle.FillRamp | src/main.rs:71-90 | The loop fills the whole buffer with the frames of the ramp started at 0 with slope `value_inc` |
| Triangle.SendTriangleWave.constructor | src/main.rs:68-95 | `new` allocates `4 * TableFrames(freq)` bytes and fills them with the table of that many frames |
| Triangle.SendTriangleWave.Send | src/main.rs:99-101 | `send` hands over exactly the table and leaves it unchanged |

## Left out

- `main` and the I2S driver setup: logging, pin and clock configuration, the endless send loop. These are hardware I/O. Only the 440 Hz frequency `main` passes to `SendTriangleWave::new` appears, in `TableFrames440`.
- `driver.write`, the `TIMEOUT` and the `Result<usize, EspError>` that `send` returns are foreign calls. Both `Send` methods return the bytes they hand to the driver instead.
- Sine.SendSinewave.Send: `f32::sin` is the parameter `sin`. The model states what is written in terms of it and assumes its range only where `SineSamplesInRange` says so.
- f32 rounding, NaN, infinities and signed zero. `TAU` and every intermediate value are exact reals, so the model does not capture the drift that accumulates from adding `OMEGA_INC` in f32.
- Triangle.TableFrames: a zero frequency gives `usize::MAX` (positive infinity, saturated); `new` itself cannot take such a frequency, see the constructor line above. The division by `-0.0` is not modelled.
- Triangle.InitialSlope: for an empty table the source divides 0.1 by zero. The model takes 0, because an empty table never reads the slope.
- Sine.SendSinewave.Send: `n_buffers <= DMA_BUFFERS` is a precondition. In the source, a larger count up to `usize::MAX / 960` panics when it indexes past the buffer. A larger one overflows `n_buffers * DMA_FRAMES * 4` first. A debug build panics on that overflow. A release build wraps, and the wrapped length (0 for `n_buffers = 2^26`) is not modelled.
- Triangle.SendTriangleWave.constructor: `TableFrames(freq) <= usize::MAX / 4` is a precondition. It excludes a zero frequency and positive frequencies below about 1.5e-5 Hz. For those, `buffer_size * 4` overflows: a debug build panics, and a release build wraps to a length that the model does not follow. `TableFrames` itself is defined for every frequency.
- The frame count of `SendTriangleWave` is a ghost field. The source keeps it only as the buffer's length.
- `build.rs` and the crate's configuration files describe the build, not the behaviour, so they are not part of this model.
