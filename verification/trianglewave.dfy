/**
 * `SendTriangleWave` of src/main.rs: a table of one period of frames, built
 * once by `new` from a ramp whose slope is negated when the value crosses a
 * bound, and handed unchanged to the transport by every `send`.
 */
module Triangle {
  import opened Pcm

  /** The state of the ramp generator: the current value and its signed slope. */
  datatype Ramp = Ramp(value: real, inc: real)

  function Abs(x: real): (r: real)
    ensures 0.0 <= r && (r == x || r == -x)
  {
    if x < 0.0 then -x else x
  }

  /**
   * Frames in the table: `(SAMPLE_RATE_HZ as f32 / freq) as usize`. A zero
   * frequency divides to positive infinity, which the cast saturates to
   * `usize::MAX`; a negative one gives a negative quotient, cast to 0.
   */
  function TableFrames(freq: real): (n: nat)
    ensures n <= USIZE_MAX
    ensures freq == 0.0 ==> n == USIZE_MAX
    ensures freq > 0.0 && USIZE_MAX as real + 1.0 <= SAMPLE_RATE_HZ as real / freq ==> n == USIZE_MAX
    ensures freq < 0.0 ==> n == 0
    ensures freq > 0.0 && SAMPLE_RATE_HZ as real / freq < 1.0 ==> n == 0
    ensures freq > 0.0 && SAMPLE_RATE_HZ as real / freq < USIZE_MAX as real + 1.0 ==>
      n as real <= SAMPLE_RATE_HZ as real / freq < n as real + 1.0
  {
    if freq == 0.0 then USIZE_MAX else SaturateToUsize(SAMPLE_RATE_HZ as real / freq)
  }

  /** The 440 Hz tone the program plays gets a table of 36 frames. */
  lemma TableFrames440()
    ensures TableFrames(440.0) == 36
  {
    assert 36.0 <= SAMPLE_RATE_HZ as real / 440.0 < 37.0;
  }

  /**
   * The initial slope `0.1 / buffer_size`. For an empty table the source divides
   * by zero; the slope is then never used, and this model takes 0.
   */
  function InitialSlope(n: nat): (s: real)
    ensures 0 < n ==> 0.0 < s
  {
    if n == 0 then 0.0 else 0.1 / n as real
  }

  /** Over the `n` frames of a table the slope adds up to exactly `0.1`. */
  lemma InitialSlopeSpread(n: nat)
    requires 0 < n
    ensures n as real * InitialSlope(n) == 0.1
  {
  }

  /** One step of the ramp: add the slope, then reflect at a bound. */
  function Step(r: Ramp): Ramp
  {
    var v := r.value + r.inc;
    if r.inc > 0.0 && v > 1.0 then Ramp(2.0 - v, -r.inc)
    else if r.inc < 0.0 && v < 1.0 then Ramp(-2.0 - v, -r.inc)
    else Ramp(v, r.inc)
  }

  /**
   * What a step does: rising above 1 mirrors the value about 1; falling while
   * below 1 (the source tests `< 1.0`, not `< -1.0`) mirrors it about -1. Either
   * reflection negates the slope and keeps its magnitude; otherwise the slope is
   * simply added.
   */
  lemma StepReflects(r: Ramp)
    ensures Abs(Step(r).inc) == Abs(r.inc)
    ensures Step(r).inc == -r.inc && r.inc > 0.0 ==> Step(r).value - 1.0 == 1.0 - (r.value + r.inc)
    ensures Step(r).inc == -r.inc && r.inc < 0.0 ==> Step(r).value + 1.0 == -1.0 - (r.value + r.inc)
    ensures Step(r).inc != r.inc <==>
      (r.inc > 0.0 && r.value + r.inc > 1.0) || (r.inc < 0.0 && r.value + r.inc < 1.0)
    ensures Step(r).inc == r.inc ==> Step(r).value == r.value + r.inc
  {
  }

  /** The ramp after `k` steps from value 0 and slope `inc0`; reflection only ever negates the slope. */
  function RampAfter(inc0: real, k: nat): (r: Ramp)
    ensures r.inc == inc0 || r.inc == -inc0
  {
    if k == 0 then Ramp(0.0, inc0) else Step(RampAfter(inc0, k - 1))
  }

  /**
   * Because of the `< 1.0` test, a falling step that lands anywhere in (-1, 1)
   * is thrown below -1, out of the range a sample can represent.
   */
  lemma FallingStepLeavesRange(r: Ramp)
    requires r.inc < 0.0 && -1.0 < r.value + r.inc < 1.0
    ensures Step(r).value < -1.0 && Step(r).inc == -r.inc
  {
  }

  /** The value after `k` rising steps of slope `s` from 0. */
  function Climb(s: real, k: nat): real
  {
    if k == 0 then 0.0 else Climb(s, k - 1) + s
  }

  /** `k` steps of slope `s` climb by `k * s`. */
  lemma {:induction false} ClimbIsProduct(s: real, k: nat)
    ensures Climb(s, k) == k as real * s
  {
    if k > 0 {
      ClimbIsProduct(s, k - 1);
      assert (k - 1) as real * s + s == k as real * s;
    }
  }

  /** More steps of a positive slope climb higher. */
  lemma {:induction false} ClimbRises(s: real, j: nat, k: nat)
    requires j < k && 0.0 < s
    ensures Climb(s, j) < Climb(s, k)
  {
    if j < k - 1 {
      ClimbRises(s, j, k - 1);
    }
  }

  /** Fewer than `n` steps of `0.1 / n` stay below 0.1. */
  lemma RampBelowTenth(n: nat, k: nat)
    requires k < n
    ensures 0.0 <= Climb(InitialSlope(n), k) < 0.1
  {
    var s := InitialSlope(n);
    InitialSlopeSpread(n);
    ClimbIsProduct(s, n);
    ClimbRises(s, k, n);
    if 0 < k {
      ClimbRises(s, 0, k);
    }
  }

  /**
   * With the initial slope `0.1 / n`, the first `n` values rise by less than 0.1
   * in all and never reach a bound: value `k` of the table is `k * 0.1 / n`, and
   * the slope is unchanged.
   */
  lemma {:induction false} RampNeverReflects(n: nat, k: nat)
    requires k < n
    ensures RampAfter(InitialSlope(n), k) == Ramp(Climb(InitialSlope(n), k), InitialSlope(n))
    ensures Climb(InitialSlope(n), k) == k as real * InitialSlope(n)
  {
    var s := InitialSlope(n);
    ClimbIsProduct(s, k);
    if k > 0 {
      RampNeverReflects(n, k - 1);
      RampBelowTenth(n, k);
      assert RampAfter(s, k) == Step(Ramp(Climb(s, k - 1), s));
    }
  }

  /** `(value * i16::MAX as f32) as i16 as u16`: saturate to `i16`, keep the bits as `u16`. */
  function TriangleSample(value: real): (v: U16)
    ensures -1.0 <= value <= 1.0 ==> U16AsI16(v) == TruncToInt(value * 32767.0)
  {
    I16AsU16(SaturateToI16(value * 32767.0))
  }

  /** The samples of the first `k` frames of a ramp that starts at 0 with slope `inc0`. */
  function RampSamples(inc0: real, k: nat): (s: seq<U16>)
    ensures |s| == k
  {
    if k == 0 then [] else RampSamples(inc0, k - 1) + [TriangleSample(RampAfter(inc0, k - 1).value)]
  }

  /** Frame `k` of a ramp holds the sample of the value after `k` steps. */
  lemma {:induction false} RampSampleAt(inc0: real, n: nat, k: nat)
    requires k < n
    ensures RampSamples(inc0, n)[k] == TriangleSample(RampAfter(inc0, k).value)
  {
    if k < n - 1 {
      RampSampleAt(inc0, n - 1, k);
    }
  }

  /** Writing the frame of step `k` after the first `k` frames gives the first `k + 1`. */
  lemma RampFrameAppend(inc0: real, k: nat, before: seq<U8>, after: seq<U8>, v: U16)
    requires before == Frames(RampSamples(inc0, k))
    requires v == TriangleSample(RampAfter(inc0, k).value)
    requires after == before + FrameBytes(v)
    ensures after == Frames(RampSamples(inc0, k + 1))
  {
    var s := RampSamples(inc0, k + 1);
    assert s[..k] == RampSamples(inc0, k);
  }

  /** The samples of a table of `n` frames, one per frame. */
  function TriangleSamples(n: nat): (s: seq<U16>)
    ensures |s| == n
  {
    RampSamples(InitialSlope(n), n)
  }

  /** The bytes of a table of `n` frames: `4 * n` of them, both channels alike. */
  function TriangleTable(n: nat): (b: seq<U8>)
    ensures |b| == 4 * n
  {
    Frames(TriangleSamples(n))
  }

  /** A ramp value in `[0, 0.1)` is stored as its truncated scaled value, in `0..=3276`. */
  lemma LowRampSample(x: real)
    requires 0.0 <= x < 0.1
    ensures TriangleSample(x) == TruncToInt(x * 32767.0)
    ensures 0 <= TriangleSample(x) <= 3276
  {
    assert 0.0 <= x * 32767.0 < 3276.7;
  }

  /**
   * What a table of `n` frames holds: sample `k` is the truncated scaled value
   * after `k` rising steps of `0.1 / n`, in `0..=3276`. No sample is negative and
   * the sign bit is never set.
   */
  lemma TriangleSampleAt(n: nat, k: nat)
    requires k < n
    ensures TriangleSamples(n)[k] == TruncToInt(Climb(InitialSlope(n), k) * 32767.0)
    ensures 0 <= TriangleSamples(n)[k] <= 3276
  {
    RampSampleAt(InitialSlope(n), n, k);
    RampNeverReflects(n, k);
    RampBelowTenth(n, k);
    LowRampSample(Climb(InitialSlope(n), k));
  }

  /** The table is a rising ramp: later frames never hold smaller samples. */
  lemma TriangleSamplesRise(n: nat, j: nat, k: nat)
    requires j < k < n
    ensures TriangleSamples(n)[j] <= TriangleSamples(n)[k]
  {
    TriangleSampleAt(n, j);
    TriangleSampleAt(n, k);
    ClimbRises(InitialSlope(n), j, k);
  }

  /**
   * The ramp update of the table loop: add the slope, then reflect about 1 when
   * rising past 1, or about -1 when falling while below 1.
   */
  method AdvanceRamp(value: real, valueInc: real) returns (value': real, valueInc': real)
    ensures Ramp(value', valueInc') == Step(Ramp(value, valueInc))
  {
    value', valueInc' := value + valueInc, valueInc;
    if valueInc' > 0.0 && value' > 1.0 {
      value' := 2.0 - value';
      valueInc' := -valueInc';
    } else if valueInc' < 0.0 && value' < 1.0 {
      value' := -2.0 - value';
      valueInc' := -valueInc';
    }
  }

  /**
   * Stores the sample of ramp value `value` in both channels of frame `frame`,
   * extending the table written so far by one frame.
   */
  method PutRampFrame(buf: array<U8>, i: nat, value: real, ghost inc0: real, ghost frame: nat)
    requires i == 4 * frame && i + 4 <= buf.Length
    requires value == RampAfter(inc0, frame).value
    requires buf[..i] == Frames(RampSamples(inc0, frame))
    modifies buf
    ensures buf[..i + 4] == Frames(RampSamples(inc0, frame + 1))
    ensures buf[i + 4..] == old(buf[i + 4..])
  {
    var sample := TriangleSample(value);
    ghost var before := buf[..];
    PutFrame(buf, i, sample);
    assert buf[..i + 4] == before[..i] + FrameBytes(sample);
    RampFrameAppend(inc0, frame, before[..i], buf[..i + 4], sample);
  }

  /**
   * The table loop of `SendTriangleWave::new`: from value 0 and slope `inc0`,
   * writes the sample of each value into its frame and then steps the ramp.
   */
  method FillRamp(buf: array<U8>, inc0: real, ghost n: nat)
    requires buf.Length == 4 * n
    modifies buf
    ensures buf[..] == Frames(RampSamples(inc0, n))
  {
    var value := 0.0;
    var valueInc := inc0;
    var i := 0;
    ghost var frame := 0;
    while i < buf.Length
      invariant 0 <= i <= buf.Length && i == 4 * frame
      invariant Ramp(value, valueInc) == RampAfter(inc0, frame)
      invariant buf[..i] == Frames(RampSamples(inc0, frame))
    {
      PutRampFrame(buf, i, value, inc0, frame);
      value, valueInc := AdvanceRamp(value, valueInc);
      i := i + 4;
      frame := frame + 1;
    }
    assert frame == n && buf[..] == buf[..i];
  }

  class SendTriangleWave {
    /** The precomputed table of one period. */
    const buffer: array<U8>
    /** The number of frames in the table; the source keeps it only as the buffer's length. */
    ghost const frames: nat

    ghost predicate Valid()
      reads this, buffer
    {
      buffer[..] == TriangleTable(frames)
    }

    /**
     * `SendTriangleWave::new`: sizes and builds the table. A table of more than
     * `usize::MAX / 4` frames, as a zero frequency gives, overflows `buffer_size * 4`.
     */
    constructor (freq: real)
      requires TableFrames(freq) <= USIZE_MAX / 4
      ensures Valid() && fresh(buffer)
      ensures frames == TableFrames(freq) && buffer.Length == 4 * frames
    {
      var n := TableFrames(freq);
      var buf := new U8[n * 4](_ => 0);
      FillRamp(buf, InitialSlope(n), n);
      buffer := buf;
      frames := n;
    }

    /** `SendTriangleWave::send`: hands the table, unchanged, to the transport. */
    method Send() returns (written: seq<U8>)
      requires Valid()
      ensures written == TriangleTable(frames)
      ensures Valid()
    {
      written := buffer[..];
    }
  }
}
