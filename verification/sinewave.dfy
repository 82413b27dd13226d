/**
 * `SendSinewave` of src/main.rs: a phase accumulator `omega` and a reusable
 * buffer of `DMA_BUFFERS * DMA_FRAMES` frames. Each `Send` overwrites a prefix
 * of the buffer with one sine sample per frame, advancing and wrapping the
 * phase after every frame, and hands that prefix to the transport.
 *
 * `f32::sin` is not modelled: it is the parameter `sin` of the members that
 * need it, assumed to return a value in [-1, 1] only where a lemma says so.
 */
module Sine {
  import opened Pcm

  /** A full turn, `std::f32::consts::TAU`, taken as an exact real. */
  const TAU: real := 6.28318530717958647692
  /** Phase advance per frame, `TAU / SAMPLE_RATE_HZ`. */
  const OMEGA_INC: real := TAU / SAMPLE_RATE_HZ as real
  /** Size of the reusable buffer in bytes. */
  const BUFFER_LEN: nat := DMA_BUFFERS * DMA_FRAMES * 4

  /** Number of bytes a call for `nBuffers` DMA buffers fills and sends. */
  function SendLength(nBuffers: nat): (len: nat)
    ensures len == 4 * (nBuffers * DMA_FRAMES)
    ensures nBuffers <= DMA_BUFFERS <==> len <= BUFFER_LEN
  {
    nBuffers * DMA_FRAMES * 4
  }

  /** The phase update after one frame: add the increment, subtract one turn once it reaches `TAU`. */
  function AdvancePhase(omega: real): (r: real)
    ensures r == omega + OMEGA_INC || r == omega + OMEGA_INC - TAU
    ensures 0.0 <= omega < TAU ==> 0.0 <= r < TAU
  {
    var o := omega + OMEGA_INC;
    if o >= TAU then o - TAU else o
  }

  /** The phase after `n` frames starting from `omega`. */
  function PhaseAfter(omega: real, n: nat): real
  {
    if n == 0 then omega else AdvancePhase(PhaseAfter(omega, n - 1))
  }

  /** The phase never leaves one period. */
  lemma {:induction false} PhaseStaysInPeriod(omega: real, n: nat)
    requires 0.0 <= omega < TAU
    ensures 0.0 <= PhaseAfter(omega, n) < TAU
  {
    if n > 0 {
      PhaseStaysInPeriod(omega, n - 1);
    }
  }

  /** Advancing `a` frames and then `b` frames is advancing `a + b` frames. */
  lemma {:induction false} PhaseAfterAdd(omega: real, a: nat, b: nat)
    ensures PhaseAfter(omega, a + b) == PhaseAfter(PhaseAfter(omega, a), b)
  {
    if b > 0 {
      PhaseAfterAdd(omega, a, b - 1);
    }
  }

  /** After `n` frames the phase is the unwrapped phase less a whole number of turns. */
  lemma {:induction false} PhaseAfterWinds(omega: real, n: nat) returns (turns: int)
    ensures PhaseAfter(omega, n) == omega + n as real * OMEGA_INC - turns as real * TAU
  {
    if n == 0 {
      turns := 0;
    } else {
      var t := PhaseAfterWinds(omega, n - 1);
      var prev := PhaseAfter(omega, n - 1);
      assert n as real * OMEGA_INC == (n - 1) as real * OMEGA_INC + OMEGA_INC;
      assert (t + 1) as real * TAU == t as real * TAU + TAU;
      turns := if prev + OMEGA_INC >= TAU then t + 1 else t;
    }
  }

  /** `x` reduced modulo `TAU` into `[0, TAU)`. */
  function ReduceModTau(x: real): (r: real)
    ensures 0.0 <= r < TAU
  {
    x - (x / TAU).Floor as real * TAU
  }

  lemma ReduceModTauOfShift(y: real, m: int)
    requires 0.0 <= y < TAU
    ensures ReduceModTau(y + m as real * TAU) == y
  {
    var x := y + m as real * TAU;
    assert x / TAU == y / TAU + m as real;
    assert 0.0 <= y / TAU < 1.0;
    assert (x / TAU).Floor == m;
  }

  /**
   * The phase advances exactly once per frame: after `n` frames it is the start
   * phase plus `n` increments, reduced modulo `TAU`.
   */
  lemma PhaseAfterIsReduced(omega: real, n: nat)
    requires 0.0 <= omega < TAU
    ensures PhaseAfter(omega, n) == ReduceModTau(omega + n as real * OMEGA_INC)
  {
    var turns := PhaseAfterWinds(omega, n);
    PhaseStaysInPeriod(omega, n);
    ReduceModTauOfShift(PhaseAfter(omega, n), turns);
  }

  /**
   * `(s * 0.5 * i16::MAX) as u16` for a sine value `s`. The cast is to `u16`
   * directly, so a negative half-wave saturates to 0.
   */
  function ScaleSine(s: real): (v: U16)
    ensures s <= 0.0 ==> v == 0
    ensures 0.0 <= s <= 1.0 ==> v as real <= s * 0.5 * 32767.0 < v as real + 1.0
    ensures s <= 1.0 ==> v <= I16_MAX / 2
  {
    SaturateToU16(s * 0.5 * 32767.0)
  }

  /** The sample of the frame at phase `omega`: the scaled `sin(omega * freq)`. */
  function SineSample(sin: real -> real, freq: real, omega: real): U16
  {
    ScaleSine(sin(omega * freq))
  }

  /** The samples of `n` consecutive frames starting at phase `omega`, in order. */
  function SineSamples(sin: real -> real, freq: real, omega: real, n: nat): (s: seq<U16>)
    ensures |s| == n
  {
    if n == 0 then [] else SineSamples(sin, freq, omega, n - 1) + [SineSample(sin, freq, PhaseAfter(omega, n - 1))]
  }

  /** Frame `k` of a block is the sample at the phase reached after `k` frames. */
  lemma {:induction false} SineSampleAt(sin: real -> real, freq: real, omega: real, n: nat, k: nat)
    requires k < n
    ensures SineSamples(sin, freq, omega, n)[k] == SineSample(sin, freq, PhaseAfter(omega, k))
  {
    if k < n - 1 {
      SineSampleAt(sin, freq, omega, n - 1, k);
    }
  }

  /**
   * Phase continuity: `a + b` frames from one start are the first `a` frames
   * followed by `b` frames from the phase reached after `a`.
   */
  lemma {:induction false} SineSamplesSplit(sin: real -> real, freq: real, omega: real, a: nat, b: nat)
    ensures SineSamples(sin, freq, omega, a + b)
         == SineSamples(sin, freq, omega, a) + SineSamples(sin, freq, PhaseAfter(omega, a), b)
  {
    if b > 0 {
      var mid := PhaseAfter(omega, a);
      SineSamplesSplit(sin, freq, omega, a, b - 1);
      PhaseAfterAdd(omega, a, b - 1);
      var head, tail := SineSamples(sin, freq, omega, a), SineSamples(sin, freq, mid, b - 1);
      var last := SineSample(sin, freq, PhaseAfter(mid, b - 1));
      assert SineSamples(sin, freq, omega, a + b) == (head + tail) + [last];
      assert SineSamples(sin, freq, mid, b) == tail + [last];
    }
  }

  /** Two consecutive sends put on the wire exactly what one send of both would. */
  lemma SineBytesSplit(sin: real -> real, freq: real, omega: real, a: nat, b: nat)
    ensures Frames(SineSamples(sin, freq, omega, a + b))
         == Frames(SineSamples(sin, freq, omega, a)) + Frames(SineSamples(sin, freq, PhaseAfter(omega, a), b))
  {
    SineSamplesSplit(sin, freq, omega, a, b);
    FramesAppend(SineSamples(sin, freq, omega, a), SineSamples(sin, freq, PhaseAfter(omega, a), b));
  }

  /**
   * With `sin` bounded by one, every sample on the wire, in either channel, lies
   * in `0..=16383`: the sign bit of the 16-bit word is never set.
   */
  lemma SineSamplesInRange(sin: real -> real, freq: real, omega: real, n: nat, ch: Channel)
    requires forall x :: -1.0 <= sin(x) <= 1.0
    ensures forall v :: v in Decode(Frames(SineSamples(sin, freq, omega, n)), ch) ==> 0 <= v <= I16_MAX / 2
  {
    var s := SineSamples(sin, freq, omega, n);
    DecodeFrames(s);
    forall k | 0 <= k < n
      ensures s[k] <= I16_MAX / 2
    {
      SineSampleAt(sin, freq, omega, n, k);
    }
  }

  class SendSinewave {
    /** Tone frequency; `sin` is applied to `omega * freq`. */
    const freq: real
    /** Phase accumulator. */
    var omega: real
    /** The reusable frame buffer; it is never reallocated. */
    const buffers: array<U8>

    ghost predicate Valid()
      reads this
    {
      buffers.Length == BUFFER_LEN && 0.0 <= omega < TAU
    }

    /** `SendSinewave::new`: phase 0 and a zeroed buffer of `DMA_BUFFERS` DMA buffers. */
    constructor (freq: real)
      ensures Valid() && fresh(buffers)
      ensures this.freq == freq && omega == 0.0
      ensures forall p :: 0 <= p < buffers.Length ==> buffers[p] == 0
    {
      this.freq := freq;
      omega := 0.0;
      buffers := new U8[BUFFER_LEN](_ => 0);
    }

    /**
     * `SendSinewave::send`: fills the first `nBuffers * DMA_FRAMES` frames and
     * returns the bytes it hands to the transport. More than `DMA_BUFFERS`
     * buffers would index past the end of the buffer, a panic in the source.
     */
    method Send(sin: real -> real, nBuffers: nat) returns (written: seq<U8>)
      requires Valid()
      requires nBuffers <= DMA_BUFFERS
      modifies this`omega, buffers
      ensures Valid()
      ensures written == Frames(SineSamples(sin, freq, old(omega), nBuffers * DMA_FRAMES))
      ensures |written| == SendLength(nBuffers)
      ensures buffers[..|written|] == written
      ensures buffers[|written|..] == old(buffers[|written|..])
      ensures omega == PhaseAfter(old(omega), nBuffers * DMA_FRAMES)
    {
      var len := SendLength(nBuffers);
      ghost var frames := nBuffers * DMA_FRAMES;
      ghost var start := omega;
      var i := 0;
      ghost var frame := 0;
      while i < len
        invariant 0 <= i <= len && 0 <= frame <= frames && i == 4 * frame
        invariant omega == PhaseAfter(start, frame)
        invariant buffers[..i] == Frames(SineSamples(sin, freq, start, frame))
        invariant buffers[len..] == old(buffers[len..])
      {
        var sample := SineSample(sin, freq, omega);
        ghost var before := buffers[..];
        PutFrame(buffers, i, sample);
        assert buffers[..i + 4] == before[..i] + FrameBytes(sample);
        assert buffers[len..] == before[len..];
        assert SineSamples(sin, freq, start, frame + 1)[..frame] == SineSamples(sin, freq, start, frame);
        omega := AdvancePhase(omega);
        i := i + 4;
        frame := frame + 1;
      }
      assert i == len && frame == frames;
      PhaseStaysInPeriod(start, frames);
      written := buffers[..len];
    }
  }
}
