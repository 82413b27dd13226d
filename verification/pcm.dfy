/**
 * Constants, numeric casts and the wire format shared by both wave generators of
 * src/main.rs: interleaved 16-bit stereo PCM, each sample written little-endian
 * into the left and the right slot of a four-byte frame.
 *
 * Floating-point values (Rust's f32) are modelled as `real`; Rust's `as` casts
 * from a float to an integer are modelled as truncation toward zero followed by
 * saturation to the range of the target type.
 */
module Pcm {

  /** Output sample rate of the I2S channel, in hertz. */
  const SAMPLE_RATE_HZ: nat := 16000
  /** Number of DMA descriptors the channel is configured with. */
  const DMA_BUFFERS: nat := 12
  /** Frames per DMA descriptor. */
  const DMA_FRAMES: nat := 240
  /** `i16::MAX`. */
  const I16_MAX: int := 0x7FFF
  /** `i16::MIN`. */
  const I16_MIN: int := -0x8000
  /** `u16::MAX`. */
  const U16_MAX: int := 0xFFFF
  /** `usize::MAX` on the 32-bit target. */
  const USIZE_MAX: int := 0xFFFF_FFFF

  type U8 = x: int | 0 <= x <= 0xFF
  type U16 = x: int | 0 <= x <= U16_MAX
  type I16 = x: int | I16_MIN <= x <= I16_MAX

  /** Truncation of a real toward zero, the first half of a float-to-integer `as` cast. */
  function TruncToInt(x: real): (r: int)
    ensures 0.0 <= x ==> 0 <= r && r as real <= x < r as real + 1.0
    ensures x < 0.0 ==> r <= 0 && r as real - 1.0 < x <= r as real
  {
    if x >= 0.0 then x.Floor else -((-x).Floor)
  }

  /** Clamps an integer into `[lo, hi]`. */
  function Clamp(t: int, lo: int, hi: int): (r: int)
    requires lo <= hi
    ensures lo <= r <= hi
    ensures lo <= t <= hi ==> r == t
    ensures t < lo ==> r == lo
    ensures hi < t ==> r == hi
  {
    if t < lo then lo else if hi < t then hi else t
  }

  /** The cast `x as u16` on a float: truncate, then saturate; negatives become 0. */
  function SaturateToU16(x: real): (r: U16)
    ensures x < 1.0 ==> r == 0
    ensures 0.0 <= x < 65536.0 ==> r as real <= x < r as real + 1.0
    ensures 65536.0 <= x ==> r == U16_MAX
  {
    Clamp(TruncToInt(x), 0, U16_MAX)
  }

  /** The cast `x as i16` on a float: truncate, then saturate to `[i16::MIN, i16::MAX]`. */
  function SaturateToI16(x: real): (r: I16)
    ensures -32769.0 < x < 32768.0 ==> r == TruncToInt(x)
    ensures x <= -32769.0 ==> r == I16_MIN
    ensures 32768.0 <= x ==> r == I16_MAX
  {
    Clamp(TruncToInt(x), I16_MIN, I16_MAX)
  }

  /** The cast `x as usize` on a float, for the 32-bit target. */
  function SaturateToUsize(x: real): (r: nat)
    ensures r <= USIZE_MAX
    ensures x < 1.0 ==> r == 0
    ensures 0.0 <= x < USIZE_MAX as real + 1.0 ==> r as real <= x < r as real + 1.0
    ensures USIZE_MAX as real + 1.0 <= x ==> r == USIZE_MAX
  {
    Clamp(TruncToInt(x), 0, USIZE_MAX)
  }

  /** The integer cast `v as u16` on an `i16`: the same sixteen bits, read as unsigned. */
  function I16AsU16(v: I16): (r: U16)
    ensures (r - v) % 0x1_0000 == 0
    ensures 0 <= v ==> r <= I16_MAX
    ensures v < 0 ==> I16_MAX < r
  {
    if v < 0 then v + 0x1_0000 else v
  }

  /** Reads sixteen bits as a two's-complement `i16`: the inverse of `I16AsU16`. */
  function U16AsI16(u: U16): (v: I16)
    ensures I16AsU16(v) == u
  {
    if u <= I16_MAX then u else u - 0x1_0000
  }

  lemma I16RoundTrip(v: I16)
    ensures U16AsI16(I16AsU16(v)) == v
  {
  }

  /** `(v & 0x00ff) as u8`: the mask keeps the value modulo 256. */
  function LowByte(v: U16): (b: U8)
    ensures (v - b) % 0x100 == 0
  {
    v % 0x100
  }

  /** `((v & 0xff00) >> 8) as u8`: the mask and shift keep the value divided by 256. */
  function HighByte(v: U16): (b: U8)
    ensures 0x100 * b <= v < 0x100 * (b + 1)
  {
    v / 0x100
  }

  /** Reads a little-endian 16-bit value back from its two bytes. */
  function FromLittleEndian(lo: U8, hi: U8): (v: U16)
    ensures LowByte(v) == lo && HighByte(v) == hi
  {
    lo + 0x100 * hi
  }

  /** Every 16-bit value is recovered from its low and high byte. */
  lemma LittleEndianRoundTrip(v: U16)
    ensures FromLittleEndian(LowByte(v), HighByte(v)) == v
  {
  }

  /** One frame: the sample little-endian in the left slot, then again in the right slot. */
  function FrameBytes(v: U16): (f: seq<U8>)
    ensures |f| == 4
    ensures FromLittleEndian(f[0], f[1]) == v && FromLittleEndian(f[2], f[3]) == v
  {
    [LowByte(v), HighByte(v), LowByte(v), HighByte(v)]
  }

  /**
   * Writes one frame at byte offset `i`: the low byte of `v`, its high byte, and
   * the same two bytes again for the right channel.
   */
  method PutFrame(a: array<U8>, i: nat, v: U16)
    requires i + 4 <= a.Length
    modifies a
    ensures a[..] == old(a[..i]) + FrameBytes(v) + old(a[i + 4..])
  {
    a[i] := LowByte(v);
    a[i + 1] := HighByte(v);
    a[i + 2] := LowByte(v);
    a[i + 3] := HighByte(v);
    assert a[..] == old(a[..i]) + FrameBytes(v) + old(a[i + 4..]);
  }

  /** The bytes of consecutive frames, one four-byte frame per sample, in sample order. */
  function Frames(samples: seq<U16>): (b: seq<U8>)
    ensures |b| == 4 * |samples|
  {
    if samples == [] then [] else Frames(samples[..|samples| - 1]) + FrameBytes(samples[|samples| - 1])
  }

  /** Left or right slot of a frame: byte offset 0 or 2 within the frame. */
  datatype Channel = Left | Right
  {
    function Offset(): (k: nat)
      ensures k == 0 || k == 2
    {
      if Left? then 0 else 2
    }
  }

  /** The samples of one channel of a byte stream of whole frames, as a receiver reads them. */
  function Decode(b: seq<U8>, ch: Channel): (s: seq<U16>)
    ensures |s| == |b| / 4
  {
    seq(|b| / 4, k requires 0 <= k < |b| / 4 =>
      FromLittleEndian(b[4 * k + ch.Offset()], b[4 * k + ch.Offset() + 1]))
  }

  /** The two channels of every frame carry the same bytes. */
  ghost predicate ChannelsEqual(b: seq<U8>)
  {
    forall k :: 0 <= k < |b| / 4 ==>
      b[4 * k] == b[4 * k + 2] && b[4 * k + 1] == b[4 * k + 3]
  }

  /** Byte `4 * k + j` of an encoded stream is byte `j` of the frame of sample `k`. */
  lemma {:induction false} FramesAt(samples: seq<U16>, k: nat, j: nat)
    requires k < |samples| && j < 4
    ensures Frames(samples)[4 * k + j] == FrameBytes(samples[k])[j]
  {
    var last := |samples| - 1;
    if k < last {
      FramesAt(samples[..last], k, j);
    }
  }

  /** Both channels decode to exactly the samples that were encoded, and they are identical. */
  lemma DecodeFrames(samples: seq<U16>)
    ensures Decode(Frames(samples), Left) == samples
    ensures Decode(Frames(samples), Right) == samples
    ensures ChannelsEqual(Frames(samples))
  {
    var b := Frames(samples);
    assert |b| / 4 == |samples|;
    forall k | 0 <= k < |samples|
      ensures Decode(b, Left)[k] == samples[k] && Decode(b, Right)[k] == samples[k]
      ensures b[4 * k] == b[4 * k + 2] && b[4 * k + 1] == b[4 * k + 3]
    {
      FramesAt(samples, k, 0);
      FramesAt(samples, k, 1);
      FramesAt(samples, k, 2);
      FramesAt(samples, k, 3);
    }
  }

  /**
   * Conversely, every byte stream of whole frames whose channels agree is the
   * encoding of what its left channel decodes to: `Frames` is a bijection onto
   * such streams.
   */
  lemma EncodeDecoded(b: seq<U8>)
    requires |b| % 4 == 0
    requires ChannelsEqual(b)
    ensures Frames(Decode(b, Left)) == b
  {
    var s := Decode(b, Left);
    var e := Frames(s);
    assert |e| == |b|;
    forall p | 0 <= p < |b|
      ensures e[p] == b[p]
    {
      var k, j := p / 4, p % 4;
      assert p == 4 * k + j;
      FramesAt(s, k, j);
      LittleEndianRoundTrip(s[k]);
    }
  }

  /** Encoding distributes over concatenation: frames are laid out in order. */
  lemma {:induction false} FramesAppend(s: seq<U16>, t: seq<U16>)
    ensures Frames(s + t) == Frames(s) + Frames(t)
  {
    if t == [] {
      assert s + t == s;
    } else {
      var last := |t| - 1;
      FramesAppend(s, t[..last]);
      assert (s + t)[..|s + t| - 1] == s + t[..last];
    }
  }
}
