/** The 16-bit PCM encoder of the capture package's stream output
    (packages/capture/macos/Classes/CaptureStreamOutput.swift).

    A planar float buffer of `channelCount` channels by `frameLength` samples is turned
    into bytes: every sample is clamped to [-1, 1], scaled by `Int16.max`, truncated toward
    zero and appended as two little-endian bytes, channel by channel (all of channel 0,
    then all of channel 1, ...). The output is neither interleaved nor downmixed.
    Samples are exact reals here; the source's single-precision arithmetic is not modelled. */
module PcmEncoder {
  import opened Common

  /** `Int16.max`, the scale factor applied to a clamped sample. */
  const Int16Max: int := 32767

  /** A value of Swift's `Int16`. */
  type int16 = x: int | -32768 <= x < 32768

  function Min(a: real, b: real): (r: real) { if a <= b then a else b }

  function Max(a: real, b: real): (r: real) { if a >= b then a else b }

  /** `max(-1.0, min(1.0, x))`. */
  function Clamp(x: real): (r: real)
    ensures -1.0 <= r <= 1.0
    ensures -1.0 <= x <= 1.0 ==> r == x
    ensures x > 1.0 ==> r == 1.0
    ensures x < -1.0 ==> r == -1.0
  {
    Max(-1.0, Min(1.0, x))
  }

  /** The integer part of `x`, as Swift's `Int16(_: Float)` takes it: rounded toward zero. */
  function TruncateTowardZero(x: real): (r: int)
    ensures 0.0 <= x ==> 0 <= r && r as real <= x < r as real + 1.0
    ensures x < 0.0 ==> r <= 0 && x <= r as real < x + 1.0
  {
    if x >= 0.0 then x.Floor else -((-x).Floor)
  }

  /** One float sample as the encoder stores it: `Int16(max(-1, min(1, x)) * Int16.max)`. */
  function SampleToInt16(x: real): (r: int16)
    ensures -Int16Max <= r <= Int16Max
  {
    TruncateTowardZero(Clamp(x) * Int16Max as real)
  }

  /** The two bytes of `s.littleEndian`: the low byte of its two's complement first. */
  function EncodeLE(s: int16): (r: seq<uint8>)
    ensures |r| == 2
    ensures r[0] as int + 256 * r[1] as int == s % 65536
  {
    var u := s % 65536;
    [(u % 256) as uint8, (u / 256) as uint8]
  }

  /** Reads a low byte and a high byte back as a two's complement `Int16`. */
  function DecodeLE(lo: uint8, hi: uint8): (r: int16)
    ensures r % 65536 == lo as int + 256 * hi as int
  {
    var u := lo as int + 256 * hi as int;
    if u >= 32768 then u - 65536 else u
  }

  /** Every channel holds at least `frameLength` samples. */
  predicate Covers(channels: seq<seq<real>>, frameLength: nat)
  {
    forall c :: 0 <= c < |channels| ==> frameLength <= |channels[c]|
  }

  /** The bytes of one channel's samples, in order. */
  function EncodeSamples(xs: seq<real>): (r: seq<uint8>)
    ensures |r| == 2 * |xs|
  {
    if xs == [] then [] else EncodeSamples(xs[..|xs| - 1]) + EncodeLE(SampleToInt16(xs[|xs| - 1]))
  }

  /** The encoder's output for planar `channels`: the first `frameLength` samples of every
      channel, channel after channel. */
  function EncodePlanar(channels: seq<seq<real>>, frameLength: nat): (r: seq<uint8>)
    requires Covers(channels, frameLength)
    ensures |r| == frameLength * |channels| * 2
  {
    if channels == [] then []
    else
      var k := |channels| - 1;
      EncodePlanar(channels[..k], frameLength) + EncodeSamples(channels[k][..frameLength])
  }

  /** The `AVAudioPCMBuffer` handed to the encoder; `floatChannelData` is absent when the
      buffer does not hold float samples. */
  datatype PcmBuffer = PcmBuffer(floatChannelData: Option<seq<seq<real>>>, frameLength: nat, channelCount: nat)

  /** What `AVAudioPCMBuffer` guarantees: one sample array per channel of the format, each
      holding at least `frameLength` valid samples. */
  predicate WellFormed(b: PcmBuffer)
  {
    b.floatChannelData.Some? ==>
      |b.floatChannelData.value| == b.channelCount && Covers(b.floatChannelData.value, b.frameLength)
  }

  /** `convertTo16BitPCM`: appends two bytes per (channel, sample) pair, channel-major. */
  method ConvertTo16BitPCM(buffer: PcmBuffer) returns (pcmData: Option<seq<uint8>>)
    requires WellFormed(buffer)
    ensures buffer.floatChannelData.None? ==> pcmData == None
    ensures buffer.floatChannelData.Some? ==>
              pcmData == Some(EncodePlanar(buffer.floatChannelData.value, buffer.frameLength))
  {
    if buffer.floatChannelData.None? {
      return None;
    }
    var floatChannelData := buffer.floatChannelData.value;
    var frameLength := buffer.frameLength;
    var channelCount := buffer.channelCount;
    var data: seq<uint8> := [];
    for channel := 0 to channelCount
      invariant data == EncodePlanar(floatChannelData[..channel], frameLength)
    {
      var channelData := floatChannelData[channel];
      ghost var before := data;
      for sampleIndex := 0 to frameLength
        invariant data == before + EncodeSamples(channelData[..sampleIndex])
      {
        var intSample := SampleToInt16(channelData[sampleIndex]);
        assert channelData[..sampleIndex + 1][..sampleIndex] == channelData[..sampleIndex];
        data := data + EncodeLE(intSample);
      }
      assert floatChannelData[..channel + 1][..channel] == floatChannelData[..channel];
    }
    assert floatChannelData[..channelCount] == floatChannelData;
    return Some(data);
  }

  /** `stream(_:didOutputSampleBuffer:of:)`: `pcmBuffer` is the outcome of `createPCMBuffer`
      and `pluginAlive` whether the weak plugin reference still resolves. The result is the
      payload handed to the plugin's raw-audio sink, if any. */
  method OnSampleBuffer(outputType: OutputType, pcmBuffer: Option<PcmBuffer>, pluginAlive: bool)
    returns (sent: Option<seq<uint8>>)
    requires pcmBuffer.Some? ==> WellFormed(pcmBuffer.value)
    ensures sent.Some? <==>
              outputType == Audio && pluginAlive && pcmBuffer.Some? &&
              pcmBuffer.value.floatChannelData.Some?
    ensures sent.Some? ==>
              sent.value == EncodePlanar(pcmBuffer.value.floatChannelData.value, pcmBuffer.value.frameLength)
  {
    if outputType != Audio {
      return None;
    }
    if pcmBuffer.None? {
      return None;
    }
    var converted := ConvertTo16BitPCM(pcmBuffer.value);
    if converted.Some? && pluginAlive {
      return converted;
    }
    return None;
  }

  // ---- Properties of the sample rule ----

  /** The scaling rule at its fixed points and at half scale (truncation, not rounding). */
  lemma ScaleExamples()
    ensures SampleToInt16(1.0) == 32767 && SampleToInt16(-1.0) == -32767
    ensures SampleToInt16(0.0) == 0
    ensures SampleToInt16(0.5) == 16383 && SampleToInt16(-0.5) == -16383
  {
  }

  /** Inputs beyond full scale saturate to +/-32767. */
  lemma Saturation(x: real)
    ensures x >= 1.0 ==> SampleToInt16(x) == Int16Max
    ensures x <= -1.0 ==> SampleToInt16(x) == -Int16Max
  {
  }

  /** The rule is odd: it commutes with negation, so -32768 has no preimage. */
  lemma ScaleIsOdd(x: real)
    ensures SampleToInt16(-x) == -SampleToInt16(x)
    ensures SampleToInt16(x) != -32768
  {
  }

  /** The rule preserves order. */
  lemma ScaleIsMonotone(x: real, y: real)
    requires x <= y
    ensures SampleToInt16(x) <= SampleToInt16(y)
  {
  }

  // ---- Byte order ----

  /** Decoding the two little-endian bytes recovers the sample. */
  lemma DecodeEncode(s: int16)
    ensures DecodeLE(EncodeLE(s)[0], EncodeLE(s)[1]) == s
  {
  }

  /** Every pair of bytes is the encoding of exactly one sample. */
  lemma EncodeDecode(lo: uint8, hi: uint8)
    ensures EncodeLE(DecodeLE(lo, hi)) == [lo, hi]
  {
  }

  // ---- Layout of the encoder's output ----

  /** Sample `i` of one channel occupies bytes `2*i` and `2*i + 1`. */
  lemma {:induction false} SampleAt(xs: seq<real>, i: nat)
    requires i < |xs|
    ensures EncodeSamples(xs)[2 * i..2 * i + 2] == EncodeLE(SampleToInt16(xs[i]))
  {
    var k := |xs| - 1;
    if i < k {
      SampleAt(xs[..k], i);
      assert xs[..k][i] == xs[i];
    }
  }

  /** The byte offset at which channel `c` starts: two bytes for each of the `frameLength`
      samples of every channel before it. */
  function ChannelOffset(frameLength: nat, c: nat): (r: nat)
  {
    2 * frameLength * c
  }

  /** All of channel `c` sits in the `2*frameLength` bytes from `ChannelOffset` on,
      so channel `c` precedes channel `c+1`. */
  lemma ChannelBlock(channels: seq<seq<real>>, frameLength: nat, c: nat)
    requires Covers(channels, frameLength)
    requires c < |channels|
    ensures ChannelOffset(frameLength, c) + 2 * frameLength <= |EncodePlanar(channels, frameLength)|
    ensures EncodePlanar(channels, frameLength)[ChannelOffset(frameLength, c)..ChannelOffset(frameLength, c) + 2 * frameLength]
            == EncodeSamples(channels[c][..frameLength])
  {
    var r := EncodePlanar(channels, frameLength);
    var before := EncodePlanar(channels[..c], frameLength);
    var block := EncodeSamples(channels[c][..frameLength]);
    var upTo := EncodePlanar(channels[..c + 1], frameLength);
    assert channels[..c + 1][..c] == channels[..c];
    assert upTo == before + block;
    PlanarPrefix(channels, frameLength, c + 1);
    assert |before| == ChannelOffset(frameLength, c) && |upTo| == ChannelOffset(frameLength, c) + 2 * frameLength by {
      Products(frameLength, c);
    }
    SliceOfPrefix(upTo, r[|upTo|..], |before|, |upTo|);
    SliceOfSuffix(before, block);
  }

  /** Encoding the first `j` channels gives a prefix of the encoding of all of them. */
  lemma {:induction false} PlanarPrefix(channels: seq<seq<real>>, frameLength: nat, j: nat)
    requires Covers(channels, frameLength)
    requires j <= |channels|
    ensures EncodePlanar(channels[..j], frameLength) <= EncodePlanar(channels, frameLength)
  {
    if j < |channels| {
      var k := |channels| - 1;
      PlanarPrefix(channels[..k], frameLength, j);
      assert channels[..k][..j] == channels[..j];
    } else {
      assert channels[..j] == channels;
    }
  }

  /** The lengths that `ChannelBlock` compares, as offsets. */
  lemma Products(n: nat, c: nat)
    ensures n * c * 2 == ChannelOffset(n, c)
    ensures n * (c + 1) * 2 == ChannelOffset(n, c) + 2 * n
  {
  }

  lemma SliceOfSlice<T>(s: seq<T>, lo: nat, hi: nat, a: nat, b: nat)
    requires lo <= hi <= |s| && a <= b <= hi - lo
    ensures s[lo..hi][a..b] == s[lo + a..lo + b]
  {
    forall j | 0 <= j < b - a
      ensures s[lo..hi][a..b][j] == s[lo + a..lo + b][j]
    {
      assert s[lo..hi][a..b][j] == s[lo..hi][a + j] == s[lo + a + j];
    }
  }

  lemma SliceOfPrefix<T>(a: seq<T>, b: seq<T>, lo: nat, hi: nat)
    requires lo <= hi <= |a|
    ensures (a + b)[lo..hi] == a[lo..hi]
  {
  }

  lemma SliceOfSuffix<T>(a: seq<T>, b: seq<T>)
    ensures (a + b)[|a|..|a| + |b|] == b
  {
  }

  /** The bytes of channel `c`, sample `i` start at offset `2*(c*frameLength + i)` and
      decode to that sample's `Int16` value. */
  lemma Layout(channels: seq<seq<real>>, frameLength: nat, c: nat, i: nat)
    requires Covers(channels, frameLength)
    requires c < |channels| && i < frameLength
    ensures 2 * (c * frameLength + i) + 2 <= |EncodePlanar(channels, frameLength)|
    ensures var r, k := EncodePlanar(channels, frameLength), 2 * (c * frameLength + i);
            r[k..k + 2] == EncodeLE(SampleToInt16(channels[c][i])) &&
            DecodeLE(r[k], r[k + 1]) == SampleToInt16(channels[c][i])
  {
    var r := EncodePlanar(channels, frameLength);
    var s := SampleToInt16(channels[c][i]);
    var k := 2 * (c * frameLength + i);
    var block := channels[c][..frameLength];
    var part := EncodeSamples(block);
    var lo := ChannelOffset(frameLength, c);
    var hi := lo + 2 * frameLength;
    assert |part| == 2 * frameLength;
    assert k == lo + 2 * i by {
      Offsets(frameLength, c, i);
    }
    assert hi <= |r| && r[lo..hi] == part by {
      ChannelBlock(channels, frameLength, c);
    }
    assert part[2 * i..2 * i + 2] == EncodeLE(s) by {
      assert block[i] == channels[c][i];
      SampleAt(block, i);
    }
    WordAt(r, lo, part, 2 * i, EncodeLE(s));
    DecodeWord(r, k, s);
  }

  /** A slice of a slice placed at offset `lo` of `r` is a slice of `r`. */
  lemma WordAt<T>(r: seq<T>, lo: nat, part: seq<T>, a: nat, word: seq<T>)
    requires lo + |part| <= |r| && r[lo..lo + |part|] == part
    requires a + |word| <= |part| && part[a..a + |word|] == word
    ensures r[lo + a..lo + a + |word|] == word
  {
    SliceOfSlice(r, lo, lo + |part|, a, a + |word|);
  }

  /** A word holding the encoding of `s` decodes to `s`. */
  lemma DecodeWord(r: seq<uint8>, k: nat, s: int16)
    requires k + 2 <= |r| && r[k..k + 2] == EncodeLE(s)
    ensures DecodeLE(r[k], r[k + 1]) == s
  {
  }

  /** The offset of sample `i` of channel `c` lies inside that channel's block. */
  lemma Offsets(n: nat, c: nat, i: nat)
    requires i < n
    ensures 2 * (c * n + i) == ChannelOffset(n, c) + 2 * i
  {
  }

  /** Every two-byte word of the output decodes into [-32767, 32767]; -32768 never appears. */
  lemma OutputBounded(channels: seq<seq<real>>, frameLength: nat, k: nat)
    requires Covers(channels, frameLength)
    requires k < frameLength * |channels|
    ensures 2 * k + 2 <= |EncodePlanar(channels, frameLength)|
    ensures var r := EncodePlanar(channels, frameLength);
            -Int16Max <= DecodeLE(r[2 * k], r[2 * k + 1]) <= Int16Max
  {
    var c, i := k / frameLength, k % frameLength;
    Quotient(k, frameLength, |channels|);
    Layout(channels, frameLength, c, i);
  }

  /** Euclidean division of an index `k` below `n * m` by `n`: the quotient is below `m`,
      the remainder below `n`, and together they give `k` back. */
  lemma Quotient(k: nat, n: nat, m: nat)
    requires k < n * m
    ensures n > 0 && k / n < m && k % n < n
    ensures k == k / n * n + k % n
  {
  }

  /** A buffer with no frames or no channels encodes to empty, non-nil data. */
  lemma EmptyBuffer(b: PcmBuffer)
    requires WellFormed(b) && b.floatChannelData.Some?
    requires b.frameLength == 0 || b.channelCount == 0
    ensures EncodePlanar(b.floatChannelData.value, b.frameLength) == []
  {
  }
}
