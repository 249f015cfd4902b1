/** The byte-level helpers of LiveView.tsx: the byte/binary-string loops around
    `btoa`/`atob`, the 16-bit little-endian sample layout shared by the outbound
    capture path and the inbound decoder, the float-to-Int16 store, and
    `decodeAudioData`. */
module LiveBytes {
  import opened Results

  newtype byte = x: int | 0 <= x < 256

  type Int16 = x: int | -32768 <= x < 32768

  // ------------------------------------------------------------ binary strings

  /** `String.fromCharCode(b)` for one byte. */
  function CharOf(b: byte): char {
    (b as int) as char
  }

  /** The binary string `encode` builds before handing it to `btoa`. */
  function BinaryOf(bytes: seq<byte>): string {
    seq(|bytes|, i requires 0 <= i < |bytes| => CharOf(bytes[i]))
  }

  /** Storing `charCodeAt(i)` into a `Uint8Array` keeps the low eight bits. */
  function ByteOf(c: char): byte {
    (c as int % 256) as byte
  }

  /** The bytes `decode` fills from the string `atob` returned. */
  function BytesOf(s: string): seq<byte> {
    seq(|s|, i requires 0 <= i < |s| => ByteOf(s[i]))
  }

  /** What `atob` returns: every character is one byte wide. */
  predicate IsBinaryString(s: string) {
    forall i :: 0 <= i < |s| ==> s[i] as int < 256
  }

  /** Decoding the string `encode` built gives the bytes back. */
  lemma BytesOfBinaryOf(bytes: seq<byte>)
    ensures BytesOf(BinaryOf(bytes)) == bytes
  {
    var s := BinaryOf(bytes);
    assert forall i :: 0 <= i < |bytes| ==> BytesOf(s)[i] == bytes[i];
  }

  /** Encoding the bytes `decode` produced from a binary string gives that string back. */
  lemma BinaryOfBytesOf(s: string)
    requires IsBinaryString(s)
    ensures BinaryOf(BytesOf(s)) == s
  {
    var t := BinaryOf(BytesOf(s));
    forall i | 0 <= i < |s| ensures t[i] == s[i] {
      assert t[i] as int == s[i] as int;
    }
  }

  /** `encode` up to `btoa`: appends `String.fromCharCode(bytes[i])` for each index. */
  method Encode(bytes: array<byte>) returns (binary: string)
    ensures |binary| == bytes.Length
    ensures forall i :: 0 <= i < bytes.Length ==> binary[i] as int == bytes[i] as int
    ensures binary == BinaryOf(bytes[..])
  {
    binary := "";
    for i := 0 to bytes.Length
      invariant |binary| == i
      invariant forall j :: 0 <= j < i ==> binary[j] as int == bytes[j] as int
    {
      binary := binary + [CharOf(bytes[i])];
    }
    assert forall j :: 0 <= j < |binary| ==> binary[j] == BinaryOf(bytes[..])[j];
  }

  /** `decode` after `atob`: byte i is the code of character i, kept to eight bits. */
  method Decode(binary: string) returns (bytes: array<byte>)
    ensures bytes.Length == |binary|
    ensures forall i :: 0 <= i < |binary| ==> bytes[i] as int == binary[i] as int % 256
    ensures bytes[..] == BytesOf(binary)
  {
    bytes := new byte[|binary|];
    for i := 0 to |binary|
      invariant forall j :: 0 <= j < i ==> bytes[j] as int == binary[j] as int % 256
    {
      bytes[i] := ByteOf(binary[i]);
    }
    assert forall j :: 0 <= j < |binary| ==> bytes[..][j] == BytesOf(binary)[j];
  }

  // ------------------------------------------------------------ 16-bit samples

  function LowByte(x: Int16): byte {
    ((x % 65536) % 256) as byte
  }

  function HighByte(x: Int16): byte {
    ((x % 65536) / 256) as byte
  }

  /** `new Uint8Array(int16.buffer)`: every sample as two bytes, low byte first. */
  function PcmBytes(samples: seq<Int16>): seq<byte> {
    seq(2 * |samples|, j requires 0 <= j < 2 * |samples| =>
      if j % 2 == 0 then LowByte(samples[j / 2]) else HighByte(samples[j / 2]))
  }

  lemma PcmBytesAt(samples: seq<Int16>, k: nat)
    requires k < |samples|
    ensures |PcmBytes(samples)| == 2 * |samples|
    ensures PcmBytes(samples)[2 * k] == LowByte(samples[k])
    ensures PcmBytes(samples)[2 * k + 1] == HighByte(samples[k])
  {
    assert (2 * k) % 2 == 0 && (2 * k) / 2 == k;
    assert (2 * k + 1) % 2 == 1 && (2 * k + 1) / 2 == k;
  }

  /** Element k of `new Int16Array(bytes.buffer)`. */
  function SampleAt(bytes: seq<byte>, k: nat): Int16
    requires k < |bytes| / 2
  {
    var u := bytes[2 * k] as int + 256 * bytes[2 * k + 1] as int;
    if u >= 32768 then u - 65536 else u
  }

  /** Reading the samples back out of their byte layout gives the same samples. */
  lemma PcmRoundTrip(samples: seq<Int16>, k: nat)
    requires k < |samples|
    ensures |PcmBytes(samples)| == 2 * |samples|
    ensures SampleAt(PcmBytes(samples), k) == samples[k]
  {
    var bs := PcmBytes(samples);
    var x := samples[k];
    PcmBytesAt(samples, k);
    var m: int := x as int % 65536;
    assert m % 256 + 256 * (m / 256) == m;
  }

  /** The same round trip through the binary string of the wire format. */
  lemma PcmWireRoundTrip(samples: seq<Int16>, k: nat)
    requires k < |samples|
    ensures |BytesOf(BinaryOf(PcmBytes(samples)))| == 2 * |samples|
    ensures SampleAt(BytesOf(BinaryOf(PcmBytes(samples))), k) == samples[k]
  {
    BytesOfBinaryOf(PcmBytes(samples));
    PcmRoundTrip(samples, k);
  }

  // ------------------------------------------------------------ float to Int16

  /** ToIntegerOrInfinity on a finite value: drop the fraction towards zero. */
  function Truncate(x: real): int {
    if x >= 0.0 then x.Floor else -((-x).Floor)
  }

  /** The `Int16Array` element store: reduce modulo 2^16 into the signed range. */
  function WrapInt16(n: int): Int16 {
    var m := n % 65536;
    if m >= 32768 then m - 65536 else m
  }

  /** `int16[i] = inputData[i] * 32768`, with no clamp. A float32 sample times 2^15 is
      exact, so the product is computed here on reals. */
  function SampleToInt16(x: real): Int16 {
    WrapInt16(Truncate(x * 32768.0))
  }

  /** Inside [-1, 1) the store does not wrap: the result is the truncated product. */
  lemma SampleInRange(x: real)
    requires -1.0 <= x < 1.0
    ensures SampleToInt16(x) == Truncate(x * 32768.0)
    ensures (x >= 0.0 ==> SampleToInt16(x) >= 0) && (x <= 0.0 ==> SampleToInt16(x) <= 0)
  {
    var y := x * 32768.0;
    assert -32768.0 <= y < 32768.0;
    var t := Truncate(y);
    if y >= 0.0 {
      assert 0 <= t <= 32767;
    } else {
      assert (-y).Floor <= 32768;
      assert -32768 <= t <= 0;
    }
  }

  /** The full-scale sample 1.0 is stored as -32768: the unclamped product wraps. */
  lemma FullScaleWraps()
    ensures SampleToInt16(1.0) == -32768
    ensures SampleToInt16(-1.0) == -32768
  {
    assert Truncate(32768.0) == 32768;
    assert Truncate(-32768.0) == -32768;
  }

  /** The samples of one capture block, converted one by one. */
  function BlockSamples(block: seq<real>): seq<Int16> {
    seq(|block|, i requires 0 <= i < |block| => SampleToInt16(block[i]))
  }

  /** The capture callback's loop `int16[i] = inputData[i] * 32768`. */
  method ConvertBlock(block: seq<real>) returns (int16: array<Int16>)
    ensures int16.Length == |block|
    ensures forall i :: 0 <= i < |block| ==> int16[i] == SampleToInt16(block[i])
  {
    int16 := new Int16[|block|];
    for i := 0 to |block|
      invariant forall j :: 0 <= j < i ==> int16[j] == SampleToInt16(block[j])
    {
      int16[i] := SampleToInt16(block[i]);
    }
  }

  /** `new Uint8Array(int16.buffer)`: the bytes of the samples, low byte first. */
  method PcmView(int16: array<Int16>) returns (bytes: array<byte>)
    ensures bytes[..] == PcmBytes(int16[..])
  {
    bytes := new byte[2 * int16.Length];
    for i := 0 to int16.Length
      invariant forall k :: 0 <= k < i ==>
        bytes[2 * k] == LowByte(int16[k]) && bytes[2 * k + 1] == HighByte(int16[k])
    {
      bytes[2 * i] := LowByte(int16[i]);
      bytes[2 * i + 1] := HighByte(int16[i]);
    }
    forall j | 0 <= j < 2 * int16.Length ensures bytes[j] == PcmBytes(int16[..])[j] {
      var k := j / 2;
      PcmBytesAt(int16[..], k);
      assert j == 2 * k || j == 2 * k + 1;
    }
  }

  /** The binary string of one outbound frame: convert, view as bytes, `encode`. */
  method EncodeBlock(block: seq<real>) returns (binary: string)
    ensures |binary| == 2 * |block|
    ensures forall i :: 0 <= i < |block| ==>
      SampleAt(BytesOf(binary), i) == SampleToInt16(block[i])
    ensures binary == BinaryOf(PcmBytes(BlockSamples(block)))
  {
    var int16 := ConvertBlock(block);
    assert int16[..] == BlockSamples(block);
    var bytes := PcmView(int16);
    binary := Encode(bytes);
    forall i | 0 <= i < |block| ensures SampleAt(BytesOf(binary), i) == SampleToInt16(block[i]) {
      PcmWireRoundTrip(BlockSamples(block), i);
    }
  }

  // ------------------------------------------------------------ decodeAudioData

  /** An `AudioBuffer`: `channels[c][i]` is frame i of channel c. */
  datatype AudioBuffer = AudioBuffer(numberOfChannels: nat, length: nat, sampleRate: nat, channels: seq<seq<real>>)

  /** `new Int16Array(buffer)` throws on an odd byte length; `createBuffer` throws on a
      zero length. */
  datatype DecodeError = OddByteLength | ZeroLength

  /** `buffer.duration`, in seconds. */
  function Duration(b: AudioBuffer): real
    requires b.sampleRate > 0
  {
    b.length as real / b.sampleRate as real
  }

  lemma FrameIndexInRange(i: nat, c: nat, n: nat, total: nat)
    requires 0 < n && c < n && i < total / n
    ensures i * n + c < total
  {
    var q := total / n;
    assert q * n <= total;
    assert i + 1 <= q;
    assert (i + 1) * n <= q * n;
  }

  /** Frame i of channel c: sample `i * numChannels + c` of the interleaved data,
      divided by 32768. That sample always exists. */
  function FrameValue(bytes: seq<byte>, numChannels: nat, c: nat, i: nat): real
    requires 0 < numChannels && c < numChannels && i < (|bytes| / 2) / numChannels
  {
    FrameIndexInRange(i, c, numChannels, |bytes| / 2);
    SampleAt(bytes, i * numChannels + c) as real / 32768.0
  }

  /** `decodeAudioData` as a function of the bytes. */
  function DecodePcm(bytes: seq<byte>, sampleRate: nat, numChannels: nat): (r: Result<AudioBuffer, DecodeError>)
    requires sampleRate > 0 && numChannels > 0
    ensures r == Err(OddByteLength) <==> |bytes| % 2 == 1
    ensures r == Err(ZeroLength) <==> |bytes| % 2 == 0 && (|bytes| / 2) / numChannels == 0
    ensures r.Ok? ==>
      && r.value.numberOfChannels == numChannels
      && r.value.sampleRate == sampleRate
      && r.value.length == (|bytes| / 2) / numChannels
      && r.value.length > 0
      && |r.value.channels| == numChannels
      && forall c :: 0 <= c < numChannels ==> |r.value.channels[c]| == r.value.length
    ensures r.Ok? ==> forall c, i :: 0 <= c < numChannels && 0 <= i < r.value.length ==>
      r.value.channels[c][i] == FrameValue(bytes, numChannels, c, i)
  {
    if |bytes| % 2 == 1 then Err(OddByteLength)
    else
      var frames := (|bytes| / 2) / numChannels;
      if frames == 0 then Err(ZeroLength)
      else
        Ok(AudioBuffer(numChannels, frames, sampleRate,
          seq(numChannels, c requires 0 <= c < numChannels =>
            seq(frames, i requires 0 <= i < frames => FrameValue(bytes, numChannels, c, i)))))
  }

  /** The inner loop of `decodeAudioData`: fill one channel from the interleaved samples. */
  method FillChannel(data: array<byte>, numChannels: nat, channel: nat, frameCount: nat)
    returns (channelData: array<real>)
    requires 0 < numChannels && channel < numChannels
    requires frameCount == (data.Length / 2) / numChannels
    ensures channelData.Length == frameCount
    ensures forall i :: 0 <= i < frameCount ==> channelData[i] == FrameValue(data[..], numChannels, channel, i)
  {
    channelData := new real[frameCount];
    var total := data.Length / 2;
    for i := 0 to frameCount
      invariant forall j :: 0 <= j < i ==> channelData[j] == FrameValue(data[..], numChannels, channel, j)
    {
      FrameIndexInRange(i, channel, numChannels, total);
      var index := i * numChannels + channel;
      channelData[i] := SampleAt(data[..], index) as real / 32768.0;
    }
  }

  /** `decodeAudioData(data, ctx, sampleRate, numChannels)`: the channel data is filled
      channel by channel, frame by frame. */
  method DecodeAudioData(data: array<byte>, sampleRate: nat, numChannels: nat)
    returns (r: Result<AudioBuffer, DecodeError>)
    requires sampleRate > 0 && numChannels > 0
    ensures r == DecodePcm(data[..], sampleRate, numChannels)
  {
    if data.Length % 2 == 1 {
      return Err(OddByteLength);
    }
    var frameCount := (data.Length / 2) / numChannels;
    if frameCount == 0 {
      return Err(ZeroLength);
    }
    var channels: seq<seq<real>> := [];
    for channel := 0 to numChannels
      invariant |channels| == channel
      invariant forall c :: 0 <= c < channel ==> |channels[c]| == frameCount
      invariant forall c, i :: 0 <= c < channel && 0 <= i < frameCount ==>
        channels[c][i] == FrameValue(data[..], numChannels, c, i)
    {
      var channelData := FillChannel(data, numChannels, channel, frameCount);
      channels := channels + [channelData[..]];
    }
    r := Ok(AudioBuffer(numChannels, frameCount, sampleRate, channels));
    ghost var expected := DecodePcm(data[..], sampleRate, numChannels);
    assert channels == expected.value.channels by {
      forall c | 0 <= c < numChannels ensures channels[c] == expected.value.channels[c] {
      }
    }
  }

  /** The inbound decoder reads back what the outbound layout wrote: mono PCM bytes
      decode to one channel holding each sample divided by 32768. */
  lemma MonoDecodeOfPcm(samples: seq<Int16>, sampleRate: nat)
    requires sampleRate > 0 && |samples| > 0
    ensures DecodePcm(PcmBytes(samples), sampleRate, 1).Ok?
    ensures var b := DecodePcm(PcmBytes(samples), sampleRate, 1).value;
      b.length == |samples| &&
      forall i :: 0 <= i < |samples| ==> b.channels[0][i] == samples[i] as real / 32768.0
  {
    var b := DecodePcm(PcmBytes(samples), sampleRate, 1).value;
    forall i | 0 <= i < |samples| ensures b.channels[0][i] == samples[i] as real / 32768.0 {
      PcmRoundTrip(samples, i);
      assert i * 1 + 0 == i;
    }
  }
}
