/** The audio helpers of services/geminiService.ts: base64 text to bytes and
    back (`decode`, `encode`), microphone samples to a 16-bit PCM blob
    (`createBlob`), and bytes of 16-bit PCM to a per-channel audio buffer
    (`decodeAudioData`).

    A JavaScript "binary string" holds one byte per UTF-16 code unit; it is a
    `string` here whose characters all have codes below 256 when it comes from
    `atob`. The base64 steps themselves, `atob` and `btoa`, are browser library
    calls and are passed in as functions; `atob` yields `None` where it throws. */
module Codec {
  import opened Wrappers
  import opened Types
  import Browser

  newtype byte = x: int | 0 <= x < 256

  /** The values an `Int16Array` element can hold. */
  type int16 = x: int | -32768 <= x < 32768

  /** The MIME descriptor every outgoing blob carries. */
  const PcmMimeType: string := "audio/pcm;rate=16000"

  /** The payload handed to the session: base64 text and its MIME type. */
  datatype Blob = Blob(data: string, mimeType: string)

  // ---------------------------------------------------------------------------
  // Binary strings and bytes

  /** What a `Uint8Array` element store keeps of a number: its value modulo 256. */
  function ToUint8(n: int): byte {
    (n % 256) as byte
  }

  /** A binary string: every character's code is below 256. */
  predicate IsBinary(s: string) {
    forall i :: 0 <= i < |s| ==> s[i] as int < 256
  }

  /** The bytes `decode` stores: element i is char code i of the binary string. */
  function BytesOf(binary: string): (r: seq<byte>)
    ensures |r| == |binary|
    ensures forall i :: 0 <= i < |binary| ==> r[i] as int == binary[i] as int % 256
  {
    seq(|binary|, i requires 0 <= i < |binary| => ToUint8(binary[i] as int))
  }

  /** The binary string `encode` builds: char i has code `bytes[i]`. */
  function BinaryOf(bytes: seq<byte>): (r: string)
    ensures |r| == |bytes| && IsBinary(r)
    ensures forall i :: 0 <= i < |bytes| ==> r[i] as int == bytes[i] as int
  {
    seq(|bytes|, i requires 0 <= i < |bytes| => (bytes[i] as int) as char)
  }

  /** Reading the bytes back out of the binary string built from them gives
      the same bytes. */
  lemma BytesOfBinaryOf(bytes: seq<byte>)
    ensures BytesOf(BinaryOf(bytes)) == bytes
  {
  }

  /** On a binary string whose codes are all below 256, building the string
      from its bytes gives the same string. */
  lemma BinaryOfBytesOf(binary: string)
    requires IsBinary(binary)
    ensures BinaryOf(BytesOf(binary)) == binary
  {
    var b := BinaryOf(BytesOf(binary));
    forall i | 0 <= i < |binary|
      ensures b[i] == binary[i]
    {
      assert (binary[i] as int % 256) == binary[i] as int;
    }
  }

  /** `decode`: `atob`, then one byte per character of the binary string. */
  method Decode(base64: string, atob: string -> Option<string>) returns (r: Result<array<byte>, JsError>)
    ensures atob(base64).None? ==> r == Failure(InvalidCharacterError)
    ensures atob(base64).Some? ==> r.Success? && r.value[..] == BytesOf(atob(base64).value)
  {
    var decoded := atob(base64);
    if decoded.None? {
      return Failure(InvalidCharacterError);
    }
    var binaryString := decoded.value;
    var len := |binaryString|;
    var bytes := new byte[len];
    for i := 0 to len
      invariant forall j :: 0 <= j < i ==> bytes[j] == ToUint8(binaryString[j] as int)
    {
      bytes[i] := ToUint8(binaryString[i] as int);
    }
    assert bytes[..] == BytesOf(binaryString);
    return Success(bytes);
  }

  /** `encode`: one character per byte, then `btoa`. */
  method Encode(bytes: array<byte>, btoa: string -> string) returns (r: string)
    ensures r == btoa(BinaryOf(bytes[..]))
  {
    var binary := "";
    var len := bytes.Length;
    for i := 0 to len
      invariant binary == BinaryOf(bytes[..i])
    {
      binary := binary + [(bytes[i] as int) as char];
    }
    assert bytes[..len] == bytes[..];
    return btoa(binary);
  }

  /** Provided `atob` undoes `btoa` on binary strings (the only strings `btoa`
      accepts and `atob` yields), decoding the text `encode` produces gives
      back the encoded bytes: the bytes `Decode` stores from `Encode`'s output. */
  lemma {:induction false} EncodeDecodeRoundTrip(bytes: seq<byte>, atob: string -> Option<string>, btoa: string -> string)
    requires forall s: string :: IsBinary(s) ==> atob(btoa(s)) == Some(s)
    ensures atob(btoa(BinaryOf(bytes))).Some?
    ensures BytesOf(atob(btoa(BinaryOf(bytes))).value) == bytes
  {
    assert IsBinary(BinaryOf(bytes));
    assert atob(btoa(BinaryOf(bytes))) == Some(BinaryOf(bytes));
    BytesOfBinaryOf(bytes);
  }

  /** Provided `btoa` undoes `atob` on the text it accepts, encoding the
      bytes `decode` produced gives back the base64 text. */
  lemma {:induction false} DecodeEncodeRoundTrip(base64: string, atob: string -> Option<string>, btoa: string -> string)
    requires atob(base64).Some?
    requires btoa(atob(base64).value) == base64
    requires IsBinary(atob(base64).value)
    ensures btoa(BinaryOf(BytesOf(atob(base64).value))) == base64
  {
    BinaryOfBytesOf(atob(base64).value);
  }

  // ---------------------------------------------------------------------------
  // Samples

  /** ECMAScript's truncation toward zero. */
  function Trunc(x: real): (n: int)
    ensures x - 1.0 < n as real < x + 1.0
    ensures x >= 0.0 ==> 0 <= n && n as real <= x
    ensures x < 0.0 ==> n <= 0 && x <= n as real
  {
    if x >= 0.0 then x.Floor else -((-x).Floor)
  }

  /** ECMAScript ToInt16 on a finite number: truncate, then wrap modulo 2^16
      into the signed range. This is what storing into an `Int16Array` does. */
  function ToInt16(x: real): (r: int16)
    ensures (r - Trunc(x)) % 65536 == 0
    ensures -32768 <= Trunc(x) < 32768 ==> r == Trunc(x)
  {
    var m := Trunc(x) % 65536;
    if m >= 32768 then m - 65536 else m
  }

  /** The 16-bit samples `createBlob` stores: one per input sample. */
  function Pcm(samples: seq<real>): (r: seq<int16>)
    ensures |r| == |samples|
  {
    seq(|samples|, i requires 0 <= i < |samples| => ToInt16(samples[i] * 32768.0))
  }

  /** A sample in [-1, 1) is stored without wrap-around, and reading it back
      as `decodeAudioData` does lands within one quantization step of it. */
  lemma SampleQuantization(s: real)
    requires -1.0 <= s < 1.0
    ensures ToInt16(s * 32768.0) == Trunc(s * 32768.0)
    ensures -1.0 / 32768.0 < ToInt16(s * 32768.0) as real / 32768.0 - s < 1.0 / 32768.0
  {
  }

  /** No clamping: full scale 1.0 wraps around to the most negative sample. */
  lemma FullScaleWraps()
    ensures ToInt16(1.0 * 32768.0) == -32768
  {
  }

  /** A sample read back by `decodeAudioData` and packed again by
      `createBlob` is the same 16-bit value. */
  lemma UnpackPack(v: int16)
    ensures ToInt16((v as real / 32768.0) * 32768.0) == v
  {
    assert (v as real / 32768.0) * 32768.0 == v as real;
  }

  // ---------------------------------------------------------------------------
  // The byte view of an Int16Array (little-endian)

  function LowByte(v: int16): byte {
    (v % 65536 % 256) as byte
  }

  function HighByte(v: int16): byte {
    (v % 65536 / 256) as byte
  }

  /** The sample a little-endian byte pair holds. */
  function Int16Of(lo: byte, hi: byte): int16 {
    var u := lo as int + 256 * hi as int;
    if u >= 32768 then u - 65536 else u
  }

  /** `new Uint8Array(int16.buffer)`: two bytes per sample, low byte first. */
  function LittleEndian(samples: seq<int16>): (r: seq<byte>)
    ensures |r| == 2 * |samples|
  {
    seq(2 * |samples|, i requires 0 <= i < 2 * |samples| =>
      if i % 2 == 0 then LowByte(samples[i / 2]) else HighByte(samples[i / 2]))
  }

  /** `new Int16Array(bytes.buffer)`: an odd byte count is a RangeError;
      otherwise one sample per byte pair. */
  function Int16View(bytes: seq<byte>): (r: Result<seq<int16>, JsError>)
    ensures r.Failure? <==> |bytes| % 2 == 1
    ensures r.Failure? ==> r.error == RangeError
    ensures r.Success? ==> |r.value| == |bytes| / 2
  {
    if |bytes| % 2 == 1 then Failure(RangeError)
    else Success(seq(|bytes| / 2, k requires 0 <= k < |bytes| / 2 => Int16Of(bytes[2 * k], bytes[2 * k + 1])))
  }

  /** Splitting a sample into bytes and joining them gives the sample back. */
  lemma SplitJoin(v: int16)
    ensures Int16Of(LowByte(v), HighByte(v)) == v
  {
    var u := v % 65536;
    assert u % 256 + 256 * (u / 256) == u;
    assert v >= 0 ==> u == v;
    assert v < 0 ==> u == v + 65536;
  }

  /** Joining two bytes into a sample and splitting it gives the bytes back. */
  lemma JoinSplit(lo: byte, hi: byte)
    ensures LowByte(Int16Of(lo, hi)) == lo && HighByte(Int16Of(lo, hi)) == hi
  {
    var u := lo as int + 256 * hi as int;
    assert Int16Of(lo, hi) % 65536 == u;
    assert u % 256 == lo as int && u / 256 == hi as int;
  }

  /** Viewing the bytes of 16-bit samples as 16-bit samples gives the samples
      back: the buffer `createBlob` encodes is what `decodeAudioData` reads. */
  lemma {:induction false} ViewOfLittleEndian(samples: seq<int16>)
    ensures Int16View(LittleEndian(samples)) == Success(samples)
  {
    var bytes := LittleEndian(samples);
    assert |bytes| % 2 == 0;
    var view := Int16View(bytes).value;
    assert |view| == |samples|;
    forall k | 0 <= k < |samples|
      ensures view[k] == samples[k]
    {
      assert (2 * k) / 2 == k && (2 * k + 1) / 2 == k;
      assert (2 * k) % 2 == 0 && (2 * k + 1) % 2 == 1;
      assert bytes[2 * k] == LowByte(samples[k]) && bytes[2 * k + 1] == HighByte(samples[k]);
      SplitJoin(samples[k]);
    }
    assert view == samples;
  }

  /** Every even-length byte sequence is the little-endian form of its view. */
  lemma {:induction false} LittleEndianOfView(bytes: seq<byte>)
    requires |bytes| % 2 == 0
    ensures LittleEndian(Int16View(bytes).value) == bytes
  {
    var view := Int16View(bytes).value;
    var back := LittleEndian(view);
    forall i | 0 <= i < |bytes|
      ensures back[i] == bytes[i]
    {
      var k := i / 2;
      JoinSplit(bytes[2 * k], bytes[2 * k + 1]);
      if i % 2 == 0 {
        assert i == 2 * k;
      } else {
        assert i == 2 * k + 1;
      }
    }
  }

  /** `createBlob`: pack each sample into an Int16Array, base64-encode its
      bytes, and tag the result with the fixed MIME type. */
  method CreateBlob(data: array<real>, btoa: string -> string) returns (blob: Blob)
    ensures blob.mimeType == PcmMimeType
    ensures blob.data == btoa(BinaryOf(LittleEndian(Pcm(data[..]))))
  {
    var l := data.Length;
    var int16 := new int16[l];
    for i := 0 to l
      invariant forall j :: 0 <= j < i ==> int16[j] == ToInt16(data[j] * 32768.0)
    {
      int16[i] := ToInt16(data[i] * 32768.0);
    }
    assert int16[..] == Pcm(data[..]);
    var view := LittleEndian(int16[..]);
    var bytes := new byte[|view|](i requires 0 <= i < |view| => view[i]);
    assert bytes[..] == view;
    var text := Encode(bytes, btoa);
    return Blob(text, PcmMimeType);
  }

  // ---------------------------------------------------------------------------
  // De-interleaving

  /** Frame i of a buffer with `numChannels` channels starts at sample
      `i * numChannels`; every read index of a whole frame is in bounds. */
  lemma InterleavedIndexInBounds(n: nat, numChannels: nat, i: nat, c: nat)
    requires 0 < numChannels && c < numChannels && i < n / numChannels
    ensures i * numChannels + c < n
  {
    var f := n / numChannels;
    assert f * numChannels <= n;
    assert (i + 1) * numChannels <= f * numChannels by {
      MulLeft(i + 1, f, numChannels);
    }
  }

  lemma MulLeft(a: nat, b: nat, m: nat)
    requires a <= b
    ensures a * m <= b * m
  {
    assert b * m == a * m + (b - a) * m;
  }

  /** The samples of channel c: sample c of every whole frame. */
  function ChannelSamples(samples: seq<int16>, numChannels: nat, c: nat): (r: seq<int16>)
    requires 0 < numChannels && c < numChannels
    ensures |r| == |samples| / numChannels
  {
    seq(|samples| / numChannels, i requires 0 <= i < |samples| / numChannels =>
      InterleavedIndexInBounds(|samples|, numChannels, i, c);
      samples[i * numChannels + c])
  }

  /** When the sample count is a multiple of the channel count, every sample
      lands in exactly one place: channel `k % numChannels`, frame `k / numChannels`. */
  lemma EverySampleRead(samples: seq<int16>, numChannels: nat, k: nat)
    requires 0 < numChannels && |samples| % numChannels == 0 && k < |samples|
    ensures k / numChannels < |samples| / numChannels
    ensures ChannelSamples(samples, numChannels, k % numChannels)[k / numChannels] == samples[k]
  {
    var n := |samples|;
    var f := n / numChannels;
    assert n == f * numChannels;
    var q := k / numChannels;
    assert k == q * numChannels + k % numChannels;
    if q >= f {
      MulLeft(f, q, numChannels);
      assert false;
    }
  }

  /** The frame count `decodeAudioData` asks `createBuffer` for, or the error
      on the way: an odd byte count fails in the Int16Array view, and zero
      whole frames fails in `createBuffer`. The fractional frame count of the
      code becomes an integral buffer length by truncation, and the extra loop
      round it causes writes past the channel's end, which a typed array
      ignores; so only whole frames are read. */
  function FrameCount(bytes: seq<byte>, numChannels: nat): (r: Result<nat, JsError>)
    requires 0 < numChannels
    ensures r.Success? ==> 0 < r.value && r.value * numChannels <= |bytes| / 2
    ensures |bytes| % 2 == 1 ==> r == Failure(RangeError)
    ensures |bytes| % 2 == 0 && |bytes| / 2 < numChannels ==> r == Failure(NotSupportedError)
    ensures |bytes| % 2 == 0 && |bytes| / 2 >= numChannels ==> r.Success?
  {
    match Int16View(bytes)
    case Failure(e) => Failure(e)
    case Success(samples) =>
      var frames := |samples| / numChannels;
      if frames == 0 then Failure(NotSupportedError) else Success(frames)
  }

  /** `decodeAudioData`: view the bytes as 16-bit samples, make a buffer of
      the whole frames, and fill channel c, frame i with sample
      `i * numChannels + c`, scaled to [-1, 1). */
  method DecodeAudioData(data: array<byte>, sampleRate: nat, numChannels: nat)
    returns (r: Result<Browser.AudioBuffer, JsError>)
    requires 0 < numChannels && 0 < sampleRate
    ensures r.Failure? <==> FrameCount(data[..], numChannels).Failure?
    ensures r.Failure? ==> r.error == FrameCount(data[..], numChannels).error
    ensures r.Success? ==>
      var b := r.value;
      && b.numberOfChannels == numChannels && b.sampleRate == sampleRate
      && b.length == FrameCount(data[..], numChannels).value
      && b.data.Length0 == numChannels && b.data.Length1 == b.length
      && forall c, i :: 0 <= c < numChannels && 0 <= i < b.length ==>
           b.data[c, i] == ChannelSamples(Int16View(data[..]).value, numChannels, c)[i] as real / 32768.0
  {
    var view := Int16View(data[..]);
    if view.Failure? {
      return Failure(view.error);
    }
    var dataInt16 := view.value;
    var frameCount := |dataInt16| / numChannels;
    if frameCount == 0 {
      return Failure(NotSupportedError);
    }
    var buffer := new Browser.AudioBuffer(numChannels, frameCount, sampleRate);
    for channel := 0 to numChannels
      invariant forall c, i :: 0 <= c < channel && 0 <= i < frameCount ==>
        buffer.data[c, i] == ChannelSamples(dataInt16, numChannels, c)[i] as real / 32768.0
    {
      for i := 0 to frameCount
        invariant forall c, j :: 0 <= c < channel && 0 <= j < frameCount ==>
          buffer.data[c, j] == ChannelSamples(dataInt16, numChannels, c)[j] as real / 32768.0
        invariant forall j :: 0 <= j < i ==>
          buffer.data[channel, j] == ChannelSamples(dataInt16, numChannels, channel)[j] as real / 32768.0
      {
        InterleavedIndexInBounds(|dataInt16|, numChannels, i, channel);
        buffer.data[channel, i] := dataInt16[i * numChannels + channel] as real / 32768.0;
      }
    }
    return Success(buffer);
  }
}
