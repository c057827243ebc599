/** utils/audioUtils.ts: the wire codec between base64 strings, bytes,
    16-bit PCM and float samples. Samples are `real`; float32 rounding and
    NaN are not modelled. */
module AudioUtils {
  import opened Wrappers
  import opened Base64

  /** The exceptions these helpers can raise. */
  datatype AudioError =
    | BadBase64(dom: DomError)   // `atob` rejected the string
    | RangeError                 // `new Int16Array(buffer)` on an odd byte length
    | NotSupportedError          // `createBuffer` with zero channels' worth of frames

  /** Truncation toward zero, as a float-to-integer store does. */
  function Trunc(x: real): (r: int)
    ensures x >= 0.0 ==> r == x.Floor
    ensures x < 0.0 ==> r == -((-x).Floor)
  {
    if x >= 0.0 then x.Floor else -((-x).Floor)
  }

  /** The `Int16Array` store conversion: an integer is wrapped modulo 2^16 into [-32768, 32767]. */
  function ToInt16(v: int): (r: int)
    ensures -32768 <= r <= 32767
    ensures -32768 <= v <= 32767 ==> r == v
  {
    (v + 32768) % 65536 - 32768
  }

  /** `Math.max(-1, Math.min(1, x))`. */
  function Clamp(x: real): (r: real)
    ensures -1.0 <= r <= 1.0
    ensures -1.0 <= x <= 1.0 ==> r == x
    ensures x > 1.0 ==> r == 1.0
    ensures x < -1.0 ==> r == -1.0
  {
    if x > 1.0 then 1.0 else if x < -1.0 then -1.0 else x
  }

  /** One sample of `float32ToInt16PCM`: clamp, then scale negatives by 0x8000 and the rest by 0x7FFF. */
  function Int16Sample(x: real): int {
    var s := Clamp(x);
    ToInt16(Trunc(if s < 0.0 then s * 32768.0 else s * 32767.0))
  }

  lemma Int16SampleRange(x: real)
    ensures -32768 <= Int16Sample(x) <= 32767
    ensures x < 0.0 ==> Int16Sample(x) <= 0
    ensures x >= 0.0 ==> Int16Sample(x) >= 0
    ensures x >= 1.0 ==> Int16Sample(x) == 32767
    ensures x <= -1.0 ==> Int16Sample(x) == -32768
    ensures Int16Sample(x) == Int16Sample(Clamp(x))
  {
    var s := Clamp(x);
    if s < 0.0 {
      assert -32768.0 <= s * 32768.0 < 0.0;
    } else {
      assert 0.0 <= s * 32767.0 <= 32767.0;
    }
  }

  /** `float32ToInt16PCM`: one clamped, scaled 16-bit value per sample. */
  method Float32ToInt16PCM(samples: array<real>) returns (pcm: array<int>)
    ensures pcm.Length == samples.Length
    ensures forall i :: 0 <= i < pcm.Length ==> pcm[i] == Int16Sample(samples[i])
    ensures forall i :: 0 <= i < pcm.Length ==> -32768 <= pcm[i] <= 32767
  {
    pcm := new int[samples.Length];
    var i := 0;
    while i < samples.Length
      invariant 0 <= i <= samples.Length
      invariant forall k :: 0 <= k < i ==> pcm[k] == Int16Sample(samples[k]) && -32768 <= pcm[k] <= 32767
    {
      var s := Clamp(samples[i]);
      pcm[i] := ToInt16(Trunc(if s < 0.0 then s * 32768.0 else s * 32767.0));
      i := i + 1;
    }
  }

  /** The little-endian bytes of `Int16Array.buffer`: two's complement low byte then high byte. */
  function Int16Bytes(vals: seq<int>): (r: seq<Byte>)
    ensures |r| == 2 * |vals|
  {
    if vals == [] then []
    else
      var u := vals[0] % 65536;
      [u % 256, u / 256] + Int16Bytes(vals[1..])
  }

  /** `new Int16Array(buffer)`: little-endian signed pairs; an odd length is a RangeError. */
  function Int16View(bytes: seq<Byte>): (r: Result<seq<int>, AudioError>)
    ensures r.Ok? <==> |bytes| % 2 == 0
    ensures r.Ok? ==> 2 * |r.value| == |bytes|
    ensures r.Ok? ==> forall i :: 0 <= i < |r.value| ==> -32768 <= r.value[i] <= 32767
    ensures r.Err? ==> r.error == RangeError
  {
    if |bytes| % 2 == 1 then Err(RangeError)
    else Ok(Int16Values(bytes))
  }

  function Int16Values(bytes: seq<Byte>): (r: seq<int>)
    requires |bytes| % 2 == 0
    ensures 2 * |r| == |bytes|
    ensures forall i :: 0 <= i < |r| ==> -32768 <= r[i] <= 32767
  {
    if bytes == [] then []
    else
      var u: int := bytes[0] as int + 256 * bytes[1] as int;
      [if u >= 32768 then u - 65536 else u] + Int16Values(bytes[2..])
  }

  /** Encoding 16-bit values to bytes and reading them back as an `Int16Array` is the identity. */
  lemma {:induction false} Int16BytesRoundTrip(vals: seq<int>)
    requires forall i :: 0 <= i < |vals| ==> -32768 <= vals[i] <= 32767
    ensures Int16View(Int16Bytes(vals)) == Ok(vals)
  {
    Int16ValuesRoundTrip(vals);
  }

  lemma {:induction false} Int16ValuesRoundTrip(vals: seq<int>)
    requires forall i :: 0 <= i < |vals| ==> -32768 <= vals[i] <= 32767
    ensures Int16Values(Int16Bytes(vals)) == vals
  {
    if vals != [] {
      Int16ValuesRoundTrip(vals[1..]);
      var u := vals[0] % 65536;
      var tail := Int16Bytes(vals[1..]);
      var b := [u % 256, u / 256] + tail;
      assert b == Int16Bytes(vals);
      assert b[2..] == tail;
      Int16PairRoundTrip(vals[0]);
      assert Int16Values(b) == [vals[0]] + Int16Values(tail);
    }
  }

  /** One value's two bytes decode back to the value. */
  lemma Int16PairRoundTrip(v: int)
    requires -32768 <= v <= 32767
    ensures var u := v % 65536; var w := (u % 256) + 256 * (u / 256);
      (if w >= 32768 then w - 65536 else w) == v
  {
    var u := v % 65536;
    assert (u % 256) + 256 * (u / 256) == u;
    if v < 0 {
      assert u == v + 65536;
    } else {
      assert u == v;
    }
  }

  /** `uint8ArrayToBase64`: builds the binary string one char code at a time, then `btoa`. */
  method Uint8ArrayToBase64(bytes: array<Byte>) returns (s: string)
    ensures s == Encode(bytes[..])
    ensures Atob(s) == Ok(BinaryString(bytes[..]))
  {
    var binary: string := [];
    var i := 0;
    while i < bytes.Length
      invariant 0 <= i <= bytes.Length
      invariant binary == BinaryString(bytes[..i])
    {
      binary := binary + [bytes[i] as char];
      i := i + 1;
    }
    assert bytes[..i] == bytes[..];
    EncodeDecode(bytes[..]);
    s := Btoa(binary).value;
  }

  /** `base64ToUint8Array`: `atob`, then one byte per char code; `atob`'s exception propagates. */
  method Base64ToUint8Array(base64: string) returns (r: Result<array<Byte>, AudioError>)
    ensures Atob(base64).Err? <==> r.Err?
    ensures r.Err? ==> r.error == BadBase64(Atob(base64).error)
    ensures r.Ok? ==> BinaryString(r.value[..]) == Atob(base64).value
  {
    var decoded := Atob(base64);
    if decoded.Err? {
      return Err(BadBase64(decoded.error));
    }
    var binaryString := decoded.value;
    var len := |binaryString|;
    var bytes := new Byte[len];
    var i := 0;
    while i < len
      invariant 0 <= i <= len
      invariant forall k :: 0 <= k < i ==> bytes[k] == binaryString[k] as int
    {
      bytes[i] := binaryString[i] as int;
      i := i + 1;
    }
    assert BinaryString(bytes[..]) == binaryString;
    r := Ok(bytes);
  }

  /** Encoding bytes with `uint8ArrayToBase64`'s specification and decoding them with
      `base64ToUint8Array`'s gives back the same bytes. */
  lemma Base64BytesRoundTrip(b: seq<Byte>)
    ensures Atob(Encode(b)).Ok?
    ensures CharCodes(Atob(Encode(b)).value) == b
  {
    EncodeDecode(b);
  }

  /** A decoded `AudioBuffer`: one sample array per channel (what `getChannelData` returns),
      the length in frames shared by all channels, and the sample rate. */
  datatype AudioBuffer = AudioBuffer(channelData: seq<array<real>>, length: nat, sampleRate: nat) {
    /** `AudioBuffer.duration`, in seconds. */
    function Duration(): real
      requires sampleRate > 0
    {
      length as real / sampleRate as real
    }
  }

  /** Sample `i` of channel `c`, read from the interleaved 16-bit values. */
  function ChannelSample(pcm: seq<int>, channels: nat, c: nat, i: nat): real
    requires c < channels && i * channels + c < |pcm|
  {
    pcm[i * channels + c] as real / 32768.0
  }

  lemma ChannelSampleRange(pcm: seq<int>, channels: nat, c: nat, i: nat)
    requires c < channels && i * channels + c < |pcm|
    requires forall k :: 0 <= k < |pcm| ==> -32768 <= pcm[k] <= 32767
    ensures -1.0 <= ChannelSample(pcm, channels, c, i) < 1.0
  {
    var v := pcm[i * channels + c];
    assert -32768 <= v <= 32767;
  }

  /** Every index the de-interleaving reads lies inside the 16-bit view. */
  lemma FrameIndexInBounds(n: nat, channels: nat, c: nat, i: nat)
    requires channels >= 1 && c < channels && i < n / channels
    ensures i * channels + c < n
  {
    assert (i + 1) * channels <= (n / channels) * channels <= n;
  }

  /** The source's loop test `i < frameCount`, with `frameCount = length / channels` as a real. */
  lemma FrameLoopBound(n: nat, channels: nat, i: nat)
    requires channels >= 1
    ensures (i as real < n as real / channels as real) <==> i * channels < n
    ensures i * channels < n ==> i < n
  {
    var q := n as real / channels as real;
    assert q * channels as real == n as real;
    if i as real < q {
      assert i as real * channels as real < q * channels as real;
    } else {
      assert i as real * channels as real >= q * channels as real;
    }
    assert i <= i * channels;
  }

  /** `row` holds the de-interleaved samples of channel `c` below index `upto`. */
  ghost predicate RowFilled(row: array<real>, pcm: seq<int>, channels: nat, c: nat, upto: nat)
    reads row
  {
    c < channels
    && forall i :: 0 <= i < upto && i < row.Length ==>
         i * channels + c < |pcm| && row[i] == ChannelSample(pcm, channels, c, i)
  }

  /** Every channel of `buffer` holds its de-interleaved samples. */
  ghost predicate Deinterleaved(buffer: AudioBuffer, pcm: seq<int>, channels: nat)
    reads set c | 0 <= c < |buffer.channelData| :: buffer.channelData[c]
  {
    && |buffer.channelData| == channels
    && forall c :: 0 <= c < channels ==>
         buffer.channelData[c].Length == buffer.length && RowFilled(buffer.channelData[c], pcm, channels, c, buffer.length)
  }

  lemma RowsAppend(rows: seq<array<real>>, row: array<real>, pcm: seq<int>, channels: nat, frames: nat)
    requires forall c :: 0 <= c < |rows| ==> rows[c].Length == frames && RowFilled(rows[c], pcm, channels, c, frames)
    requires row.Length == frames && RowFilled(row, pcm, channels, |rows|, frames)
    ensures var all := rows + [row];
      forall c :: 0 <= c < |all| ==> all[c].Length == frames && RowFilled(all[c], pcm, channels, c, frames)
  {
  }

  /** The inner loop of `pcmToAudioBuffer`: runs while `i < frameCount` and fills one channel. */
  method FillChannel(channelData: array<real>, pcm: seq<int>, channels: nat, channel: nat)
    requires channels >= 1 && channel < channels
    requires channelData.Length == |pcm| / channels
    modifies channelData
    ensures RowFilled(channelData, pcm, channels, channel, channelData.Length)
  {
    var n := |pcm|;
    var frameCount: real := n as real / channels as real;
    var i := 0;
    while i as real < frameCount
      invariant 0 <= i <= n
      invariant RowFilled(channelData, pcm, channels, channel, i)
      decreases n - i
    {
      FrameLoopBound(n, channels, i);
      // A write past the buffer's length (the last pass when the division is inexact) is dropped.
      if i < channelData.Length {
        FrameIndexInBounds(n, channels, channel, i);
        channelData[i] := pcm[i * channels + channel] as real / 32768.0;
      }
      i := i + 1;
    }
    FrameLoopBound(n, channels, i);
    if i < channelData.Length {
      FrameIndexInBounds(n, channels, 0, i);
    }
  }

  /** `pcmToAudioBuffer`: views the bytes as 16-bit values, takes `length / channels` frames
      (the buffer length truncates a fraction) and fills each channel with `value / 32768`. */
  method PcmToAudioBuffer(pcmData: array<Byte>, sampleRate: nat, channels: nat) returns (r: Result<AudioBuffer, AudioError>)
    requires channels >= 1
    ensures Int16View(pcmData[..]).Err? ==> r == Err(RangeError)
    ensures Int16View(pcmData[..]).Ok? && |Int16View(pcmData[..]).value| / channels == 0 ==> r == Err(NotSupportedError)
    ensures Int16View(pcmData[..]).Ok? && |Int16View(pcmData[..]).value| / channels >= 1 ==> r.Ok?
    ensures r.Ok? ==>
      && Int16View(pcmData[..]).Ok?
      && r.value.sampleRate == sampleRate
      && r.value.length == |Int16View(pcmData[..]).value| / channels >= 1
      && Deinterleaved(r.value, Int16View(pcmData[..]).value, channels)
  {
    var view := Int16View(pcmData[..]);
    if view.Err? {
      return Err(RangeError);
    }
    var int16Array := view.value;
    var frames := |int16Array| / channels;
    if frames == 0 {
      return Err(NotSupportedError);
    }
    var rows: seq<array<real>> := [];
    var channel := 0;
    while channel < channels
      invariant 0 <= channel <= channels && |rows| == channel
      invariant forall c :: 0 <= c < channel ==> rows[c].Length == frames && RowFilled(rows[c], int16Array, channels, c, frames)
    {
      var channelData := new real[frames];
      FillChannel(channelData, int16Array, channels, channel);
      RowsAppend(rows, channelData, int16Array, channels, frames);
      rows := rows + [channelData];
      channel := channel + 1;
    }
    r := Ok(AudioBuffer(rows, frames, sampleRate));
    assert Deinterleaved(r.value, int16Array, channels);
  }
}
