/**
 * The audio path between the browser and the speech server: the browser's
 * `convertAudioData` (web/app.js, web/app_images.js) turns float samples
 * into 16-bit PCM sent as little-endian bytes, and the server reads those
 * bytes back as `int16` samples and scales them into [-1, 1).  Samples are
 * exact reals here, so IEEE rounding is not modelled.
 */
module Pcm {

  newtype byte = x: int | 0 <= x < 256

  /** JavaScript's truncation of a number toward zero. */
  function TruncateTowardZero(r: real): (n: int)
    ensures r >= 0.0 ==> 0.0 <= n as real <= r < n as real + 1.0
    ensures r < 0.0 ==> n as real - 1.0 < r <= n as real <= 0.0
  {
    if r >= 0.0 then r.Floor else -((-r).Floor)
  }

  /** Storing an integer into an `Int16Array` element: reduction modulo 2^16 into [-32768, 32767]. */
  function ToInt16(n: int): (v: int)
    ensures -32768 <= v <= 32767
    ensures (v - n) % 65536 == 0
    ensures -32768 <= n <= 32767 ==> v == n
  {
    (n + 32768) % 65536 - 32768
  }

  /** The amplified sample clamped to [-1, 1]. */
  function Clamp(x: real): (c: real)
    ensures -1.0 <= c <= 1.0
    ensures -1.0 <= x * 1.5 <= 1.0 ==> c == x * 1.5
    ensures x * 1.5 > 1.0 ==> c == 1.0
    ensures x * 1.5 < -1.0 ==> c == -1.0
  {
    if x * 1.5 > 1.0 then 1.0 else if x * 1.5 < -1.0 then -1.0 else x * 1.5
  }

  /**
   * One sample of `convertAudioData`: amplified by 1.5, clamped to [-1, 1],
   * scaled by 32768 when negative and by 32767 otherwise, and stored into
   * an `Int16Array`.  The result is a 16-bit sample; silence stays silent,
   * the sign is kept, and loud input saturates at either end.
   */
  function ConvertSample(x: real): (s: int)
    ensures -32768 <= s <= 32767
    ensures x == 0.0 ==> s == 0
    ensures x > 0.0 ==> s >= 0
    ensures x < 0.0 ==> s <= 0
    ensures x * 1.5 >= 1.0 ==> s == 32767
    ensures x * 1.5 <= -1.0 ==> s == -32768
  {
    var c := Clamp(x);
    var scaled := if c < 0.0 then c * 32768.0 else c * 32767.0;
    var t := TruncateTowardZero(scaled);
    ScaledRange(c);
    ToInt16(t)
  }

  lemma ScaledRange(c: real)
    requires -1.0 <= c <= 1.0
    ensures c < 0.0 ==> -32768.0 <= c * 32768.0 < 0.0
    ensures c >= 0.0 ==> 0.0 <= c * 32767.0 <= 32767.0
  {
  }

  /** Louder input never gives a smaller sample. */
  lemma ConvertSampleMonotone(x: real, y: real)
    requires x <= y
    ensures ConvertSample(x) <= ConvertSample(y)
  {
    var cx, cy := Clamp(x), Clamp(y);
    assert cx <= cy;
    if cx < 0.0 && cy < 0.0 {
      assert cx * 32768.0 <= cy * 32768.0;
    } else if cx >= 0.0 && cy >= 0.0 {
      assert cx * 32767.0 <= cy * 32767.0;
    }
  }

  /** The samples `convertAudioData` produces: one 16-bit sample per input sample, in order. */
  function Converted(input: seq<real>): (r: seq<int>)
    ensures |r| == |input|
    ensures forall i :: 0 <= i < |r| ==> -32768 <= r[i] <= 32767
  {
    seq(|input|, i requires 0 <= i < |input| => ConvertSample(input[i]))
  }

  /** `convertAudioData`: fills a fresh 16-bit buffer with one converted sample per input sample. */
  method ConvertAudioData(input: seq<real>) returns (output: seq<int>)
    ensures |output| == |input|
    ensures forall i :: 0 <= i < |input| ==> output[i] == ConvertSample(input[i])
    ensures output == Converted(input)
  {
    var buffer := new int[|input|];
    for i := 0 to |input|
      invariant forall j :: 0 <= j < i ==> buffer[j] == ConvertSample(input[j])
    {
      buffer[i] := ConvertSample(input[i]);
    }
    output := buffer[..];
  }

  // ------------------------------------------------- bytes on the wire

  /** A 16-bit sample as two little-endian bytes, in two's complement. */
  function EncodeSample(s: int): (b: seq<byte>)
    requires -32768 <= s <= 32767
    ensures |b| == 2
    ensures b[0] as int + 256 * b[1] as int == (if s < 0 then s + 65536 else s)
  {
    var u := if s < 0 then s + 65536 else s;
    [(u % 256) as byte, (u / 256) as byte]
  }

  /** Two little-endian bytes read as a signed 16-bit sample. */
  function DecodeSample(lo: byte, hi: byte): (s: int)
    ensures -32768 <= s <= 32767
    ensures (lo as int + 256 * hi as int - s) % 65536 == 0
  {
    var u := lo as int + 256 * hi as int;
    if u >= 32768 then u - 65536 else u
  }

  lemma DecodeEncodeSample(s: int)
    requires -32768 <= s <= 32767
    ensures DecodeSample(EncodeSample(s)[0], EncodeSample(s)[1]) == s
  {
  }

  /** The buffer a `ws.send` of an `Int16Array` puts on the wire. */
  function EncodePcm(samples: seq<int>): (b: seq<byte>)
    requires forall i :: 0 <= i < |samples| ==> -32768 <= samples[i] <= 32767
    ensures |b| == 2 * |samples|
  {
    if samples == [] then [] else EncodeSample(samples[0]) + EncodePcm(samples[1..])
  }

  function DecodePairs(b: seq<byte>): seq<int>
    requires |b| % 2 == 0
  {
    if b == [] then [] else [DecodeSample(b[0], b[1])] + DecodePairs(b[2..])
  }

  /**
   * The server's `np.frombuffer(message, dtype=np.int16)`: a message of odd
   * length is refused (the server answers with an error), any other is read
   * as little-endian 16-bit samples, half as many as there are bytes.
   */
  function DecodePcm(b: seq<byte>): (r: Option16)
    ensures r.Refused? <==> |b| % 2 == 1
    ensures r.Samples? ==> |r.samples| == |b| / 2
    ensures r.Samples? ==> forall i :: 0 <= i < |r.samples| ==> -32768 <= r.samples[i] <= 32767
  {
    if |b| % 2 == 1 then Refused
    else
      DecodePairsFacts(b);
      Samples(DecodePairs(b))
  }

  datatype Option16 = Refused | Samples(samples: seq<int>)

  lemma {:induction false} DecodePairsFacts(b: seq<byte>)
    requires |b| % 2 == 0
    ensures |DecodePairs(b)| == |b| / 2
    ensures forall i :: 0 <= i < |DecodePairs(b)| ==> -32768 <= DecodePairs(b)[i] <= 32767
    decreases |b|
  {
    if b != [] {
      DecodePairsFacts(b[2..]);
    }
  }

  /** What the browser sends, the server reads back sample for sample. */
  lemma {:induction false} DecodeEncodePcm(samples: seq<int>)
    requires forall i :: 0 <= i < |samples| ==> -32768 <= samples[i] <= 32767
    ensures DecodePcm(EncodePcm(samples)) == Samples(samples)
  {
    if samples != [] {
      var b := EncodePcm(samples);
      assert b[2..] == EncodePcm(samples[1..]);
      DecodeEncodePcm(samples[1..]);
      DecodeEncodeSample(samples[0]);
      assert [samples[0]] + samples[1..] == samples;
    }
  }

  /** The server's `int16_array.astype(np.float32) / 32768.0`, over exact reals: every sample lands in [-1, 1). */
  function Normalize(samples: seq<int>): (r: seq<real>)
    requires forall i :: 0 <= i < |samples| ==> -32768 <= samples[i] <= 32767
    ensures |r| == |samples|
    ensures forall i :: 0 <= i < |r| ==> -1.0 <= r[i] < 1.0 && r[i] * 32768.0 == samples[i] as real
  {
    seq(|samples|, i requires 0 <= i < |samples| => samples[i] as real / 32768.0)
  }
}
