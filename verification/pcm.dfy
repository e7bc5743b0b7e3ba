/**
 * Raw PCM decoding as done by `np.frombuffer(data, dtype=np.int16)`:
 * little-endian byte pairs become signed 16-bit samples.
 */
module Pcm {
  import opened Wrappers

  type Byte = x: int | 0 <= x < 0x100
  type Sample = x: int | -0x8000 <= x < 0x8000

  /** Message numpy raises when the byte count is odd. */
  const OddLengthMessage := "buffer size must be a multiple of element size"

  /** One little-endian two's-complement 16-bit sample from its low and high byte. */
  function SampleOf(lo: Byte, hi: Byte): (s: Sample)
    ensures (s as int + 0x1_0000) % 0x1_0000 == lo + 0x100 * hi
  {
    var u := lo + 0x100 * hi;
    if u >= 0x8000 then u - 0x1_0000 else u
  }

  /** The two bytes, low first, that store one sample. */
  function BytesOf(s: Sample): (b: seq<Byte>)
    ensures |b| == 2
    ensures SampleOf(b[0], b[1]) == s
  {
    var u := if s < 0 then s + 0x1_0000 else s as int;
    [u % 0x100, u / 0x100]
  }

  /** Decodes an even-length byte string pairwise. */
  function DecodePairs(data: seq<Byte>): (r: seq<Sample>)
    requires |data| % 2 == 0
    ensures |r| == |data| / 2
    ensures forall i :: 0 <= i < |r| ==> r[i] == SampleOf(data[2 * i], data[2 * i + 1])
  {
    if data == [] then []
    else [SampleOf(data[0], data[1])] + DecodePairs(data[2..])
  }

  /** `np.frombuffer(data, dtype=np.int16)`: fails on an odd byte count. */
  function Decode(data: seq<Byte>): (r: Result<seq<Sample>, string>)
    ensures r.Failure? <==> |data| % 2 == 1
    ensures r.Failure? ==> r.error == OddLengthMessage
    ensures r.Success? ==> |r.value| == |data| / 2
  {
    if |data| % 2 != 0 then Failure(OddLengthMessage) else Success(DecodePairs(data))
  }

  /** The byte string a client sends for the given samples. */
  function Encode(samples: seq<Sample>): (r: seq<Byte>)
    ensures |r| == 2 * |samples|
  {
    if samples == [] then [] else BytesOf(samples[0]) + Encode(samples[1..])
  }

  lemma {:induction false} DecodeEncode(samples: seq<Sample>)
    ensures Decode(Encode(samples)) == Success(samples)
  {
    if samples != [] {
      DecodeEncode(samples[1..]);
      var e := Encode(samples);
      var b := BytesOf(samples[0]);
      assert e == b + Encode(samples[1..]);
      assert e[0] == b[0] && e[1] == b[1] && e[2..] == Encode(samples[1..]);
      assert DecodePairs(e) == [SampleOf(b[0], b[1])] + DecodePairs(e[2..]);
      assert samples == [samples[0]] + samples[1..];
    }
  }

  /** Each byte pair decodes to a sample whose encoding is that pair again. */
  lemma BytesOfSampleOf(lo: Byte, hi: Byte)
    ensures BytesOf(SampleOf(lo, hi)) == [lo, hi]
  {
    var u := lo + 0x100 * hi;
    assert (u % 0x100) == lo && u / 0x100 == hi;
  }

  lemma {:induction false} EncodeDecode(data: seq<Byte>)
    requires |data| % 2 == 0
    ensures Decode(data).Success? && Encode(Decode(data).value) == data
  {
    if data != [] {
      EncodeDecode(data[2..]);
      BytesOfSampleOf(data[0], data[1]);
      var d := DecodePairs(data);
      assert d[1..] == DecodePairs(data[2..]);
      assert data == [data[0], data[1]] + data[2..];
    }
  }
}
