/** Bytes, samples, and the fixed-width integers written in packet headers. */
module Bytes {
  newtype Byte = b: int | 0 <= b < 0x100
  newtype Sample = s: int | -0x8000 <= s < 0x8000

  type U16 = n: int | 0 <= n < 0x1_0000
  type U32 = n: int | 0 <= n < 0x1_0000_0000
  type I32 = n: int | -0x8000_0000 <= n < 0x8000_0000
  type U64 = n: int | 0 <= n < 0x1_0000_0000_0000_0000

  const TWO_TO_THE_32: int := 0x1_0000_0000

  function U16FromBe(bytes: seq<Byte>): U16
    requires |bytes| == 2
  {
    bytes[0] as int * 0x100 + bytes[1] as int
  }

  function U16ToBe(n: U16): (bytes: seq<Byte>)
    ensures |bytes| == 2 && U16FromBe(bytes) == n
  {
    [(n / 0x100) as Byte, (n % 0x100) as Byte]
  }

  function U32FromBe(bytes: seq<Byte>): U32
    requires |bytes| == 4
  {
    var high: int, low: int := U16FromBe(bytes[..2]), U16FromBe(bytes[2..]);
    high * 0x1_0000 + low
  }

  function U32ToBe(n: U32): (bytes: seq<Byte>)
    ensures |bytes| == 4 && U32FromBe(bytes) == n
  {
    var high, low := U16ToBe(n / 0x1_0000), U16ToBe(n % 0x1_0000);
    assert (high + low)[..2] == high && (high + low)[2..] == low;
    high + low
  }

  /** Two's complement reading of an unsigned 32-bit value. */
  function AsI32(n: U32): I32 {
    if n < 0x8000_0000 then n else n - TWO_TO_THE_32
  }

  function I32FromBe(bytes: seq<Byte>): I32
    requires |bytes| == 4
  {
    AsI32(U32FromBe(bytes))
  }

  function I32ToBe(n: I32): (bytes: seq<Byte>)
    ensures |bytes| == 4 && I32FromBe(bytes) == n
  {
    U32ToBe(if n >= 0 then n else n + TWO_TO_THE_32)
  }

  /** The most significant byte comes first, and a set top bit makes a signed value negative. */
  lemma BigEndian(b0: Byte, b1: Byte, b2: Byte, b3: Byte)
    ensures U16FromBe([b0, b1]) == b0 as int * 0x100 + b1 as int
    ensures var n: int := ((b0 as int * 0x100 + b1 as int) * 0x100 + b2 as int) * 0x100 + b3 as int;
            && U32FromBe([b0, b1, b2, b3]) == n
            && I32FromBe([b0, b1, b2, b3]) == if b0 < 0x80 then n else n - 0x1_0000_0000
  {
    var bytes := [b0, b1, b2, b3];
    assert bytes[..2] == [b0, b1] && bytes[2..] == [b2, b3];
  }

  /** One little-endian 16-bit sample. */
  function SampleFromLe(low: Byte, high: Byte): Sample {
    var unsigned := low as int + 0x100 * high as int;
    (if unsigned < 0x8000 then unsigned else unsigned - 0x1_0000) as Sample
  }

  /** Little-endian samples; an odd byte at the end is not a sample. */
  function DecodeSamples(bytes: seq<Byte>): (samples: seq<Sample>)
    ensures |samples| == |bytes| / 2
  {
    seq(|bytes| / 2, i requires 0 <= i < |bytes| / 2 => SampleFromLe(bytes[2 * i], bytes[2 * i + 1]))
  }

  /** Two's complement, low byte first. */
  function SampleToLe(sample: Sample): (bytes: seq<Byte>)
    ensures |bytes| == 2
  {
    var unsigned := if sample < 0 then sample as int + 0x1_0000 else sample as int;
    [(unsigned % 0x100) as Byte, (unsigned / 0x100) as Byte]
  }

  function EncodeSamples(samples: seq<Sample>): (bytes: seq<Byte>)
    ensures |bytes| == 2 * |samples|
  {
    if samples == [] then [] else EncodeSamples(samples[..|samples| - 1]) + SampleToLe(samples[|samples| - 1])
  }

  lemma SampleRoundTrip(sample: Sample)
    ensures SampleFromLe(SampleToLe(sample)[0], SampleToLe(sample)[1]) == sample
  {
  }

  /** Two little-endian bytes are one sample, and every sample is two such bytes. */
  lemma SampleBytes(low: Byte, high: Byte)
    ensures SampleToLe(SampleFromLe(low, high)) == [low, high]
  {
  }

  /** Decoding gives back the samples that were captured. */
  lemma {:induction false} SamplesRoundTrip(samples: seq<Sample>)
    ensures DecodeSamples(EncodeSamples(samples)) == samples
  {
    if samples != [] {
      var front, last := samples[..|samples| - 1], samples[|samples| - 1];
      SamplesRoundTrip(front);
      DecodeConcat(EncodeSamples(front), SampleToLe(last));
      SampleRoundTrip(last);
      assert DecodeSamples(SampleToLe(last)) == [last];
    }
  }

  /** And no two sequences of whole samples are decoded as the same. */
  lemma {:induction false} BytesRoundTrip(bytes: seq<Byte>)
    requires |bytes| % 2 == 0
    ensures EncodeSamples(DecodeSamples(bytes)) == bytes
  {
    if bytes != [] {
      var front, last := bytes[..|bytes| - 2], bytes[|bytes| - 2..];
      BytesRoundTrip(front);
      assert bytes == front + last;
      DecodeConcat(front, last);
      SampleBytes(last[0], last[1]);
      var samples := DecodeSamples(bytes);
      assert DecodeSamples(last) == [SampleFromLe(last[0], last[1])];
      assert samples[..|samples| - 1] == DecodeSamples(front) && last == [last[0], last[1]];
    }
  }

  lemma DecodeConcat(left: seq<Byte>, right: seq<Byte>)
    requires |left| % 2 == 0
    ensures DecodeSamples(left + right) == DecodeSamples(left) + DecodeSamples(right)
  {
    var whole, a, b := DecodeSamples(left + right), DecodeSamples(left), DecodeSamples(right);
    assert |whole| == |a| + |b|;
    forall i | 0 <= i < |whole| ensures whole[i] == (a + b)[i] {
      if i >= |a| {
        assert (left + right)[2 * i] == right[2 * (i - |a|)];
        assert (left + right)[2 * i + 1] == right[2 * (i - |a|) + 1];
      }
    }
  }

  lemma DecodePrefix(prefix: seq<Byte>, whole: seq<Byte>)
    requires prefix <= whole && |prefix| % 2 == 0
    ensures DecodeSamples(prefix) <= DecodeSamples(whole)
  {
    DecodeConcat(prefix, whole[|prefix|..]);
    assert whole == prefix + whole[|prefix|..];
  }
}
