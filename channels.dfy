/** Sample formats of the host images, the interleaved <-> channel-separated
    index arithmetic, and the normalisation of samples at the host/device
    boundary.  Every image has exactly three channels; an interleaved buffer
    of n pixels has length 3 * n and holds channel c of pixel p at 3 * p + c. */
module Channels {

  /** UINT16_MAX: the largest 16-bit sample, the scale of input and output. */
  const UInt16Max: int := 65535
  /** The largest 8-bit sample (PSF images are 8 bits per channel). */
  const UInt8Max: int := 255

  predicate IsUInt16(x: int) { 0 <= x <= UInt16Max }
  predicate IsUInt8(x: int) { 0 <= x <= UInt8Max }

  /** Three channels, each of n samples. */
  predicate IsPlanar<T>(planes: seq<seq<T>>, n: nat)
  {
    |planes| == 3 && forall c :: 0 <= c < 3 ==> |planes[c]| == n
  }

  // ---------------------------------------------------------------------
  // Index arithmetic: i <-> (i % 3, i / 3)
  // ---------------------------------------------------------------------

  /** Every interleaved index i names an in-bounds channel i % 3 and pixel
      i / 3, and is recovered from them. */
  lemma SplitIndex(i: int, n: nat)
    requires 0 <= i < 3 * n
    ensures 0 <= i % 3 < 3 && 0 <= i / 3 < n
    ensures i == 3 * (i / 3) + i % 3
  {
  }

  /** Every channel/pixel slot (c, p) is named by exactly one interleaved
      index, 3 * p + c. */
  lemma JoinIndex(c: int, p: int, n: nat)
    requires 0 <= c < 3 && 0 <= p < n
    ensures 0 <= 3 * p + c < 3 * n
    ensures (3 * p + c) % 3 == c && (3 * p + c) / 3 == p
  {
  }

  /** Two interleaved indices name the same slot only if they are equal. */
  lemma SlotsDistinct(i: int, j: int)
    requires 0 <= i && 0 <= j
    requires i % 3 == j % 3 && i / 3 == j / 3
    ensures i == j
  {
  }

  // ---------------------------------------------------------------------
  // De-interleave and re-interleave
  // ---------------------------------------------------------------------

  /** Splits an interleaved buffer into its three channels. */
  function Deinterleave<T>(raw: seq<T>): (planes: seq<seq<T>>)
    requires |raw| % 3 == 0
    ensures IsPlanar(planes, |raw| / 3)
  {
    seq(3, c requires 0 <= c < 3 =>
      seq(|raw| / 3, p requires 0 <= p < |raw| / 3 => raw[3 * p + c]))
  }

  /** Writes three channels of n samples back in interleaved order. */
  function Interleave<T>(planes: seq<seq<T>>, n: nat): (raw: seq<T>)
    requires IsPlanar(planes, n)
    ensures |raw| == 3 * n
  {
    seq(3 * n, i requires 0 <= i < 3 * n => SplitIndex(i, n); planes[i % 3][i / 3])
  }

  /** The de-interleave loop writes slot [i % 3][i / 3] with sample i. */
  lemma DeinterleaveAt<T>(raw: seq<T>, i: int)
    requires |raw| % 3 == 0 && 0 <= i < |raw|
    ensures 0 <= i % 3 < 3 && 0 <= i / 3 < |raw| / 3
    ensures Deinterleave(raw)[i % 3][i / 3] == raw[i]
  {
    SplitIndex(i, |raw| / 3);
  }

  /** Re-interleaving what was de-interleaved gives back the buffer. */
  lemma InterleaveDeinterleave<T>(raw: seq<T>)
    requires |raw| % 3 == 0
    ensures Interleave(Deinterleave(raw), |raw| / 3) == raw
  {
    var r := Interleave(Deinterleave(raw), |raw| / 3);
    forall i | 0 <= i < |raw|
      ensures r[i] == raw[i]
    {
      DeinterleaveAt(raw, i);
    }
  }

  /** De-interleaving what was interleaved gives back the channels. */
  lemma DeinterleaveInterleave<T>(planes: seq<seq<T>>, n: nat)
    requires IsPlanar(planes, n)
    ensures Deinterleave(Interleave(planes, n)) == planes
  {
    var raw := Interleave(planes, n);
    var d := Deinterleave(raw);
    assert |raw| / 3 == n;
    forall c | 0 <= c < 3
      ensures d[c] == planes[c]
    {
      forall p | 0 <= p < n
        ensures d[c][p] == planes[c][p]
      {
        JoinIndex(c, p, n);
      }
    }
  }

  // ---------------------------------------------------------------------
  // Normalisation of samples
  // ---------------------------------------------------------------------

  /** A 16-bit input sample divided by UINT16_MAX. */
  function Normalize16(x: int): (v: real)
    requires IsUInt16(x)
    ensures 0.0 <= v <= 1.0
    ensures v == 1.0 <==> x == UInt16Max
    ensures v * UInt16Max as real == x as real
  {
    x as real / UInt16Max as real
  }

  /** C's conversion of a floating value to an integer: truncation toward zero. */
  function Truncate(x: real): (r: int)
    ensures x >= 0.0 ==> r as real <= x < r as real + 1.0
    ensures x <= 0.0 ==> r as real - 1.0 < x <= r as real
  {
    if x >= 0.0 then x.Floor else -((-x).Floor)
  }

  /** The values the output conversion is defined on: a float whose scaled,
      truncated value fits an unsigned 16-bit integer (values at or above 1
      are clamped first, so only the lower end restricts). */
  predicate InDomain(v: real)
  {
    UInt16Max as real * v > -1.0
  }

  /** One normalised output value converted back to a 16-bit sample:
      values >= 1 clamp to UINT16_MAX, the others are scaled by UINT16_MAX
      and truncated. */
  function Quantize(v: real): (r: int)
    requires InDomain(v)
    ensures IsUInt16(r)
    ensures v >= 1.0 ==> r == UInt16Max
    ensures 0.0 <= v < 1.0 ==> r as real <= UInt16Max as real * v < r as real + 1.0 && r < UInt16Max
    ensures v <= 0.0 ==> r == 0
  {
    if v >= 1.0 then UInt16Max else Truncate(UInt16Max as real * v)
  }

  /** Normalising a 16-bit sample and quantising it back is the identity. */
  lemma QuantizeNormalize(x: int)
    requires IsUInt16(x)
    ensures InDomain(Normalize16(x)) && Quantize(Normalize16(x)) == x
  {
    var v := Normalize16(x);
    if x < UInt16Max {
      assert UInt16Max as real * v == x as real;
      assert (x as real).Floor == x;
    }
  }

  // ---------------------------------------------------------------------
  // Whole images
  // ---------------------------------------------------------------------

  predicate AllUInt16(raw: seq<int>)
  {
    forall i :: 0 <= i < |raw| ==> IsUInt16(raw[i])
  }

  predicate AllInDomain(planes: seq<seq<real>>)
  {
    forall c, p :: 0 <= c < |planes| && 0 <= p < |planes[c]| ==> InDomain(planes[c][p])
  }

  /** The normalised input image: channel c, pixel p holds the interleaved
      16-bit sample 3 * p + c divided by UINT16_MAX. */
  function NormalizedInput(raw: seq<int>): (planes: seq<seq<real>>)
    requires |raw| % 3 == 0 && AllUInt16(raw)
    ensures IsPlanar(planes, |raw| / 3)
    ensures forall c, p :: 0 <= c < 3 && 0 <= p < |raw| / 3 ==> 0.0 <= planes[c][p] <= 1.0
  {
    seq(3, c requires 0 <= c < 3 =>
      seq(|raw| / 3, p requires 0 <= p < |raw| / 3 => Normalize16(raw[3 * p + c])))
  }

  /** The normalised input, read at interleaved index i as the loop writes it. */
  lemma NormalizedInputAt(raw: seq<int>, i: int)
    requires |raw| % 3 == 0 && AllUInt16(raw) && 0 <= i < |raw|
    ensures 0 <= i % 3 < 3 && 0 <= i / 3 < |raw| / 3
    ensures NormalizedInput(raw)[i % 3][i / 3] == raw[i] as real / UInt16Max as real
  {
    SplitIndex(i, |raw| / 3);
  }

  /** A normalised image is in the output conversion's domain. */
  lemma NormalizedInputInDomain(raw: seq<int>)
    requires |raw| % 3 == 0 && AllUInt16(raw)
    ensures AllInDomain(NormalizedInput(raw))
  {
  }

  /** The output image: every normalised value quantised and written back in
      interleaved order, sample i from channel i % 3, pixel i / 3. */
  function Quantized(planes: seq<seq<real>>, n: nat): (raw: seq<int>)
    requires IsPlanar(planes, n) && AllInDomain(planes)
    ensures |raw| == 3 * n && AllUInt16(raw)
  {
    seq(3 * n, i requires 0 <= i < 3 * n => SplitIndex(i, n); Quantize(planes[i % 3][i / 3]))
  }

  /** Every sample of an interleaved buffer divided by UINT16_MAX, still
      interleaved. */
  function NormalizeSamples(raw: seq<int>): (vs: seq<real>)
    requires AllUInt16(raw)
    ensures |vs| == |raw|
  {
    seq(|raw|, i requires 0 <= i < |raw| => Normalize16(raw[i]))
  }

  /** Every value of three planes quantised, still channel-separated. */
  function QuantizePlanes(planes: seq<seq<real>>, n: nat): (qs: seq<seq<int>>)
    requires IsPlanar(planes, n) && AllInDomain(planes)
    ensures IsPlanar(qs, n)
  {
    seq(3, c requires 0 <= c < 3 => seq(n, p requires 0 <= p < n => Quantize(planes[c][p])))
  }

  /** The input loop is the de-interleave of the normalised samples. */
  lemma NormalizedInputIsDeinterleaved(raw: seq<int>)
    requires |raw| % 3 == 0 && AllUInt16(raw)
    ensures NormalizedInput(raw) == Deinterleave(NormalizeSamples(raw))
  {
    var d := Deinterleave(NormalizeSamples(raw));
    forall c | 0 <= c < 3
      ensures NormalizedInput(raw)[c] == d[c]
    {
      forall p | 0 <= p < |raw| / 3
        ensures NormalizedInput(raw)[c][p] == d[c][p]
      {
        JoinIndex(c, p, |raw| / 3);
      }
    }
  }

  /** The output loop is the re-interleave of the quantised planes. */
  lemma QuantizedIsInterleaved(planes: seq<seq<real>>, n: nat)
    requires IsPlanar(planes, n) && AllInDomain(planes)
    ensures Quantized(planes, n) == Interleave(QuantizePlanes(planes, n), n)
  {
    var r := Interleave(QuantizePlanes(planes, n), n);
    forall i | 0 <= i < 3 * n
      ensures Quantized(planes, n)[i] == r[i]
    {
      SplitIndex(i, n);
    }
  }

  /** Normalising an input image and converting it straight back to 16-bit
      output returns every sample unchanged. */
  lemma RoundTrip(raw: seq<int>)
    requires |raw| % 3 == 0 && AllUInt16(raw)
    ensures AllInDomain(NormalizedInput(raw))
    ensures Quantized(NormalizedInput(raw), |raw| / 3) == raw
  {
    NormalizedInputInDomain(raw);
    var out := Quantized(NormalizedInput(raw), |raw| / 3);
    forall i | 0 <= i < |raw|
      ensures out[i] == raw[i]
    {
      NormalizedInputAt(raw, i);
      QuantizeNormalize(raw[i]);
    }
  }
}
