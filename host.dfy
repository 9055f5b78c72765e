/** The host-side loops of init_images and output: de-interleaving and
    normalising the input and the PSF into channel-separated arrays, and
    quantising the result back into an interleaved 16-bit buffer. */
module Host {
  import opened Channels
  import opened Psf

  /** The channels of a [channel, pixel] array as sequences. */
  function Planes(img: array2<real>): seq<seq<real>>
    reads img
  {
    seq(img.Length0, c requires 0 <= c < img.Length0 reads img =>
      seq(img.Length1, p requires 0 <= p < img.Length1 reads img => img[c, p]))
  }

  /** Lines 31-34 of init_images: sample i goes to channel i % 3, pixel
      i / 3, divided by UINT16_MAX. */
  method NormalizeInputInto(raw: seq<int>, img: array2<real>)
    requires |raw| % 3 == 0 && AllUInt16(raw)
    requires img.Length0 == 3 && img.Length1 == |raw| / 3
    modifies img
    ensures Planes(img) == NormalizedInput(raw)
  {
    var n := img.Length1;
    for i := 0 to |raw|
      invariant forall c, p :: 0 <= c < 3 && 0 <= p < n && 3 * p + c < i ==>
        img[c, p] == Normalize16(raw[3 * p + c])
    {
      SplitIndex(i, n);
      img[i % 3, i / 3] := raw[i] as real / UInt16Max as real;
    }
    forall c | 0 <= c < 3
      ensures Planes(img)[c] == NormalizedInput(raw)[c]
    {
      forall p | 0 <= p < n
        ensures Planes(img)[c][p] == NormalizedInput(raw)[c][p]
      {
        JoinIndex(c, p, n);
      }
    }
  }

  /** Lines 36-43 of init_images: de-interleave the PSF while accumulating
      each channel's total, then divide every sample by its channel's
      total.  A zero total would divide by zero, which the code does not
      guard against. */
  method NormalizePsfInto(raw: seq<int>, img: array2<real>)
    requires |raw| % 3 == 0 && PositiveTotals(raw)
    requires img.Length0 == 3 && img.Length1 == |raw| / 3
    modifies img
    ensures Planes(img) == NormalizedPsf(raw)
  {
    var total := AccumulatePsf(raw, img);
    DividePsf(raw, img, total);
  }

  /** Lines 36-40: the raw PSF sample i goes to channel i % 3, pixel i / 3,
      and is added to total[i % 3]. */
  method AccumulatePsf(raw: seq<int>, img: array2<real>) returns (total: array<real>)
    requires |raw| % 3 == 0
    requires img.Length0 == 3 && img.Length1 == |raw| / 3
    modifies img
    ensures fresh(total) && total.Length == 3
    ensures forall c, p :: 0 <= c < 3 && 0 <= p < img.Length1 ==> img[c, p] == raw[3 * p + c] as real
    ensures forall c :: 0 <= c < 3 ==> total[c] == ChannelTotal(raw, c)
  {
    var n := img.Length1;
    total := new real[3](_ => 0.0);
    for i := 0 to |raw|
      invariant forall c, p :: 0 <= c < 3 && 0 <= p < n && 3 * p + c < i ==>
        img[c, p] == raw[3 * p + c] as real
      invariant forall c :: 0 <= c < 3 ==> total[c] == PartialTotal(raw, c, i)
    {
      SplitIndex(i, n);
      img[i % 3, i / 3] := raw[i] as real;
      total[i % 3] := total[i % 3] + raw[i] as real;
    }
    forall c, p | 0 <= c < 3 && 0 <= p < n
      ensures img[c, p] == raw[3 * p + c] as real
    {
      JoinIndex(c, p, n);
    }
  }

  /** Lines 41-43: sample i of the de-interleaved PSF is divided by
      total[i % 3]. */
  method DividePsf(raw: seq<int>, img: array2<real>, total: array<real>)
    requires |raw| % 3 == 0 && PositiveTotals(raw)
    requires img.Length0 == 3 && img.Length1 == |raw| / 3
    requires forall c, p :: 0 <= c < 3 && 0 <= p < img.Length1 ==> img[c, p] == raw[3 * p + c] as real
    requires total.Length == 3 && forall c :: 0 <= c < 3 ==> total[c] == ChannelTotal(raw, c)
    modifies img
    ensures Planes(img) == NormalizedPsf(raw)
  {
    var n := img.Length1;
    for i := 0 to |raw|
      invariant forall c, p :: 0 <= c < 3 && 0 <= p < n ==>
        img[c, p] == if 3 * p + c < i then raw[3 * p + c] as real / ChannelTotal(raw, c) else raw[3 * p + c] as real
    {
      SplitIndex(i, n);
      img[i % 3, i / 3] := img[i % 3, i / 3] / total[i % 3];
    }
    forall c | 0 <= c < 3
      ensures Planes(img)[c] == NormalizedPsf(raw)[c]
    {
      forall p | 0 <= p < n
        ensures Planes(img)[c][p] == NormalizedPsf(raw)[c][p]
      {
        JoinIndex(c, p, n);
      }
    }
  }

  /** The blocking read of `output` into normalized_output_image: each
      channel's plane copied into the host array. */
  method CopyPlanesInto(planes: seq<seq<real>>, img: array2<real>)
    requires img.Length0 == 3 && IsPlanar(planes, img.Length1)
    modifies img
    ensures Planes(img) == planes
  {
    var n := img.Length1;
    for c := 0 to 3
      invariant forall c', p :: 0 <= c' < c && 0 <= p < n ==> img[c', p] == planes[c'][p]
    {
      for p := 0 to n
        invariant forall c', p' :: 0 <= c' < c && 0 <= p' < n ==> img[c', p'] == planes[c'][p']
        invariant forall p' :: 0 <= p' < p ==> img[c, p'] == planes[c][p']
      {
        img[c, p] := planes[c][p];
      }
    }
    forall c | 0 <= c < 3
      ensures Planes(img)[c] == planes[c]
    {
    }
  }

  /** Lines 61-68 of output: sample i of the interleaved result comes from
      channel i % 3, pixel i / 3; values >= 1 become UINT16_MAX, the others
      are scaled by UINT16_MAX and truncated. */
  method QuantizeInto(img: array2<real>, out: array<int>)
    requires img.Length0 == 3 && out.Length == 3 * img.Length1
    requires forall c, p :: 0 <= c < 3 && 0 <= p < img.Length1 ==> InDomain(img[c, p])
    modifies out
    ensures AllInDomain(Planes(img))
    ensures out[..] == Quantized(Planes(img), img.Length1)
  {
    var n := img.Length1;
    ghost var planes := Planes(img);
    assert IsPlanar(planes, n) && AllInDomain(planes);
    for i := 0 to out.Length
      invariant forall j :: 0 <= j < i ==> out[j] == Quantized(planes, n)[j]
    {
      SplitIndex(i, n);
      var v := img[i % 3, i / 3];
      if v >= 1.0 {
        out[i] := UInt16Max;
      } else {
        out[i] := Truncate(UInt16Max as real * v);
      }
    }
  }
}
