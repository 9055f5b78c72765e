/** Normalisation of the point-spread function: per-channel totals of the
    raw 8-bit samples, and every sample divided by its channel's total so
    that each channel sums to one. */
module Psf {
  import opened Channels

  /** Sum of a sequence of reals, taken from the front. */
  function Sum(s: seq<real>): real
  {
    if |s| == 0 then 0.0 else Sum(s[..|s| - 1]) + s[|s| - 1]
  }

  predicate AllUInt8(raw: seq<int>)
  {
    forall i :: 0 <= i < |raw| ==> IsUInt8(raw[i])
  }

  /** The running total of channel c after the accumulating loop has seen
      the first k interleaved samples. */
  function PartialTotal(raw: seq<int>, c: int, k: nat): real
    requires k <= |raw|
  {
    if k == 0 then 0.0
    else PartialTotal(raw, c, k - 1) + (if (k - 1) % 3 == c then raw[k - 1] as real else 0.0)
  }

  /** total[c] once the loop has seen the whole buffer. */
  function ChannelTotal(raw: seq<int>, c: int): real
  {
    PartialTotal(raw, c, |raw|)
  }

  /** Channel c of the raw PSF, as reals. */
  function RawPlane(raw: seq<int>, c: int): (plane: seq<real>)
    requires |raw| % 3 == 0 && 0 <= c < 3
    ensures |plane| == |raw| / 3
  {
    seq(|raw| / 3, p requires 0 <= p < |raw| / 3 => raw[3 * p + c] as real)
  }

  /** Every channel has a positive total, so the division is defined. */
  predicate PositiveTotals(raw: seq<int>)
  {
    forall c :: 0 <= c < 3 ==> ChannelTotal(raw, c) > 0.0
  }

  /** The normalised PSF: each sample divided by its channel's total. */
  function NormalizedPsf(raw: seq<int>): (planes: seq<seq<real>>)
    requires |raw| % 3 == 0 && PositiveTotals(raw)
    ensures IsPlanar(planes, |raw| / 3)
  {
    seq(3, c requires 0 <= c < 3 =>
      seq(|raw| / 3, p requires 0 <= p < |raw| / 3 => raw[3 * p + c] as real / ChannelTotal(raw, c)))
  }

  /** Each sample divided by t. */
  function Divided(s: seq<real>, t: real): (r: seq<real>)
    requires t != 0.0
    ensures |r| == |s|
  {
    seq(|s|, j requires 0 <= j < |s| => s[j] / t)
  }

  // ---------------------------------------------------------------------
  // Lemmas
  // ---------------------------------------------------------------------

  /** The total accumulated over the first m pixels of channel c is the sum
      of that channel's first m samples. */
  lemma {:induction false} PartialTotalIsPlaneSum(raw: seq<int>, c: int, m: nat)
    requires |raw| % 3 == 0 && 0 <= c < 3 && m <= |raw| / 3
    ensures PartialTotal(raw, c, 3 * m) == Sum(RawPlane(raw, c)[..m])
  {
    if m > 0 {
      var plane := RawPlane(raw, c);
      PartialTotalIsPlaneSum(raw, c, m - 1);
      var b := 3 * (m - 1);
      JoinIndex(0, m - 1, |raw| / 3);
      JoinIndex(1, m - 1, |raw| / 3);
      JoinIndex(2, m - 1, |raw| / 3);
      assert plane[..m][..m - 1] == plane[..m - 1];
      assert plane[m - 1] == raw[b + c] as real;
      calc {
        PartialTotal(raw, c, 3 * m);
        PartialTotal(raw, c, b + 2) + (if (b + 2) % 3 == c then raw[b + 2] as real else 0.0);
        PartialTotal(raw, c, b + 1) + (if (b + 1) % 3 == c then raw[b + 1] as real else 0.0)
          + (if (b + 2) % 3 == c then raw[b + 2] as real else 0.0);
        PartialTotal(raw, c, b) + (if b % 3 == c then raw[b] as real else 0.0)
          + (if (b + 1) % 3 == c then raw[b + 1] as real else 0.0)
          + (if (b + 2) % 3 == c then raw[b + 2] as real else 0.0);
        Sum(plane[..m - 1]) + raw[b + c] as real;
        Sum(plane[..m]);
      }
    }
  }

  /** total[c] is the sum of the raw samples of channel c. */
  lemma ChannelTotalIsSum(raw: seq<int>, c: int)
    requires |raw| % 3 == 0 && 0 <= c < 3
    ensures ChannelTotal(raw, c) == Sum(RawPlane(raw, c))
  {
    var plane := RawPlane(raw, c);
    PartialTotalIsPlaneSum(raw, c, |raw| / 3);
    assert plane[..|raw| / 3] == plane;
  }

  /** Dividing every term by t divides the sum by t. */
  lemma {:induction false} SumDivided(s: seq<real>, t: real)
    requires t != 0.0
    ensures Sum(Divided(s, t)) == Sum(s) / t
  {
    if |s| > 0 {
      var n := |s| - 1;
      assert Divided(s, t)[..n] == Divided(s[..n], t);
      SumDivided(s[..n], t);
    }
  }

  /** A sum of non-negative terms is non-negative. */
  lemma {:induction false} SumNonNegative(s: seq<real>)
    requires forall j :: 0 <= j < |s| ==> s[j] >= 0.0
    ensures Sum(s) >= 0.0
  {
    if |s| > 0 {
      SumNonNegative(s[..|s| - 1]);
    }
  }

  /** Each of a set of non-negative terms is at most their sum. */
  lemma {:induction false} TermAtMostSum(s: seq<real>, j: int)
    requires forall k :: 0 <= k < |s| ==> s[k] >= 0.0
    requires 0 <= j < |s|
    ensures s[j] <= Sum(s)
  {
    var n := |s| - 1;
    if j < n {
      TermAtMostSum(s[..n], j);
    } else {
      SumNonNegative(s[..n]);
    }
  }

  /** A part of a positive whole, divided by the whole, is in [0, 1]. */
  lemma FractionInUnitRange(x: real, t: real)
    requires 0.0 <= x <= t && t > 0.0
    ensures 0.0 <= x / t <= 1.0
  {
    assert x / t * t == x;
  }

  /** After normalisation each PSF channel sums to exactly one. */
  lemma PsfSumsToOne(raw: seq<int>, c: int)
    requires |raw| % 3 == 0 && PositiveTotals(raw) && 0 <= c < 3
    ensures Sum(NormalizedPsf(raw)[c]) == 1.0
  {
    var t := ChannelTotal(raw, c);
    assert NormalizedPsf(raw)[c] == Divided(RawPlane(raw, c), t);
    SumDivided(RawPlane(raw, c), t);
    ChannelTotalIsSum(raw, c);
    assert t > 0.0 && t / t == 1.0;
  }

  /** After normalisation every PSF sample lies in [0, 1]. */
  lemma PsfSamplesInUnitRange(raw: seq<int>, c: int, p: int)
    requires |raw| % 3 == 0 && AllUInt8(raw) && PositiveTotals(raw)
    requires 0 <= c < 3 && 0 <= p < |raw| / 3
    ensures 0.0 <= NormalizedPsf(raw)[c][p] <= 1.0
  {
    var plane := RawPlane(raw, c);
    var t := ChannelTotal(raw, c);
    JoinIndex(c, p, |raw| / 3);
    assert forall k :: 0 <= k < |plane| ==> plane[k] >= 0.0 by {
      forall k | 0 <= k < |plane| ensures plane[k] >= 0.0 {
        JoinIndex(c, k, |raw| / 3);
      }
    }
    TermAtMostSum(plane, p);
    ChannelTotalIsSum(raw, c);
    FractionInUnitRange(plane[p], t);
    assert NormalizedPsf(raw)[c][p] == plane[p] / t;
  }
}
