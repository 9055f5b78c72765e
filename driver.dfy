/** A whole run as `main` sequences it: normalise the input and the PSF,
    upload them, run the rounded-up number of passes, read buffer A back and
    convert it to a 16-bit interleaved image.  File decoding and encoding
    are outside: the decoded samples and dimensions are parameters and the
    16-bit result is returned. */
module Driver {
  import opened Channels
  import opened Psf
  import opened Iteration
  import opened Device
  import opened Host

  /** What the decoders must deliver: an interleaved 16-bit image of
      width * height pixels and an interleaved 8-bit PSF whose channels
      each have a positive total; and device buffer B, allocated at
      width * height samples per channel. */
  ghost predicate ValidInputs(input: seq<int>, width: nat, height: nat,
                              psfRaw: seq<int>, psfWidth: nat, psfHeight: nat, unwritten: seq<Plane>)
  {
    && |input| == 3 * (width * height) && AllUInt16(input)
    && |psfRaw| == 3 * (psfWidth * psfHeight) && AllUInt8(psfRaw) && PositiveTotals(psfRaw)
    && IsPlanar(unwritten, width * height)
  }

  /** The working buffers right after the upload. */
  function Uploaded(input: seq<int>, unwritten: seq<Plane>): WorkState
    requires |input| % 3 == 0 && AllUInt16(input)
  {
    WorkState(NormalizedInput(input), unwritten)
  }

  /** The read-only kernel arguments of the run. */
  function RunInputs(input: seq<int>, width: nat, height: nat,
                     psfRaw: seq<int>, psfWidth: nat, psfHeight: nat): Inputs
    requires |input| % 3 == 0 && AllUInt16(input)
    requires |psfRaw| % 3 == 0 && PositiveTotals(psfRaw)
  {
    Inputs(Dims(width, height), Dims(psfWidth, psfHeight), NormalizedInput(input), NormalizedPsf(psfRaw))
  }

  /** The buffer the readback sees after the run's passes. */
  function FinalImageA(input: seq<int>, width: nat, height: nat, psfRaw: seq<int>, psfWidth: nat, psfHeight: nat,
                       requested: int, k: Kernel, unwritten: seq<Plane>): seq<Plane>
    requires ValidInputs(input, width, height, psfRaw, psfWidth, psfHeight, unwritten)
  {
    Passes(Uploaded(input, unwritten), PassCount(requested), k,
           RunInputs(input, width, height, psfRaw, psfWidth, psfHeight)).a
  }

  /** The kernel leaves buffer A shaped like the image and in the domain of
      the output conversion (C leaves the conversion undefined otherwise). */
  ghost predicate Admissible(input: seq<int>, width: nat, height: nat, psfRaw: seq<int>, psfWidth: nat, psfHeight: nat,
                             requested: int, k: Kernel, unwritten: seq<Plane>)
    requires ValidInputs(input, width, height, psfRaw, psfWidth, psfHeight, unwritten)
  {
    var a := FinalImageA(input, width, height, psfRaw, psfWidth, psfHeight, requested, k, unwritten);
    IsPlanar(a, width * height) && AllInDomain(a)
  }

  /** The 16-bit image a run produces. */
  function Result(input: seq<int>, width: nat, height: nat, psfRaw: seq<int>, psfWidth: nat, psfHeight: nat,
                  requested: int, k: Kernel, unwritten: seq<Plane>): (out: seq<int>)
    requires ValidInputs(input, width, height, psfRaw, psfWidth, psfHeight, unwritten)
    requires Admissible(input, width, height, psfRaw, psfWidth, psfHeight, requested, k, unwritten)
    ensures |out| == |input| && AllUInt16(out)
  {
    Quantized(FinalImageA(input, width, height, psfRaw, psfWidth, psfHeight, requested, k, unwritten), width * height)
  }

  /** init_images without the decoding: allocates the channel-separated
      host images and fills them with the normalised input and PSF. */
  method InitImages(input: seq<int>, width: nat, height: nat, psfRaw: seq<int>, psfWidth: nat, psfHeight: nat)
    returns (normalizedInput: array2<real>, normalizedPsf: array2<real>)
    requires |input| == 3 * (width * height) && AllUInt16(input)
    requires |psfRaw| == 3 * (psfWidth * psfHeight) && PositiveTotals(psfRaw)
    ensures fresh(normalizedInput) && fresh(normalizedPsf)
    ensures Planes(normalizedInput) == NormalizedInput(input)
    ensures Planes(normalizedPsf) == NormalizedPsf(psfRaw)
  {
    normalizedInput := new real[3, width * height];
    normalizedPsf := new real[3, psfWidth * psfHeight];
    NormalizeInputInto(input, normalizedInput);
    NormalizePsfInto(psfRaw, normalizedPsf);
  }

  /** The pass loop of main: do_iteration for passes 0 .. passes - 1. */
  method RunPasses(device: DeviceBufferSet, passes: int, k: Kernel)
    requires device.Valid()
    modifies device
    ensures device.Valid() && device.Bound() == old(device.Bound())
    ensures device.Work() == Passes(old(device.Work()), passes, k, old(device.Bound()))
  {
    ghost var st := device.Work();
    ghost var inp := device.Bound();
    var i := 0;
    while i < passes
      invariant 0 <= i && (i <= passes || i == 0)
      invariant device.Valid() && device.Bound() == inp
      invariant device.Work() == Passes(st, i, k, inp)
    {
      device.DoIteration(i, k);
      i := i + 1;
    }
    if passes <= 0 {
      assert i == 0 && Passes(st, passes, k, inp) == st;
    }
  }

  /** output without the encoding: the blocking readback of buffer A into
      the host array, then the conversion to interleaved 16-bit samples. */
  method Output(device: DeviceBufferSet, n: nat) returns (output: array<int>)
    requires device.Valid() && IsPlanar(device.imageA, n) && AllInDomain(device.imageA)
    ensures fresh(output)
    ensures output[..] == Quantized(device.imageA, n)
  {
    output := new int[3 * n];
    var normalizedOutput := new real[3, n];
    var planes := device.ReadBack();
    CopyPlanesInto(planes, normalizedOutput);
    forall c, p | 0 <= c < 3 && 0 <= p < n
      ensures InDomain(normalizedOutput[c, p])
    {
      assert Planes(normalizedOutput)[c][p] == normalizedOutput[c, p];
    }
    QuantizeInto(normalizedOutput, output);
  }

  /** main after the argument check: init_images, copy_images_to_opencl,
      the rounded-up number of passes, output. */
  method Deconvolute(input: seq<int>, width: nat, height: nat, psfRaw: seq<int>, psfWidth: nat, psfHeight: nat,
                     requested: int, k: Kernel, unwritten: seq<Plane>) returns (output: array<int>)
    requires ValidInputs(input, width, height, psfRaw, psfWidth, psfHeight, unwritten)
    requires Admissible(input, width, height, psfRaw, psfWidth, psfHeight, requested, k, unwritten)
    ensures fresh(output)
    ensures output[..] == Result(input, width, height, psfRaw, psfWidth, psfHeight, requested, k, unwritten)
  {
    var normalizedInput, normalizedPsf := InitImages(input, width, height, psfRaw, psfWidth, psfHeight);
    var device := new DeviceBufferSet.Upload(Planes(normalizedInput), Planes(normalizedPsf),
                                             Dims(width, height), Dims(psfWidth, psfHeight), unwritten);
    assert device.Work() == Uploaded(input, unwritten);
    assert device.Bound() == RunInputs(input, width, height, psfRaw, psfWidth, psfHeight);
    var passes := PassCount(requested);
    RunPasses(device, passes, k);
    output := Output(device, width * height);
  }

  // ---------------------------------------------------------------------
  // What a run computes
  // ---------------------------------------------------------------------

  /** Whenever a pass runs, the image written out is the output of the last
      pass, converted: the rounded-up count makes that pass write A. */
  lemma ResultIsLastPass(input: seq<int>, width: nat, height: nat, psfRaw: seq<int>, psfWidth: nat, psfHeight: nat,
                         requested: int, k: Kernel, unwritten: seq<Plane>)
    requires ValidInputs(input, width, height, psfRaw, psfWidth, psfHeight, unwritten)
    requires Admissible(input, width, height, psfRaw, psfWidth, psfHeight, requested, k, unwritten)
    requires PassCount(requested) > 0
    ensures FinalImageA(input, width, height, psfRaw, psfWidth, psfHeight, requested, k, unwritten)
            == PassOutput(Passes(Uploaded(input, unwritten), PassCount(requested) - 1, k,
                                 RunInputs(input, width, height, psfRaw, psfWidth, psfHeight)),
                          PassCount(requested) - 1, k, RunInputs(input, width, height, psfRaw, psfWidth, psfHeight))
  {
    ImageAHoldsLastPass(Uploaded(input, unwritten), PassCount(requested), k,
                        RunInputs(input, width, height, psfRaw, psfWidth, psfHeight));
  }

  /** A kernel that keeps plane lengths and whose output is always in the
      conversion's domain makes every run admissible. */
  lemma WellBehavedKernelIsAdmissible(input: seq<int>, width: nat, height: nat, psfRaw: seq<int>, psfWidth: nat, psfHeight: nat,
                                      requested: int, k: Kernel, unwritten: seq<Plane>)
    requires ValidInputs(input, width, height, psfRaw, psfWidth, psfHeight, unwritten)
    requires KeepsShape(k) && StaysInDomain(k)
    ensures Admissible(input, width, height, psfRaw, psfWidth, psfHeight, requested, k, unwritten)
  {
    NormalizedInputInDomain(input);
    PassesKeepShape(Uploaded(input, unwritten), PassCount(requested), k,
                    RunInputs(input, width, height, psfRaw, psfWidth, psfHeight), width * height);
  }

  /** As written, do_iteration runs no kernel, so a run writes back exactly
      the input image, provided the readback of buffer A completes (its
      wait list names events nothing fills, which the model leaves out). */
  lemma NoKernelRunReturnsInput(input: seq<int>, width: nat, height: nat, psfRaw: seq<int>, psfWidth: nat, psfHeight: nat,
                                requested: int, unwritten: seq<Plane>)
    requires ValidInputs(input, width, height, psfRaw, psfWidth, psfHeight, unwritten)
    ensures Admissible(input, width, height, psfRaw, psfWidth, psfHeight, requested, NoKernel, unwritten)
    ensures Result(input, width, height, psfRaw, psfWidth, psfHeight, requested, NoKernel, unwritten) == input
  {
    NoKernelChangesNothing(Uploaded(input, unwritten), PassCount(requested),
                           RunInputs(input, width, height, psfRaw, psfWidth, psfHeight));
    RoundTrip(input);
  }

  /** With the identity kernel a run is lossless: normalise, copy between
      the buffers for every pass, read A back and convert returns the input. */
  lemma CopyKernelRunReturnsInput(input: seq<int>, width: nat, height: nat, psfRaw: seq<int>, psfWidth: nat, psfHeight: nat,
                                  requested: int, unwritten: seq<Plane>)
    requires ValidInputs(input, width, height, psfRaw, psfWidth, psfHeight, unwritten)
    ensures Admissible(input, width, height, psfRaw, psfWidth, psfHeight, requested, CopyKernel, unwritten)
    ensures Result(input, width, height, psfRaw, psfWidth, psfHeight, requested, CopyKernel, unwritten) == input
  {
    CopyKernelKeepsImageA(Uploaded(input, unwritten), PassCount(requested),
                          RunInputs(input, width, height, psfRaw, psfWidth, psfHeight));
    RoundTrip(input);
  }
}
