/** The per-channel device buffers of a run: the two working buffers A and
    B, the original image and the PSF, with the transfers into and out of
    them and one pass of the iteration. */
module Device {
  import opened Channels
  import opened Iteration

  class DeviceBufferSet {
    /** k_image_a, k_image_b: one plane per channel. */
    var imageA: seq<Plane>
    var imageB: seq<Plane>
    /** k_original_image and k_psf_image: written once at upload. */
    var original: seq<Plane>
    var psf: seq<Plane>
    /** The image and PSF dimensions handed to every kernel call. */
    const dims: Dims
    const psfDims: Dims

    ghost predicate Valid()
      reads this
    {
      |imageA| == 3 && |imageB| == 3 && |original| == 3 && |psf| == 3
    }

    /** Contents of the two working buffers. */
    function Work(): WorkState
      reads this
    {
      WorkState(imageA, imageB)
    }

    /** The read-only arguments of every kernel call. */
    function Bound(): Inputs
      reads this
    {
      Inputs(dims, psfDims, original, psf)
    }

    /** copy_images_to_opencl: channel by channel, the normalised input is
        written into buffer A and into the original-image buffer, and the
        normalised PSF into the PSF buffer.  Buffer B is allocated but never
        written, so its contents are whatever `unwritten` says. */
    constructor Upload(input: seq<Plane>, psfPlanes: seq<Plane>, dims: Dims, psfDims: Dims, unwritten: seq<Plane>)
      requires |input| == 3 && |psfPlanes| == 3 && |unwritten| == 3
      ensures Valid()
      ensures imageA == input && original == input
      ensures psf == psfPlanes && imageB == unwritten
      ensures this.dims == dims && this.psfDims == psfDims
    {
      var a: seq<Plane>, o: seq<Plane>, q: seq<Plane> := [], [], [];
      for c := 0 to 3
        invariant a == input[..c] && o == input[..c] && q == psfPlanes[..c]
      {
        a := a + [input[c]];
        o := o + [input[c]];
        q := q + [psfPlanes[c]];
      }
      imageA, imageB, original, psf := a, unwritten, o, q;
      this.dims, this.psfDims := dims, psfDims;
    }

    /** do_iteration: select the source and target buffers by the parity of
        the pass, then run the kernel once per channel, writing the target. */
    method DoIteration(pass: int, k: Kernel)
      requires Valid()
      modifies this
      ensures Valid()
      ensures Work() == Pass(old(Work()), pass, k, old(Bound()))
      ensures original == old(original) && psf == old(psf)
    {
      var roles := SelectRoles(pass);
      var source := if roles.source == ImageA then imageA else imageB;
      var target := if roles.target == ImageA then imageA else imageB;
      var written: seq<Plane> := [];
      for c := 0 to 3
        invariant |written| == c
        invariant forall j :: 0 <= j < c ==> written[j] == k(dims, psfDims, source[j], target[j], original[j], psf[j])
      {
        written := written + [k(dims, psfDims, source[c], target[c], original[c], psf[c])];
      }
      assert source == Work().Get(roles.source) && target == Work().Get(roles.target);
      forall c | 0 <= c < 3
        ensures written[c] == PassOutput(Work(), pass, k, Bound())[c]
      {
      }
      if roles.target == ImageA {
        imageA := written;
      } else {
        imageB := written;
      }
    }

    /** The readback of `output`: always buffer A, channel by channel. */
    method ReadBack() returns (planes: seq<Plane>)
      requires Valid()
      ensures planes == Work().Get(ImageA)
    {
      planes := [];
      for c := 0 to 3
        invariant planes == imageA[..c]
      {
        planes := planes + [imageA[c]];
      }
    }
  }
}
