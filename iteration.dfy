/** The iteration protocol: how many passes run, which of the two working
    buffers each pass reads and writes, and what the buffers hold after a
    number of passes.  The per-pass device kernel is a parameter. */
module Iteration {
  import opened Channels

  // ---------------------------------------------------------------------
  // Pass count
  // ---------------------------------------------------------------------

  /** C's `a % 2` on int: the remainder takes the sign of the dividend. */
  function CRemainder2(a: int): (r: int)
    ensures -2 < r < 2 && (a - r) % 2 == 0
    ensures a >= 0 ==> r >= 0
    ensures a <= 0 ==> r <= 0
  {
    if a >= 0 then a % 2 else -((-a) % 2)
  }

  /** n_iterations: the requested count plus its remainder modulo 2. */
  function PassCount(requested: int): (n: int)
    ensures n % 2 == 0
    ensures requested >= 0 ==> requested <= n <= requested + 1
    ensures requested <= 0 ==> n <= 0
  {
    requested + CRemainder2(requested)
  }

  // ---------------------------------------------------------------------
  // Buffer roles
  // ---------------------------------------------------------------------

  /** The two per-channel working buffers k_image_a and k_image_b. */
  datatype WorkBuffer = ImageA | ImageB

  /** The buffer a pass reads (source) and the one it writes (target). */
  datatype Roles = Roles(source: WorkBuffer, target: WorkBuffer)

  /** do_iteration's role selection: even passes read A and write B, odd
      passes read B and write A. */
  function SelectRoles(pass: int): (r: Roles)
    ensures r.source != r.target
  {
    if pass % 2 == 0 then Roles(ImageA, ImageB) else Roles(ImageB, ImageA)
  }

  /** An explicit two-state machine for the same protocol: which buffer is
      the source, toggled once per pass, starting with A. */
  datatype Phase = ASource | BSource
  {
    function Toggle(): Phase
    {
      match this
      case ASource => BSource
      case BSource => ASource
    }

    function RolesOf(): Roles
    {
      match this
      case ASource => Roles(ImageA, ImageB)
      case BSource => Roles(ImageB, ImageA)
    }
  }

  /** The phase after k passes. */
  function PhaseAfter(k: nat): Phase
  {
    if k == 0 then ASource else PhaseAfter(k - 1).Toggle()
  }

  /** Parity-based selection agrees with toggling the roles once per pass. */
  lemma {:induction false} SelectRolesIsToggling(k: nat)
    ensures SelectRoles(k) == PhaseAfter(k).RolesOf()
  {
    if k > 0 {
      SelectRolesIsToggling(k - 1);
    }
  }

  /** The buffer one pass writes is the one the next pass reads, and the
      reverse. */
  lemma ConsecutivePassesSwapRoles(k: nat)
    ensures SelectRoles(k + 1).source == SelectRoles(k).target
    ensures SelectRoles(k + 1).target == SelectRoles(k).source
  {
  }

  /** The last of an even, positive number of passes writes buffer A, the
      buffer the final readback reads. */
  lemma LastPassWritesImageA(n: int)
    requires n > 0 && n % 2 == 0
    ensures SelectRoles(n - 1).target == ImageA
  {
  }

  /** With the rounded-up pass count, a run that performs any pass at all
      ends by writing buffer A. */
  lemma RoundedCountEndsInImageA(requested: int)
    requires PassCount(requested) > 0
    ensures SelectRoles(PassCount(requested) - 1).target == ImageA
  {
    LastPassWritesImageA(PassCount(requested));
  }

  /** Had the count been odd, the last pass would have written B, and the
      readback of A would miss it. */
  lemma OddCountEndsInImageB(n: int)
    requires n > 0 && n % 2 == 1
    ensures SelectRoles(n - 1).target == ImageB
  {
  }

  // ---------------------------------------------------------------------
  // Buffer contents across passes
  // ---------------------------------------------------------------------

  type Plane = seq<real>

  /** Width and height of an image. */
  datatype Dims = Dims(width: int, height: int)

  /** The per-channel device kernel: given the image and PSF dimensions,
      the source plane, the target plane's current contents, the original
      image plane and the PSF plane, the new contents of the target plane. */
  type Kernel = (Dims, Dims, Plane, Plane, Plane, Plane) -> Plane

  /** The read-only arguments every kernel call receives. */
  datatype Inputs = Inputs(dims: Dims, psfDims: Dims, original: seq<Plane>, psf: seq<Plane>)

  /** The contents of both working buffers, one plane per channel. */
  datatype WorkState = WorkState(a: seq<Plane>, b: seq<Plane>)
  {
    function Get(w: WorkBuffer): seq<Plane>
    {
      match w
      case ImageA => a
      case ImageB => b
    }

    function Set(w: WorkBuffer, planes: seq<Plane>): WorkState
    {
      match w
      case ImageA => WorkState(planes, b)
      case ImageB => WorkState(a, planes)
    }
  }

  predicate WellFormed(st: WorkState, inp: Inputs)
  {
    |st.a| == 3 && |st.b| == 3 && |inp.original| == 3 && |inp.psf| == 3
  }

  /** What the kernel writes into the target buffer on pass `pass`: one
      kernel call per channel, each reading only that channel's planes. */
  function PassOutput(st: WorkState, pass: int, k: Kernel, inp: Inputs): seq<Plane>
    requires WellFormed(st, inp)
  {
    var roles := SelectRoles(pass);
    seq(3, c requires 0 <= c < 3 =>
      k(inp.dims, inp.psfDims, st.Get(roles.source)[c], st.Get(roles.target)[c], inp.original[c], inp.psf[c]))
  }

  /** One pass: the target buffer receives the kernel's output, the source
      buffer is left as it was. */
  function Pass(st: WorkState, pass: int, k: Kernel, inp: Inputs): (r: WorkState)
    requires WellFormed(st, inp)
    ensures WellFormed(r, inp)
    ensures r.Get(SelectRoles(pass).source) == st.Get(SelectRoles(pass).source)
  {
    st.Set(SelectRoles(pass).target, PassOutput(st, pass, k, inp))
  }

  /** The working buffers after passes 0 .. n - 1 (none when n <= 0). */
  function Passes(st: WorkState, n: int, k: Kernel, inp: Inputs): (r: WorkState)
    requires WellFormed(st, inp)
    ensures WellFormed(r, inp)
    decreases n
  {
    if n <= 0 then st else Pass(Passes(st, n - 1, k, inp), n - 1, k, inp)
  }

  /** After an even, positive number of passes, buffer A holds exactly what
      the last pass computed, and B still holds the last pass's source. */
  lemma ImageAHoldsLastPass(st: WorkState, n: int, k: Kernel, inp: Inputs)
    requires WellFormed(st, inp) && n > 0 && n % 2 == 0
    ensures Passes(st, n, k, inp).a == PassOutput(Passes(st, n - 1, k, inp), n - 1, k, inp)
    ensures Passes(st, n, k, inp).b == Passes(st, n - 1, k, inp).b
  {
    LastPassWritesImageA(n);
  }

  // ---------------------------------------------------------------------
  // Two kernels of interest
  // ---------------------------------------------------------------------

  /** The kernel do_iteration currently runs: none, so the target buffer
      keeps its contents. */
  function NoKernel(dims: Dims, psfDims: Dims, source: Plane, target: Plane, original: Plane, psf: Plane): Plane
  {
    target
  }

  /** The identity kernel: copies its source into its target. */
  function CopyKernel(dims: Dims, psfDims: Dims, source: Plane, target: Plane, original: Plane, psf: Plane): Plane
  {
    source
  }

  /** A pass that runs no kernel writes its target's own contents back. */
  lemma NoKernelPassChangesNothing(st: WorkState, pass: int, inp: Inputs)
    requires WellFormed(st, inp)
    ensures Pass(st, pass, NoKernel, inp) == st
  {
    var roles := SelectRoles(pass);
    var out := PassOutput(st, pass, NoKernel, inp);
    forall c | 0 <= c < 3 ensures out[c] == st.Get(roles.target)[c] {
      assert out[c] == NoKernel(inp.dims, inp.psfDims, st.Get(roles.source)[c], st.Get(roles.target)[c], inp.original[c], inp.psf[c]);
    }
    assert out == st.Get(roles.target);
    match roles.target
    case ImageA =>
    case ImageB =>
  }

  /** Passes that run no kernel leave both buffers as they were. */
  lemma {:induction false} NoKernelChangesNothing(st: WorkState, n: int, inp: Inputs)
    requires WellFormed(st, inp)
    ensures Passes(st, n, NoKernel, inp) == st
    decreases n
  {
    if n > 0 {
      NoKernelChangesNothing(st, n - 1, inp);
      NoKernelPassChangesNothing(st, n - 1, inp);
    }
  }

  /** With the identity kernel buffer A keeps its uploaded contents through
      any number of passes, and once a pass has run B holds them too. */
  lemma {:induction false} CopyKernelKeepsImageA(st: WorkState, n: int, inp: Inputs)
    requires WellFormed(st, inp)
    ensures Passes(st, n, CopyKernel, inp).a == st.a
    ensures n > 0 ==> Passes(st, n, CopyKernel, inp).b == st.a
    decreases n
  {
    if n > 0 {
      CopyKernelKeepsImageA(st, n - 1, inp);
      var prev := Passes(st, n - 1, CopyKernel, inp);
      var roles := SelectRoles(n - 1);
      var out := PassOutput(prev, n - 1, CopyKernel, inp);
      forall c | 0 <= c < 3 ensures out[c] == prev.Get(roles.source)[c] {
        assert out[c] == CopyKernel(inp.dims, inp.psfDims, prev.Get(roles.source)[c], prev.Get(roles.target)[c], inp.original[c], inp.psf[c]);
      }
      assert out == prev.Get(roles.source);
      if n == 1 {
        assert roles == Roles(ImageA, ImageB);
      }
    }
  }

  // ---------------------------------------------------------------------
  // Shapes and domains kept by the passes
  // ---------------------------------------------------------------------

  /** The kernel returns a plane as long as the target plane it replaces. */
  ghost predicate KeepsShape(k: Kernel)
  {
    forall dims, psfDims, s, t, o, q :: |k(dims, psfDims, s, t, o, q)| == |t|
  }

  /** The kernel's output is always in the output conversion's domain. */
  ghost predicate StaysInDomain(k: Kernel)
  {
    forall dims, psfDims, s, t, o, q, j :: 0 <= j < |k(dims, psfDims, s, t, o, q)| ==> InDomain(k(dims, psfDims, s, t, o, q)[j])
  }

  /** Passes of a shape-keeping kernel keep both buffers at n samples per
      channel, and one whose output stays in the domain keeps buffer A in
      the domain. */
  lemma {:induction false} PassesKeepShape(st: WorkState, n: int, k: Kernel, inp: Inputs, size: nat)
    requires WellFormed(st, inp) && KeepsShape(k) && StaysInDomain(k)
    requires IsPlanar(st.a, size) && IsPlanar(st.b, size) && AllInDomain(st.a)
    ensures IsPlanar(Passes(st, n, k, inp).a, size) && IsPlanar(Passes(st, n, k, inp).b, size)
    ensures AllInDomain(Passes(st, n, k, inp).a)
    decreases n
  {
    if n > 0 {
      var prev := Passes(st, n - 1, k, inp);
      PassesKeepShape(st, n - 1, k, inp, size);
      var roles := SelectRoles(n - 1);
      var out := PassOutput(prev, n - 1, k, inp);
      forall c | 0 <= c < 3
        ensures |out[c]| == size && forall p :: 0 <= p < |out[c]| ==> InDomain(out[c][p])
      {
        var t := prev.Get(roles.target)[c];
        assert out[c] == k(inp.dims, inp.psfDims, prev.Get(roles.source)[c], t, inp.original[c], inp.psf[c]);
      }
    }
  }
}
