/** The OpenCL handles of a run: which ones the program creates, which
    ones `cleanup` releases, and in what order.  The code as written leaks
    the original-image buffers and releases (and writes to) two dimension
    buffers it never creates; the corrected ledger creates and releases
    every handle exactly once. */
module Resources {

  /** The per-channel memory objects. */
  datatype MemObject = ImageA | ImageB | OriginalImage | PsfImage | TempImage | Dimensions | PsfDimensions

  datatype Handle =
    | Mem(channel: int, obj: MemObject)
    | ConvolutionKernel(channel: int)
    | DeconvolutionKernel(channel: int)
    | Program
    | Queue
    | Context

  /** The concatenation of f(0), f(1), f(2): one loop over the channels. */
  function PerChannel(f: int -> seq<Handle>): seq<Handle>
  {
    f(0) + f(1) + f(2)
  }

  predicate NoDuplicates(s: seq<Handle>)
  {
    forall i, j :: 0 <= i < j < |s| ==> s[i] != s[j]
  }

  // ---------------------------------------------------------------------
  // As written
  // ---------------------------------------------------------------------

  /** main's device setup, then the buffers of copy_images_to_opencl. */
  function CreatedAsWritten(): seq<Handle>
  {
    [Context, Queue, Program]
    + PerChannel(c => [ConvolutionKernel(c), DeconvolutionKernel(c)])
    + PerChannel(c => [Mem(c, ImageA), Mem(c, ImageB), Mem(c, OriginalImage), Mem(c, PsfImage), Mem(c, TempImage)])
  }

  /** cleanup's releases. */
  function ReleasedAsWritten(): seq<Handle>
  {
    PerChannel(c => [ConvolutionKernel(c), DeconvolutionKernel(c),
                     Mem(c, ImageA), Mem(c, ImageB), Mem(c, PsfImage), Mem(c, TempImage),
                     Mem(c, Dimensions), Mem(c, PsfDimensions)])
    + [Program, Queue, Context]
  }

  /** The buffers copy_images_to_opencl writes, as written. */
  function WrittenAsWritten(): seq<Handle>
  {
    PerChannel(c => [Mem(c, ImageA), Mem(c, OriginalImage), Mem(c, PsfImage), Mem(c, Dimensions), Mem(c, PsfDimensions)])
  }

  /** As written, every channel's original-image buffer is created and never
      released. */
  lemma AsWrittenLeaksOriginalImage(c: int)
    requires 0 <= c < 3
    ensures Mem(c, OriginalImage) in CreatedAsWritten()
    ensures Mem(c, OriginalImage) !in ReleasedAsWritten()
  {
    var f := c => [Mem(c, ImageA), Mem(c, ImageB), Mem(c, OriginalImage), Mem(c, PsfImage), Mem(c, TempImage)];
    assert Mem(c, OriginalImage) in f(c);
  }

  /** As written, every channel's two dimension buffers are written to and
      released without ever being created. */
  lemma AsWrittenUsesUncreatedDimensions(c: int)
    requires 0 <= c < 3
    ensures Mem(c, Dimensions) !in CreatedAsWritten() && Mem(c, PsfDimensions) !in CreatedAsWritten()
    ensures Mem(c, Dimensions) in WrittenAsWritten() && Mem(c, PsfDimensions) in WrittenAsWritten()
    ensures Mem(c, Dimensions) in ReleasedAsWritten() && Mem(c, PsfDimensions) in ReleasedAsWritten()
  {
    var w := c => [Mem(c, ImageA), Mem(c, OriginalImage), Mem(c, PsfImage), Mem(c, Dimensions), Mem(c, PsfDimensions)];
    assert Mem(c, Dimensions) in w(c) && Mem(c, PsfDimensions) in w(c);
    var r := c => [ConvolutionKernel(c), DeconvolutionKernel(c),
                   Mem(c, ImageA), Mem(c, ImageB), Mem(c, PsfImage), Mem(c, TempImage),
                   Mem(c, Dimensions), Mem(c, PsfDimensions)];
    assert Mem(c, Dimensions) in r(c) && Mem(c, PsfDimensions) in r(c);
  }

  // ---------------------------------------------------------------------
  // Corrected
  // ---------------------------------------------------------------------

  /** The memory objects of one channel, in the order they are created. */
  function ChannelBuffers(c: int): seq<Handle>
  {
    [Mem(c, ImageA), Mem(c, ImageB), Mem(c, OriginalImage), Mem(c, PsfImage), Mem(c, TempImage),
     Mem(c, Dimensions), Mem(c, PsfDimensions)]
  }

  /** Where a memory object stands in ChannelBuffers. */
  function Slot(o: MemObject): (i: nat)
    ensures i < 7
    ensures forall c :: ChannelBuffers(c)[i] == Mem(c, o)
  {
    match o
    case ImageA => 0
    case ImageB => 1
    case OriginalImage => 2
    case PsfImage => 3
    case TempImage => 4
    case Dimensions => 5
    case PsfDimensions => 6
  }

  function ChannelKernels(c: int): seq<Handle>
  {
    [ConvolutionKernel(c), DeconvolutionKernel(c)]
  }

  /** The creations with the two dimension buffers created alongside the
      others in copy_images_to_opencl. */
  function Created(): seq<Handle>
  {
    [Context, Queue, Program] + PerChannel(ChannelKernels) + PerChannel(ChannelBuffers)
  }

  /** cleanup releasing the original-image buffers too: per channel its
      kernels and buffers, then the program, queue and context. */
  function Released(): seq<Handle>
  {
    PerChannel(c => ChannelKernels(c) + ChannelBuffers(c)) + [Program, Queue, Context]
  }

  /** A handle belongs to the device set of a run when its channel is one of
      the three. */
  predicate InRun(h: Handle)
  {
    match h
    case Mem(c, _) => 0 <= c < 3
    case ConvolutionKernel(c) => 0 <= c < 3
    case DeconvolutionKernel(c) => 0 <= c < 3
    case _ => true
  }

  /** Corrected, a handle is released exactly when it was created, and each
      is created once and released once. */
  lemma EveryHandleReleasedOnce(h: Handle)
    ensures h in Created() <==> InRun(h)
    ensures h in Released() <==> h in Created()
    ensures NoDuplicates(Created()) && NoDuplicates(Released())
  {
    if InRun(h) {
      match h
      case Mem(c, o) =>
        assert ChannelBuffers(c)[Slot(o)] == h;
        assert (ChannelKernels(c) + ChannelBuffers(c))[2 + Slot(o)] == h;
      case ConvolutionKernel(c) =>
        assert h in ChannelKernels(c) && h in ChannelKernels(c) + ChannelBuffers(c);
      case DeconvolutionKernel(c) =>
        assert h in ChannelKernels(c) && h in ChannelKernels(c) + ChannelBuffers(c);
      case _ =>
    }
    CreatedDistinct();
    ReleasedDistinct();
  }

  lemma CreatedDistinct()
    ensures NoDuplicates(Created())
  {
    var s := Created();
    forall i, j | 0 <= i < j < |s|
      ensures s[i] != s[j]
    {
      assert |s| == 30;
    }
  }

  lemma ReleasedDistinct()
    ensures NoDuplicates(Released())
  {
    var s := Released();
    forall i, j | 0 <= i < j < |s|
      ensures s[i] != s[j]
    {
      assert |s| == 30;
    }
  }

  /** The context outlives every object derived from it: it is released
      last, after every buffer and kernel. */
  lemma ContextReleasedLast()
    ensures Released()[|Released()| - 1] == Context
    ensures forall i :: 0 <= i < |Released()| - 1 ==> Released()[i] != Context
  {
    ReleasedDistinct();
  }
}
