# deconvolute: a Dafny model of the host-side driver

`deconvolute.c` drives a 3-channel image deconvolution on an OpenCL device.
It reads a 16-bit input image and an 8-bit point-spread function (PSF). It
splits both into per-channel arrays and normalises them: input samples are
divided by `UINT16_MAX`, and each PSF channel is divided by its own total.
Both are uploaded to device buffers. A fixed number of passes then
alternates two working buffers, A and B. Buffer A is read back and
converted to 16-bit samples. Values at or above 1 are clamped; the others
are scaled and truncated. The result is written out in interleaved order.

This project models that driver in Dafny and proves what it guarantees.

- `channels.dfy` (module `Channels`): the index arithmetic `i -> (i % 3, i / 3)` and its inverse `(c, p) -> 3 * p + c`; de-interleave and re-interleave as inverse functions; input normalisation; C's float-to-integer truncation; the output clamp/scale; and the exact normalise-then-convert round trip.
- `psf.dfy` (module `Psf`): the running per-channel totals of the PSF loop, their equality with each channel's sum, and the normalised PSF summing to exactly 1 per channel with every sample in [0, 1].
- `iteration.dfy` (module `Iteration`): the pass count rounded up to even, with C's remainder on negative counts; parity-based role selection, proved equal to a two-state machine that toggles once per pass; a specification of one pass and of n passes with the per-channel kernel as a parameter; and what buffer A holds after an even number of passes.
- `device.dfy` (module `Device`): class `DeviceBufferSet`, whose fields are the channel planes of buffers A, B, original image and PSF. Its methods are the upload, one pass (`do_iteration`) and the readback of A.
- `host.dfy` (module `Host`): the loops of `init_images` and `output`, over `array2<real>` host images indexed `[channel, pixel]`, with their invariants.
- `driver.dfy` (module `Driver`): `main`'s sequence as a method, specified by a function of the whole run. Also lemmas: the run writes the last pass's output; with no kernel (as the code stands) or with the identity kernel, and assuming the readback of buffer A completes, the run returns its input exactly.
- `resources.dfy` (module `Resources`): a ledger of the OpenCL handles created and released, as written and corrected (see Findings).

All floating-point values are Dafny `real`. Integer samples are `int` with
explicit 8-bit and 16-bit range predicates.

The program's documented behaviour and its code differ in four places; the model follows the code:

- A PSF channel with zero total is meant to fail with a defined error. The code divides without a guard, so the model requires positive totals.
- Output values in [0, 1) are meant to be rounded. The code truncates (deconvolute.c:65-66), so `Quantize` truncates.
- The readback is meant to pick A or B by the parity of the pass count. The code always reads A (deconvolute.c:53) and relies on the even pass count.
- Each pass is meant to invoke a kernel per channel. The code's `do_iteration` (deconvolute.c:120-134) selects roles and then enqueues nothing. The model takes the kernel as a parameter. `Iteration.NoKernel` (the target keeps its contents) is the code as it stands. With it, a run returns its input only if the readback of A completes (see "## Left out" on the wait list).

## Model

| member | source | states |
|---|---|---|
| `Channels.SplitIndex` | deconvolute.c:31-34 | every interleaved index `i < 3n` names channel `i % 3 < 3` and pixel `i / 3 < n`, and `i == 3 * (i / 3) + i % 3` |
| `Channels.JoinIndex` | deconvolute.c:31-34 | every slot `(c, p)` is named by index `3p + c < 3n`, which maps back to `(c, p)` |
| `Channels.SlotsDistinct` | deconvolute.c:31-34 | two indices naming the same slot are equal, so no slot is written twice |
| `Channels.DeinterleaveAt` | deconvolute.c:31-33 | de-interleaving puts sample `i` at channel `i % 3`, pixel `i / 3` |
| `Channels.InterleaveDeinterleave` | deconvolute.c:31-34 | re-interleaving the de-interleaved channels gives back the buffer |
| `Channels.DeinterleaveInterleave` | deconvolute.c:61-68 | de-interleaving the interleaved output gives back the channels |
| `Channels.Normalize16` | deconvolute.c:32-33 | a 16-bit sample over `UINT16_MAX` lies in [0, 1], is 1 exactly for `UINT16_MAX`, and times `UINT16_MAX` is the sample |
| `Channels.Truncate` | deconvolute.c:65-66 | C's float-to-integer conversion: floor for non-negative values, ceiling for non-positive ones |
| `Channels.Quantize` | deconvolute.c:62-66 | values >= 1 become 65535; values in [0, 1) become `floor(65535 v)` <= 65534; values <= 0 become 0; always a 16-bit sample |
| `Channels.QuantizeNormalize` | deconvolute.c:61-68 | converting a normalised 16-bit sample back returns it |
| `Channels.NormalizedInput` | deconvolute.c:31-34 | the normalised input has 3 channels of `n` samples, all in [0, 1] |
| `Channels.NormalizedInputAt` | deconvolute.c:32-33 | `normalized_input_image[i % 3][i / 3] == input[i] / UINT16_MAX` |
| `Channels.NormalizedInputInDomain` | deconvolute.c:62-66 | a normalised input can be converted back (is in the conversion's domain) |
| `Channels.Quantized` | deconvolute.c:61-68 | the output has `3n` samples, all 16-bit |
| `Channels.NormalizedInputIsDeinterleaved` | deconvolute.c:31-34 | the normalised input equals `Channels.Deinterleave` of the samples each divided by `UINT16_MAX`, so the input loop is the de-interleave |
| `Channels.QuantizedIsInterleaved` | deconvolute.c:61-68 | the output equals `Channels.Interleave` of the per-channel quantised planes, so the output loop is the re-interleave |
| `Channels.RoundTrip` | deconvolute.c:31-34 | normalising an image and converting it straight back returns every sample unchanged |
| `Psf.PartialTotalIsPlaneSum` | deconvolute.c:37-40 | the running total of channel `c` after `3m` samples is the sum of that channel's first `m` samples |
| `Psf.ChannelTotalIsSum` | deconvolute.c:36-40 | `total[c]` after the loop is the sum of channel `c`'s raw samples |
| `Psf.PsfSumsToOne` | deconvolute.c:41-43 | given positive totals, each normalised PSF channel sums to exactly 1 |
| `Psf.PsfSamplesInUnitRange` | deconvolute.c:41-43 | given positive totals, each normalised PSF sample lies in [0, 1] |
| `Iteration.CRemainder2` | deconvolute.c:188 | C's `N % 2`: in (-2, 2), takes the sign of `N`, and `N - r` is even |
| `Iteration.PassCount` | deconvolute.c:187-188 | `n_iterations` is even, and for `N >= 0` lies in `[N, N + 1]`; for `N <= 0` no pass runs |
| `Iteration.SelectRoles` | deconvolute.c:125-131 | the buffer a pass reads is never the one it writes |
| `Iteration.SelectRolesIsToggling` | deconvolute.c:125-131 | parity selection equals a two-state machine that starts reading A and swaps roles once per pass |
| `Iteration.ConsecutivePassesSwapRoles` | deconvolute.c:125-131 | the buffer one pass writes is the one the next pass reads, and the reverse |
| `Iteration.LastPassWritesImageA` | deconvolute.c:125-131 | the last of an even, positive number of passes writes A |
| `Iteration.RoundedCountEndsInImageA` | deconvolute.c:188 | with the rounded-up count, the last pass writes A, the buffer read back |
| `Iteration.OddCountEndsInImageB` | deconvolute.c:125-131 | with an odd count the last pass would write B, which the readback of A would miss |
| `Iteration.Pass` | deconvolute.c:120-134 | a pass leaves its source buffer unchanged |
| `Iteration.ImageAHoldsLastPass` | deconvolute.c:205-209 | after an even, positive number of passes, A holds the last pass's kernel output and B that pass's source |
| `Iteration.NoKernelChangesNothing` | deconvolute.c:120-134 | passes that enqueue no kernel leave both buffers unchanged |
| `Iteration.CopyKernelKeepsImageA` | deconvolute.c:205-209 | with the identity kernel, A keeps its uploaded contents through any number of passes, and B holds them too once a pass has run |
| `Iteration.PassesKeepShape` | deconvolute.c:205-209 | a length-keeping kernel keeps both buffers at `n` samples per channel, and one whose output stays convertible keeps A convertible |
| `Device.DeviceBufferSet.Upload` | deconvolute.c:97-109 | after the upload, A and the original-image buffer hold the normalised input of every channel, and the PSF buffer holds the normalised PSF; B is untouched |
| `Device.DeviceBufferSet.DoIteration` | deconvolute.c:120-134 | one call changes the working buffers exactly as `Iteration.Pass` says; the original image and PSF are unchanged |
| `Device.DeviceBufferSet.ReadBack` | deconvolute.c:52-58 | the readback returns buffer A's planes |
| `Host.NormalizeInputInto` | deconvolute.c:31-34 | the loop fills the `[channel, pixel]` array with `Channels.NormalizedInput` |
| `Host.NormalizePsfInto` | deconvolute.c:36-43 | the two loops fill the array with each PSF sample over its channel's total (`Psf.NormalizedPsf`) |
| `Host.AccumulatePsf` | deconvolute.c:36-40 | the first loop puts raw PSF sample `3p+c` at `[c, p]` and leaves `total[c]` equal to the channel's sum (`Psf.ChannelTotal`) |
| `Host.DividePsf` | deconvolute.c:41-43 | the second loop divides every sample by its channel's total, giving `Psf.NormalizedPsf` |
| `Host.CopyPlanesInto` | deconvolute.c:52-58 | the host output array holds the planes read back |
| `Host.QuantizeInto` | deconvolute.c:61-68 | the output buffer holds `Channels.Quantized` of the array, in interleaved order |
| `Driver.InitImages` | deconvolute.c:13-43 | fresh host arrays hold the normalised input and the normalised PSF |
| `Driver.RunPasses` | deconvolute.c:205-209 | the working buffers after the loop are `Iteration.Passes` of those before; the read-only buffers are unchanged |
| `Driver.Output` | deconvolute.c:51-68 | the 16-bit output is buffer A, converted and interleaved |
| `Driver.Deconvolute` | deconvolute.c:187-212 | the image a run writes is `Driver.Result` of its inputs |
| `Driver.Result` | deconvolute.c:205-212 | the image a run writes has as many samples as the input, all 16-bit |
| `Driver.ResultIsLastPass` | deconvolute.c:52-58 | when any pass runs, the buffer read back holds exactly the last pass's output |
| `Driver.WellBehavedKernelIsAdmissible` | deconvolute.c:62-66 | a kernel that keeps lengths and returns convertible values makes the final conversion defined |
| `Driver.NoKernelRunReturnsInput` | deconvolute.c:120-134 | as the code stands (no kernel enqueued), and assuming the readback of buffer A completes, a run writes back exactly the input image |
| `Driver.CopyKernelRunReturnsInput` | deconvolute.c:205-212 | with the identity kernel, and assuming the readback of buffer A completes, a run is lossless: it writes back exactly the input image |
| `Resources.AsWrittenLeaksOriginalImage` | deconvolute.c:156-166 | each channel's original-image buffer is created but never released |
| `Resources.AsWrittenUsesUncreatedDimensions` | deconvolute.c:110-115 | each channel's two dimension buffers are written and released but never created |
| `Resources.EveryHandleReleasedOnce` | deconvolute.c:137-171 | corrected, a handle is released exactly when it was created, each exactly once |
| `Resources.ContextReleasedLast` | deconvolute.c:168-170 | the context is released last, after every buffer and kernel |

## Left out

- TIFF decoding and encoding (`read_tiff`, `read_tiff8`, `write_tiff`): the decoded samples, `width`, `height`, `psf_width` and `psf_height` are parameters, and the 16-bit image is returned instead of written.
- OpenCL setup (`cl_utils_setup_gpu`, program build, `clCreateKernel`) and the status codes of every OpenCL call: the source ignores them, so no error path is modelled. Buffer creation and transfers are assignments to `DeviceBufferSet` fields.
- Events and wait lists (`copy_events`, `kernel_events`) and asynchrony. Transfers are modelled as completed in program order. Nothing fills `kernel_events`, yet the readback (deconvolute.c:53-57) names two of its entries as a wait list. Under OpenCL such a read can fail with `CL_INVALID_EVENT_WAIT_LIST`, leaving the host array with its uninitialised contents; the code ignores the status. The model assumes the read completes, so `Driver.NoKernelRunReturnsInput`, `Driver.CopyKernelRunReturnsInput` and `Driver.Deconvolute` hold only for a readback that succeeds.
- The device kernel arithmetic (`deconvolute.cl`) is not part of this model; the kernel is an opaque function parameter.
- `k_temp_image`: it is created and released but never used, so it appears only in the handle ledger.
- Buffer B's contents before the first write are undefined in the source; the caller supplies them (`unwritten`).
- IEEE-754 rounding: all arithmetic is over exact reals. The PSF sums to exactly 1 and the round trip is exact over reals; over C floats they hold only approximately.
- C `int` width: `3 * width * height` (deconvolute.c:13, 31, 61), `3 * psf_width * psf_height` (37, 41), the loop index `i` and `N_ITERATIONS + N_ITERATIONS % 2` (188) are C `int`, which overflow (undefined behaviour) for images over `INT_MAX / 3` samples and for `N_ITERATIONS == INT_MAX`. The model uses unbounded integers, so `Channels.SplitIndex`, `Channels.JoinIndex`, the `Host` loops and `Driver.ValidInputs` also cover those sizes, which the C program cannot handle.
- Iteration.PassCount: over unbounded integers; at `N_ITERATIONS == INT_MAX` the C sum overflows, and the model returns `INT_MAX + 1` instead.
- Command-line handling, `printf` progress output, `emalloc` and `free` (host memory cannot be exhausted in the model).
- `Psf.PsfSumsToOne`: requires every channel total to be positive; the code divides by zero otherwise.
- `Channels.Quantize`: requires `65535 * v > -1`; below that C's conversion to `uint16_t` is undefined. NaN inputs do not exist over reals.
- `Driver.Deconvolute`: requires the final buffer A to have `width * height` samples per channel, all convertible (`Driver.Admissible`). Device buffers have a fixed size that a kernel cannot change, and the conversion is undefined outside its domain.
- `Resources`: cleanup is modelled as the sequence of handles it releases rather than as statements. The only error exit in the file (the argument check, deconvolute.c:181-185) comes before any handle is acquired, and OpenCL status codes are ignored, so release on failure paths is not modelled. Whether `emalloc`, `read_tiff` and `read_tiff8` exit on failure is not part of this model.

## Findings

| source | as written | input that shows it | evidently intended | confidence | as-written member | corrected member |
|---|---|---|---|---|---|---|
| deconvolute.c:87 | `k_original_image[i]` is created in `copy_images_to_opencl` but `cleanup` never releases it | any run | release every channel's original-image buffer in `cleanup` | high; not executed | `Resources.AsWrittenLeaksOriginalImage` | `Resources.EveryHandleReleasedOnce` |
| deconvolute.c:110-115 | `k_dimensions[i]` and `k_psf_dimensions[i]` are written and then released, but nothing in this file creates them | any run | create both dimension buffers beside the others before writing them | medium (the header that declares them is not part of this model); not executed | `Resources.AsWrittenUsesUncreatedDimensions` | `Resources.EveryHandleReleasedOnce` |
