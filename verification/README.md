# filter-noise host pipeline in Dafny

This project models the host side of the edge-aware image filter in
`filter-noise.cpp`. That host code promotes three byte planes to doubles
on the host and copies them to the GPU. It then launches six kernels in a fixed order: `sobel_filter`, `mix_channels`,
`blur_filter`, `parallel_max`, `divide_all` and `smoothen`. Last, it reads
the three filtered byte planes back.

The kernels themselves are in a PTX module that is not part of this model. So
device buffers hold symbolic contents. A `Contents` term records which kernel
produced a buffer and from which inputs. This is the most general reading of
the kernels as uninterpreted functions.

What the model covers, module by module:

- `Geometry` (`geometry.dfy`): the launch geometry. This is ceiling division
  by 32 for the 32x32 tiles of the per-pixel kernels, and by 1024 for the
  one-dimensional launches. It also shows that every pixel and every element
  is assigned a thread inside the grid.
- `Gpu` (`device.dfy`):
  - the ten device buffers `d_channels[c]`, `d_tmp_channels[c]`, `d_gradient`
    and `d_uchar_channels[c]`;
  - kernel launches as records of kernel, source buffers, destination buffer,
    size arguments, grid, block and shared-memory bytes;
  - a launch followed by `cuCtxSynchronize`, as one step that overwrites one
    buffer;
  - the safety conditions of a launch: argument count, coverage, no aliasing,
    and shared scratch.
- `Reduction` (`reduction.dfy`): the arithmetic of the do-while maximum
  reduction. `size` shrinks to `(size + 1023)/1024` on every pass. This
  module gives the number of passes and the bound of at most four passes for
  any `int` size. It also proves that composing the passes yields the global
  maximum. That proof assumes an explicitly named per-block contract for the
  unseen `parallel_max` kernel.
- `Dataflow` (`dataflow.dfy`): the reference dataflow, stated without
  buffers. It covers Sobel per channel, mixing, eight blur passes, the
  reduction chain, normalisation and the per-channel blend.
- `FilterNoise` (`filter_noise.dfy`): the host routines `allocate`,
  `prepare`, `compute_gradients` stage by stage, `sharpen_or_blur` and
  `enhance_image`. Every routine returns the new device memory and the
  launches it issued. Its contracts say three things:
  - which reference value ends in which buffer;
  - which buffers are left untouched;
  - that every launch is safe and the kernels run in pipeline order.

The two argument-slot tricks of the source are modelled as written:

- The blur swaps `args3[0]` and `args3[3]` after every pass.
- The reduction sets its slots to `d_tmp_channels[cnt&1]` and
  `d_tmp_channels[(cnt&1)^1]`.

The proofs show three things about them:

- The eight blur passes leave the smoothed map in `d_gradient`.
- No reduction pass writes the buffer it reads or `d_gradient`.
- The divisor handed to `divide_all`, `d_tmp_channels[(cnt&1)^1]`, is exactly
  the buffer the last reduction pass wrote.

## Model

| member | source | states |
|---|---|---|
| `Geometry.CeilDiv` | filter-noise.cpp:75-76 | `(n + d - 1)/d` blocks of `d` hold all `n` items, with less than one block to spare |
| `Geometry.CeilDivIsLeast` | filter-noise.cpp:112 | a block count covers `n` items exactly when it is at least the ceiling division, so the grid is the smallest that covers |
| `Geometry.TileGrid` | filter-noise.cpp:75-78 | the `(dimX+31)/32` x `(dimY+31)/32` grid of 32x32 tiles covers every column and row and overshoots by less than one tile in each direction |
| `Geometry.LinearGrid` | filter-noise.cpp:89-92 | `(n+1023)/1024` blocks of 1024 threads cover all `n` elements with fewer than 1024 surplus threads |
| `Geometry.EveryPixelHasThread` | filter-noise.cpp:97-100 | pixel (y, x) is thread (x mod 32, y mod 32) of tile (x/32, y/32), and that tile lies inside the launched grid |
| `Geometry.EveryElementHasThread` | filter-noise.cpp:127-130 | element i is thread i mod 1024 of block i/1024, and that block lies inside the launched grid |
| `Gpu.TiledLaunch` | filter-noise.cpp:144-147 | a per-pixel launch whose destination is not among its sources is safe: right argument count, full coverage, no aliasing, no shared memory |
| `Gpu.LinearLaunch` | filter-noise.cpp:111-114 | a one-dimensional launch is safe, and `parallel_max` gets `1024*sizeof(double)` bytes of shared scratch |
| `Reduction.NextSize` | filter-noise.cpp:116 | the new `size` is the block count of the pass: strictly smaller while it exceeds 1, with 0 and 1 fixed |
| `Reduction.Passes` | filter-noise.cpp:109-120 | the do-while body runs at least once, whatever the initial `size`, including an empty map |
| `Reduction.PassesReachOne` | filter-noise.cpp:109-120 | after `Passes(n)` passes exactly one value is left (none for an empty map), and every earlier pass left more than one, so the do-while ran exactly that often |
| `Reduction.PassesAtMostFour` | filter-noise.cpp:107-120 | for any `size` an `int` can hold, the loop runs at most four passes |
| `Reduction.InItsBlock` | filter-noise.cpp:111-113 | element i of a pass's input lies in the 1024-element block numbered i/1024 |
| `Reduction.OnePassKeepsMax` | filter-noise.cpp:110-115 | assuming the per-block contract of `parallel_max`, a value is the maximum of a pass's output exactly when it is the maximum of its input |
| `Reduction.ComposedPassesGiveGlobalMax` | filter-noise.cpp:109-120 | assuming the per-block contract for every pass, the buffer left by the last pass holds one value, the maximum of the whole map |
| `Dataflow.ReductionProgressStep` | filter-noise.cpp:110-119 | while passes are due, one more pass keeps the reduction on track to the chain's result and pass count |
| `FilterNoise.BitsMatchC` | filter-noise.cpp:117-118 | the parity used for buffer selection equals C's `cnt&1`, and its flip equals `(cnt&1)^1`, for every non-negative `int` |
| `FilterNoise.Allocate` | filter-noise.cpp:46-55 | three host arrays of `length` doubles; every device buffer exists and holds nothing written yet; the dimensions stay -1 |
| `FilterNoise.Prepare` | filter-noise.cpp:57-67 | every `double_channels[c][i]`, for `c < 3` and `i < dimy*dimx`, equals the input byte; `d_channels[c]` holds that promoted plane; `dimY`/`dimX` record the dimensions; no other buffer changes |
| `FilterNoise.SobelChannel` | filter-noise.cpp:72-79 | one Sobel iteration writes the Sobel response of `d_channels[c]` to `d_tmp_channels[c]` and nothing else |
| `FilterNoise.SobelStage` | filter-noise.cpp:70-80 | each `d_tmp_channels[c]` holds the Sobel response of `d_channels[c]`; only the three tmp buffers change; three safe `sobel_filter` launches |
| `FilterNoise.MixStage` | filter-noise.cpp:81-93 | `d_gradient` holds the mix of the three tmp buffers over `dimY*dimX` elements; only `d_gradient` changes |
| `FilterNoise.BlurRoute` | filter-noise.cpp:95-102 | after i swaps, pass i reads `d_gradient` and writes `d_tmp_channels[0]` when i is even, and the other way round when i is odd; the two slots never coincide |
| `FilterNoise.BlurStage` | filter-noise.cpp:94-103 | after eight passes `d_gradient` holds the map blurred eight times and `d_tmp_channels[0]` holds it blurred seven times; nothing else changes; eight safe `blur_filter` launches |
| `FilterNoise.ReductionRoute` | filter-noise.cpp:105-119 | pass k writes `d_tmp_channels[k&1]` and reads `d_gradient` (k = 0) or what pass k-1 wrote; it never writes what it reads, nor `d_gradient` |
| `FilterNoise.StartMaxLoop` | filter-noise.cpp:105-109 | before the first pass the slots hold `d_gradient` and `d_tmp_channels[0]`, `cnt` is 0 and `size` is the whole map, and the loop invariant holds |
| `FilterNoise.ReductionPass` | filter-noise.cpp:110-119 | one do-while iteration keeps the loop invariant and strictly decreases the termination measure |
| `FilterNoise.RunMaxLoop` | filter-noise.cpp:110-120 | the loop ends with `size` equal to 1 (0 for an empty map) and the invariant intact |
| `FilterNoise.ReduceMax` | filter-noise.cpp:104-120 | the loop runs `Passes(n)` passes; `d_tmp_channels[(cnt&1)^1]` holds the reduced maximum and is the destination of the last launch; only `d_tmp_channels[0]` and `[1]` change; every pass is a safe `parallel_max` launch |
| `FilterNoise.MaxLoopDone` | filter-noise.cpp:117-126 | when the loop exits, `cnt` equals the pass count and `d_tmp_channels[(cnt&1)^1]`, the slot the normaliser reads, is the buffer the last pass wrote and holds the reduction result; only `d_tmp_channels[0]` and `[1]` were written |
| `FilterNoise.NormalizeStage` | filter-noise.cpp:123-131 | `divide_all` scales `d_gradient` in place by the given maximum buffer; only `d_gradient` changes |
| `FilterNoise.SmoothedEdgeMap` | filter-noise.cpp:70-103 | Sobel on each working plane, the mix into `d_gradient` and eight blur passes leave `d_gradient` holding the edge map of the three planes blurred eight times; only tmp buffers and `d_gradient` change; the launches are Sobel x3, mix, blur x8, all safe |
| `FilterNoise.NormalizeByMax` | filter-noise.cpp:104-131 | with `size` restored to `dimY*dimX`, `d_gradient` ends holding the smoothed map divided by its own reduced maximum |
| `FilterNoise.ComputeGradients` | filter-noise.cpp:69-132 | `d_gradient` holds the normalised edge map of the three working planes; only tmp buffers and `d_gradient` change; the launches are Sobel x3, mix, blur x8, `parallel_max` x`Passes(n)`, `divide_all`, all safe |
| `FilterNoise.SmoothenChannel` | filter-noise.cpp:141-148 | one smoothen iteration writes to `d_uchar_channels[c]` the blend of `d_channels[c]` weighted by `d_gradient`, and nothing else |
| `FilterNoise.SharpenOrBlur` | filter-noise.cpp:134-150 | each `d_uchar_channels[c]` holds the blend of `d_channels[c]` weighted by `d_gradient`; only the output buffers change; three safe `smoothen` launches |
| `FilterNoise.FilterOnDevice` | filter-noise.cpp:172-173 | compute_gradients then sharpen_or_blur leave in each output buffer its channel blended with the normalised edge map of all three |
| `FilterNoise.EnhanceImage` | filter-noise.cpp:169-177 | a failed backend start ends the run before any image work, and only then; otherwise each returned plane is the reference filtered plane of its promoted input, every launch is safe, and the kernels run in pipeline order |

## Left out

- Kernel bodies (Sobel magnitude, mixing, blur, per-block maximum, division,
  blend and clamp) are in `filter-noise.ptx`, which is not part of this
  model. Buffer contents are symbolic terms, and floating-point values are
  not modelled.
- The divide-by-zero guard for an all-zero maximum would live inside
  `divide_all`, so it cannot be checked here.
- `divide_all` is taken to scale `d_gradient` (its first argument) in place by
  the value in its third argument. The host code implies this, but the kernel
  is not visible.
- `Reduction.OnePassKeepsMax` and `Reduction.ComposedPassesGiveGlobalMax`
  rest on `ParallelMaxContract`, an assumed contract of the unseen
  `parallel_max` kernel. It says one output per 1024-element block, each
  the maximum of its block. It is a `requires`, not a proved fact.
- `cuda_init` is reduced to the boolean `backendReady`. The driver calls are
  not modelled, and neither is the message printed on failure. A failure is
  the `InitFailed` outcome, which stands for `exit(EXIT_FAILURE)`.
- The CUDA driver calls (`cuMemAlloc`, `cuMemcpy*`, `cuLaunchKernel`,
  `cuCtxSynchronize`) are foreign calls. Their effect is assumed, not proved.
  `Gpu.Exec` defines a launch followed by `cuCtxSynchronize` as writing only
  its destination buffer, which is the last buffer argument (the first for
  `divide_all`). The kernel never writes its inputs, and its shared scratch
  is not a device buffer. `Gpu.CopyIn` defines `cuMemcpyHtoD` as writing only
  its target buffer. Every frame property above rests on these two
  definitions.
- `FilterNoise.Allocate`: the host arrays from `malloc` have indeterminate
  contents. The contract promises only their lengths and that the device
  buffers are fresh. Allocation failures go unchecked in the source
  (filter-noise.cpp:48-53) and are not modelled.
- `save_at` is modelled only as reading `d_uchar_channels` into the outcome.
  The byte copy to the caller's planes is left out, as is `cleanup`
  (freeing the host arrays and destroying the context).
- Memory-management defects are noted, not modelled:
  - memory from `malloc` is released with `delete[]` (filter-noise.cpp:48
    against 163);
  - the device buffers are never freed.
- `FilterNoise.EnhanceImage` and `FilterNoise.Prepare` require positive
  dimensions with `dimY*dimX + 1023` within `INT_MAX`. The source does not
  check this. Beyond it, the C `int` arithmetic overflows.
- `FilterNoise.BitsMatchC` covers `cnt&1` and `(cnt&1)^1` only for
  non-negative counts. `cnt` starts at 0 and only increments, so no other
  count arises.
- The size arguments passed by address (`&dimY`, `&dimX`, `&size`) are
  recorded as the launch's `Shape` at launch time. Each launch completes
  before the host changes them.
- `demo.cpp` (image file decode and encode, and the entry point) and
  `filter-noise.h` (a declaration only) are not part of this model.
