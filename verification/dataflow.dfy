/** The dataflow the filter is meant to compute, stated without buffers:
    Sobel per channel, channel mixing, eight blur passes, the multi-pass
    maximum, normalisation, and the per-channel adaptive blend. The host code
    routes buffers so that the device ends up holding exactly these values.
 */
module Dataflow {
  import opened Gpu
  import opened Reduction

  /** Number of blur passes over the edge map. */
  const SmoothingPasses: nat := 8

  /** An 8-bit channel sample (`unsigned char`). */
  type Byte = x: int | 0 <= x < 256

  /** The first `n` samples of a byte plane as doubles. Every byte value is
      an integer well inside the range a double holds exactly, so the C
      conversion is the exact real value. */
  function Promote(bytes: seq<Byte>, n: nat): seq<real>
    requires n <= |bytes|
  {
    seq(n, i requires 0 <= i < n => bytes[i] as real)
  }

  /** The unified edge map: mix_channels over the Sobel response of each
      working plane. */
  function EdgeMap(p0: Contents, p1: Contents, p2: Contents, rows: nat, cols: nat): Contents {
    Mixed(Sobel(p0, rows, cols), Sobel(p1, rows, cols), Sobel(p2, rows, cols), rows * cols)
  }

  /** `t` after `k` blur passes. */
  function BlurredTimes(t: Contents, k: nat, rows: nat, cols: nat): Contents {
    if k == 0 then t else Blurred(BlurredTimes(t, k - 1, rows, cols), rows, cols)
  }

  /** The buffer left by the reduction of `t` (of `n` elements): one
      parallel_max pass, then further passes over the partial maxima for as
      long as more than one remains. */
  function MaxChain(t: Contents, n: nat): Contents
    decreases n
  {
    var s := NextSize(n);
    if s > 1 then MaxChain(BlockMax(t, n), s) else BlockMax(t, n)
  }

  /** How far a reduction whose result is `goal` after `passes` passes has
      got, when `cnt` passes have left `size` partial maxima in `cur`.
      While passes are due (none has run yet, or more than one value is
      left), the passes still to run take `cur` to `goal` and bring the
      count to `passes`; once none is due, `cur` is `goal` and `cnt` is
      `passes`. */
  ghost predicate ReductionProgress(goal: Contents, passes: nat, cur: Contents, size: nat, cnt: nat) {
    if cnt == 0 || size > 1 then
      MaxChain(cur, size) == goal && cnt + Passes(size) == passes
    else
      cur == goal && cnt == passes
  }

  /** Before the first pass over the `n` elements of `t`, the reduction is
      on track to `MaxChain(t, n)` in `Passes(n)` passes. */
  lemma ReductionProgressStart(t: Contents, n: nat)
    ensures ReductionProgress(MaxChain(t, n), Passes(n), t, n, 0)
  {
  }

  /** One more pass while passes are due keeps the reduction on track. */
  lemma ReductionProgressStep(goal: Contents, passes: nat, cur: Contents, size: nat, cnt: nat)
    requires ReductionProgress(goal, passes, cur, size, cnt) && (cnt == 0 || size > 1)
    ensures ReductionProgress(goal, passes, BlockMax(cur, size), NextSize(size), cnt + 1)
  {
  }

  /** Once no pass is due, the reduction has produced its result. */
  lemma ReductionProgressDone(goal: Contents, passes: nat, cur: Contents, size: nat, cnt: nat)
    requires ReductionProgress(goal, passes, cur, size, cnt) && !(cnt == 0 || size > 1)
    ensures cur == goal && cnt == passes
  {
  }

  /** The smoothed edge map divided by its own reduced maximum. */
  function NormalizedEdges(p0: Contents, p1: Contents, p2: Contents, rows: nat, cols: nat): Contents {
    var smooth := BlurredTimes(EdgeMap(p0, p1, p2, rows, cols), SmoothingPasses, rows, cols);
    Divided(smooth, rows * cols, MaxChain(smooth, rows * cols))
  }

  /** The output plane of channel `c`: smoothen over that channel's working
      plane, weighted by the normalised edge map of all three. */
  function FilteredPlane(planes: seq<Contents>, c: Channel, rows: nat, cols: nat): Contents
    requires |planes| == 3
  {
    Smoothed(planes[c], rows, cols, NormalizedEdges(planes[0], planes[1], planes[2], rows, cols))
  }

  /** The kernels the pipeline launches for an image of `n` pixels, in order. */
  function PipelineKernels(n: nat): seq<Kernel> {
    GradientKernels(n) + Repeat(Smoothen, 3)
  }

  /** The kernels compute_gradients launches for `n` pixels, in order. */
  function GradientKernels(n: nat): seq<Kernel> {
    Repeat(SobelFilter, 3) + [MixChannels] + Repeat(BlurFilter, SmoothingPasses)
      + Repeat(ParallelMax, Passes(n)) + [DivideAll]
  }
}
