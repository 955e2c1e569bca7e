/** The host side of the filter: byte-to-double promotion, the order of the
    kernel launches, and which buffer every launch reads and writes.

    Each routine takes device memory and returns the new memory together
    with the launches it issued; a kernel launch followed by
    `cuCtxSynchronize` is one `Exec` step.
 */
module FilterNoise {
  import opened Geometry
  import opened Gpu
  import opened Reduction
  import opened Dataflow

  /** The host globals: the promoted planes `double_channels`, device
      memory, and `dimY`/`dimX` (initially -1). */
  datatype State = State(host: seq<seq<real>>, mem: Memory, dimY: int, dimX: int)

  /** Image dimensions the code handles without C `int` overflow: a
      non-empty image whose pixel count stays 1023 below `INT_MAX`, so that
      `dimY*dimX`, `size + 1023` and `dimX + 31` all fit. */
  predicate ValidDims(dimY: int, dimX: int) {
    0 < dimY && 0 < dimX && dimY * dimX <= IntMax - (BlockThreads - 1)
  }

  /** A bit of a non-negative counter, as `cnt&1` produces. */
  type Bit = b: nat | b < 2

  /** `k & 1` for a non-negative `k`. */
  function LowBit(k: nat): Bit {
    k % 2
  }

  /** `b ^ 1` for a single bit `b`. */
  function FlipBit(b: Bit): Bit {
    1 - b
  }

  /** For every count a C `int` can hold, `LowBit` and `FlipBit` agree with
      the 32-bit operators the source applies: `cnt&1` and `(cnt&1)^1`. */
  lemma BitsMatchC(k: nat)
    requires k <= IntMax
    ensures LowBit(k) == ((k as bv32) & 1) as int
    ensures FlipBit(LowBit(k)) == (((k as bv32) & 1) ^ 1) as int
  {
  }

  // ---------------------------------------------------------------------
  // allocate and prepare
  // ---------------------------------------------------------------------

  /** allocate(length): three host arrays of `length` doubles with
      indeterminate contents, and every device buffer created but not yet
      written. The dimensions keep their initial value -1 until prepare. */
  method Allocate(length: nat) returns (st: State)
    ensures |st.host| == 3 && forall c :: 0 <= c < 3 ==> |st.host[c]| == length
    ensures forall b: BufferId :: st.mem(b) == Unset(b)
    ensures st.dimY == -1 && st.dimX == -1
  {
    st := State(seq(3, _ => seq(length, _ => 0.0)), Fresh(), -1, -1);
  }

  /** The working planes `prepare` uploads: each byte plane promoted to
      doubles. */
  function InputPlanes(chars: seq<seq<Byte>>, n: nat): seq<Contents>
    requires |chars| == 3 && forall c :: 0 <= c < 3 ==> |chars[c]| >= n
  {
    [Samples(Promote(chars[0], n)), Samples(Promote(chars[1], n)), Samples(Promote(chars[2], n))]
  }

  /** Promote the three byte planes to doubles in the host arrays, copy each
      to `d_channels[c]`, and record the dimensions. */
  method Prepare(st: State, chars: seq<seq<Byte>>, dimy: int, dimx: int) returns (st': State)
    requires ValidDims(dimy, dimx)
    requires |chars| == 3 && forall c :: 0 <= c < 3 ==> |chars[c]| >= dimy * dimx
    requires |st.host| == 3 && forall c :: 0 <= c < 3 ==> |st.host[c]| == dimy * dimx
    ensures |st'.host| == 3
    ensures forall c :: 0 <= c < 3 ==> |st'.host[c]| == dimy * dimx
    ensures forall c, i :: 0 <= c < 3 && 0 <= i < dimy * dimx ==> st'.host[c][i] == chars[c][i] as real
    ensures st'.dimY == dimy && st'.dimX == dimx
    ensures forall c: Channel :: st'.mem(Chan(c)) == Samples(st'.host[c]) == InputPlanes(chars, dimy * dimx)[c]
    ensures Keeps(st.mem, st'.mem, {Chan(0), Chan(1), Chan(2)})
  {
    var n := dimy * dimx;
    var host := st.host;
    var mem := st.mem;
    for c := 0 to 3
      invariant |host| == 3 && forall k :: 0 <= k < 3 ==> |host[k]| == n
      invariant forall k, i :: 0 <= k < c && 0 <= i < n ==> host[k][i] == chars[k][i] as real
      invariant forall k: Channel :: k < c ==> mem(Chan(k)) == Samples(host[k]) == InputPlanes(chars, n)[k]
      invariant forall b: BufferId :: !b.Chan? ==> mem(b) == st.mem(b)
      invariant forall k: Channel :: c <= k ==> mem(Chan(k)) == st.mem(Chan(k))
    {
      ghost var before := host;
      for i := 0 to n
        invariant |host| == 3 && forall k :: 0 <= k < 3 ==> |host[k]| == n
        invariant forall k :: 0 <= k < 3 && k != c ==> host[k] == before[k]
        invariant forall j :: 0 <= j < i ==> host[c][j] == chars[c][j] as real
      {
        host := host[c := host[c][i := chars[c][i] as real]];
      }
      assert host[c] == Promote(chars[c], n);
      mem := CopyIn(mem, Chan(c), host[c]);
    }
    st' := State(host, mem, dimy, dimx);
  }

  // ---------------------------------------------------------------------
  // compute_gradients, stage by stage
  // ---------------------------------------------------------------------

  /** sobel_filter on every channel: `d_channels[c]` into `d_tmp_channels[c]`. */
  method SobelStage(m: Memory, rows: nat, cols: nat) returns (m': Memory, ls: seq<Launch>)
    ensures forall c: Channel :: m'(Tmp(c)) == Sobel(m(Chan(c)), rows, cols)
    ensures Keeps(m, m', {Tmp(0), Tmp(1), Tmp(2)})
    ensures Kernels(ls) == Repeat(SobelFilter, 3) && AllSafe(ls)
  {
    m', ls := m, [];
    for c := 0 to 3
      invariant forall b: BufferId :: b.Tmp? && b.c < c ==> m'(b) == Sobel(m(Chan(b.c)), rows, cols)
      invariant forall b: BufferId :: !(b.Tmp? && b.c < c) ==> m'(b) == m(b)
      invariant Kernels(ls) == Repeat(SobelFilter, c) && AllSafe(ls)
    {
      m', ls := SobelChannel(m', ls, c, rows, cols);
    }
    forall b | b !in {Tmp(0), Tmp(1), Tmp(2)}
      ensures m'(b) == m(b)
    {
      match b
      case Tmp(_) => assert false;
      case _ =>
    }
  }

  /** One iteration of the Sobel loop: `d_channels[c]` into
      `d_tmp_channels[c]`, logged as the Sobel launch number `c`. */
  method SobelChannel(m: Memory, ls: seq<Launch>, c: Channel, rows: nat, cols: nat) returns (m': Memory, ls': seq<Launch>)
    requires Kernels(ls) == Repeat(SobelFilter, c) && AllSafe(ls)
    ensures m'(Tmp(c)) == Sobel(m(Chan(c)), rows, cols)
    ensures forall b: BufferId :: b != Tmp(c) ==> m'(b) == m(b)
    ensures Kernels(ls') == Repeat(SobelFilter, c + 1) && AllSafe(ls')
  {
    var l := TiledLaunch(SobelFilter, [Chan(c)], Tmp(c), rows, cols);
    m' := Exec(m, l);
    LogSnoc(ls, l, SobelFilter, c);
    ls' := ls + [l];
  }

  /** mix_channels: the three Sobel responses into `d_gradient`. */
  method MixStage(m: Memory, n: nat) returns (m': Memory, ls: seq<Launch>)
    ensures m'(Gradient) == Mixed(m(Tmp(0)), m(Tmp(1)), m(Tmp(2)), n)
    ensures Keeps(m, m', {Gradient})
    ensures Kernels(ls) == [MixChannels] && AllSafe(ls)
  {
    var l := LinearLaunch(MixChannels, [Tmp(0), Tmp(1), Tmp(2)], Gradient, n);
    m' := Exec(m, l);
    ls := [l];
  }

  /** The blur argument slots after `i` swaps: (`args3[0]`, `args3[3]`),
      the buffer pass `i` reads and the one it writes. The slots start as
      (`d_gradient`, `d_tmp_channels[0]`) and trade places after every pass,
      so they always name two different buffers and pass `i` writes
      `d_gradient` exactly when `i` is odd. */
  function BlurRoute(i: nat): (r: (BufferId, BufferId))
    ensures r.0 == (if i % 2 == 0 then Gradient else Tmp(0))
    ensures r.1 == (if i % 2 == 0 then Tmp(0) else Gradient)
  {
    if i == 0 then (Gradient, Tmp(0))
    else
      var prev := BlurRoute(i - 1);
      (prev.1, prev.0)
  }

  /** Eight blur passes, ping-ponging between `d_gradient` and
      `d_tmp_channels[0]` by swapping the argument slots. Because the pass
      count is even, the fully blurred map ends in `d_gradient`; the
      buffer `d_tmp_channels[0]` keeps the map after seven passes. */
  method BlurStage(m: Memory, rows: nat, cols: nat) returns (m': Memory, ls: seq<Launch>)
    ensures m'(Gradient) == BlurredTimes(m(Gradient), SmoothingPasses, rows, cols)
    ensures m'(Tmp(0)) == BlurredTimes(m(Gradient), SmoothingPasses - 1, rows, cols)
    ensures Keeps(m, m', {Gradient, Tmp(0)})
    ensures Kernels(ls) == Repeat(BlurFilter, SmoothingPasses) && AllSafe(ls)
  {
    m', ls := m, [];
    var src, dst := Gradient, Tmp(0);
    for i := 0 to SmoothingPasses
      invariant (src, dst) == BlurRoute(i)
      invariant m'(src) == BlurredTimes(m(Gradient), i, rows, cols)
      invariant i > 0 ==> m'(dst) == BlurredTimes(m(Gradient), i - 1, rows, cols)
      invariant Keeps(m, m', {Gradient, Tmp(0)})
      invariant Kernels(ls) == Repeat(BlurFilter, i) && AllSafe(ls)
    {
      var l := TiledLaunch(BlurFilter, [src], dst, rows, cols);
      m' := Exec(m', l);
      LogSnoc(ls, l, BlurFilter, i);
      ls := ls + [l];
      src, dst := dst, src;
    }
  }

  /** The reduction argument slots before pass `k`: (`args4[0]`, `args4[2]`),
      the buffer the pass reads and the one it writes. Pass 0 reads
      `d_gradient`; pass k writes `d_tmp_channels[k&1]`; every later pass
      reads what the previous one wrote; no pass writes what it reads, and
      none writes `d_gradient`. */
  function ReductionRoute(k: nat): (r: (BufferId, BufferId))
    ensures r.1 == Tmp(LowBit(k))
    ensures k == 0 ==> r.0 == Gradient
    ensures k > 0 ==> r.0 == Tmp(LowBit(k - 1))
    ensures r.0 != r.1 && r.1 != Gradient
  {
    if k == 0 then (Gradient, Tmp(0))
    else (Tmp(LowBit(k - 1)), Tmp(FlipBit(LowBit(k - 1))))
  }

  /** The do-while loop of parallel_max passes over the `n`-element map in
      `d_gradient`. It runs `Passes(n)` passes, each over the count the
      previous one left, ends with a count of 1 (0 for an empty map), never
      computes `size + 1023` beyond `INT_MAX`, and leaves the reduced
      maximum in `d_tmp_channels[(cnt&1)^1]`, the buffer the last pass
      wrote. `d_gradient` is read but never written. */
  method ReduceMax(m: Memory, n: nat) returns (m': Memory, ls: seq<Launch>, cnt: nat, size: nat)
    requires n + (BlockThreads - 1) <= IntMax
    ensures cnt == Passes(n)
    ensures size == (if n == 0 then 0 else 1)
    ensures m'(Tmp(FlipBit(LowBit(cnt)))) == MaxChain(m(Gradient), n)
    ensures Keeps(m, m', {Tmp(0), Tmp(1)})
    ensures Kernels(ls) == Repeat(ParallelMax, cnt) && AllSafe(ls)
    ensures ls[|ls| - 1].dst == Tmp(FlipBit(LowBit(cnt)))
  {
    ghost var goal, passes := MaxChain(m(Gradient), n), Passes(n);
    var r := StartMaxLoop(m, n);
    r := RunMaxLoop(m, n, goal, passes, r);
    MaxLoopDone(m, n, goal, passes, r);
    m', ls, cnt, size := r.mem, r.log, r.cnt, r.size;
  }

  /** When the do-while loop exits on track, the buffer in the written slot
      of the last pass, `d_tmp_channels[(cnt&1)^1]`, holds the goal, `cnt`
      is the pass count, and only the two reduction buffers were written. */
  lemma MaxLoopDone(m: Memory, n: nat, goal: Contents, passes: nat, r: MaxLoop)
    requires OnTrack(m, n, goal, passes, r) && !(r.cnt == 0 || r.size > 1)
    ensures r.cnt == passes && r.mem(Tmp(FlipBit(LowBit(r.cnt)))) == goal
    ensures |r.log| > 0 && r.log[|r.log| - 1].dst == Tmp(FlipBit(LowBit(r.cnt)))
    ensures Keeps(m, r.mem, {Tmp(0), Tmp(1)})
    ensures Kernels(r.log) == Repeat(ParallelMax, r.cnt) && AllSafe(r.log)
  {
    ReductionProgressDone(goal, passes, r.mem(r.src), r.size, r.cnt);
    assert r.src == Tmp(FlipBit(LowBit(r.cnt)));
    forall b | b !in {Tmp(0), Tmp(1)}
      ensures r.mem(b) == m(b)
    {
      assert b != Tmp(0) && b != Tmp(1);
    }
  }

  /** The variables of the reduction loop: device memory, the launches so
      far, `cnt`, `size`, and the buffers in the argument slots `args4[0]`
      (read) and `args4[2]` (written). */
  datatype MaxLoop = MaxLoop(mem: Memory, log: seq<Launch>, cnt: nat, size: nat, src: BufferId, dst: BufferId)

  /** The loop invariant of the reduction of the `n`-element map in
      `d_gradient` of `m`: the slots follow `ReductionRoute`, the count
      stays within `1 .. n` (0 for an empty map), the pass results are on
      track to `MaxChain`, only the two reduction buffers were written, the
      log holds `cnt` safe parallel_max launches, and the last of them wrote
      the buffer the next pass reads. */
  ghost predicate OnTrack(m: Memory, n: nat, goal: Contents, passes: nat, r: MaxLoop) {
    && (r.src, r.dst) == ReductionRoute(r.cnt)
    && r.size <= n && (n > 0 ==> r.size > 0)
    && ReductionProgress(goal, passes, r.mem(r.src), r.size, r.cnt)
    && (forall b: BufferId :: b != Tmp(0) && b != Tmp(1) ==> r.mem(b) == m(b))
    && Kernels(r.log) == Repeat(ParallelMax, r.cnt) && AllSafe(r.log)
    && (r.cnt > 0 ==> |r.log| > 0 && r.log[|r.log| - 1].dst == r.src)
  }

  /** Termination measure of the do-while loop: the count left, plus one
      before the first pass. */
  function Pending(r: MaxLoop): nat {
    r.size + (if r.cnt == 0 then 1 else 0)
  }

  /** The loop variables before the first pass: nothing launched, `cnt`
      is 0, `size` is the whole map, and the slots hold `d_gradient` and
      `d_tmp_channels[0]`. */
  method StartMaxLoop(m: Memory, n: nat) returns (r: MaxLoop)
    ensures OnTrack(m, n, MaxChain(m(Gradient), n), Passes(n), r)
    ensures r.mem == m && r.cnt == 0 && r.size == n
  {
    r := MaxLoop(m, [], 0, n, Gradient, Tmp(0));
    ReductionProgressStart(m(Gradient), n);
  }

  /** The do-while loop: passes run while none has run yet or more than
      one partial maximum is left, and each keeps the reduction on track. */
  method RunMaxLoop(m: Memory, n: nat, ghost goal: Contents, ghost passes: nat, r0: MaxLoop) returns (r: MaxLoop)
    requires n + (BlockThreads - 1) <= IntMax
    requires OnTrack(m, n, goal, passes, r0)
    ensures OnTrack(m, n, goal, passes, r) && !(r.cnt == 0 || r.size > 1)
    ensures r.size == (if n == 0 then 0 else 1)
    decreases Pending(r0)
  {
    r := r0;
    while r.cnt == 0 || r.size > 1
      invariant OnTrack(m, n, goal, passes, r)
      decreases Pending(r)
    {
      r := ReductionPass(m, n, goal, passes, r);
    }
  }

  /** One iteration of the do-while body: parallel_max over `size`
      elements from `args4[0]` into `args4[2]`, `size` shrinks to the number
      of blocks, the slots move to `d_tmp_channels[cnt&1]` and
      `d_tmp_channels[(cnt&1)^1]`, and `cnt` is incremented. */
  method ReductionPass(m: Memory, n: nat, ghost goal: Contents, ghost passes: nat, r: MaxLoop) returns (r': MaxLoop)
    requires n + (BlockThreads - 1) <= IntMax
    requires OnTrack(m, n, goal, passes, r) && (r.cnt == 0 || r.size > 1)
    ensures OnTrack(m, n, goal, passes, r') && Pending(r') < Pending(r)
  {
    ReductionProgressStep(goal, passes, r.mem(r.src), r.size, r.cnt);
    var l := LinearLaunch(ParallelMax, [r.src], r.dst, r.size);
    var mem := Exec(r.mem, l);
    LogSnoc(r.log, l, ParallelMax, r.cnt);
    var size := NextSize(r.size);
    r' := MaxLoop(mem, r.log + [l], r.cnt + 1, size, Tmp(LowBit(r.cnt)), Tmp(FlipBit(LowBit(r.cnt))));
  }

  /** divide_all: the smoothed map in `d_gradient` scaled in place by the
      maximum in `maxBuf`, over all `n` pixels. */
  method NormalizeStage(m: Memory, n: nat, maxBuf: BufferId) returns (m': Memory, ls: seq<Launch>)
    requires maxBuf != Gradient
    ensures m'(Gradient) == Divided(m(Gradient), n, m(maxBuf))
    ensures Keeps(m, m', {Gradient})
    ensures Kernels(ls) == [DivideAll] && AllSafe(ls)
  {
    var l := LinearLaunch(DivideAll, [Gradient, maxBuf], Gradient, n);
    m' := Exec(m, l);
    ls := [l];
  }

  /** The buffers compute_gradients writes: `d_tmp_channels` and `d_gradient`. */
  const Scratch: set<BufferId> := {Tmp(0), Tmp(1), Tmp(2), Gradient}

  /** The first half of compute_gradients: Sobel per channel, channel
      mixing, and the eight blur passes. `d_gradient` ends holding the
      blurred edge map of the three working planes. */
  method SmoothedEdgeMap(m: Memory, rows: nat, cols: nat) returns (m': Memory, ls: seq<Launch>)
    ensures m'(Gradient) == BlurredTimes(EdgeMap(m(Chan(0)), m(Chan(1)), m(Chan(2)), rows, cols), SmoothingPasses, rows, cols)
    ensures Keeps(m, m', Scratch)
    ensures Kernels(ls) == Repeat(SobelFilter, 3) + [MixChannels] + Repeat(BlurFilter, SmoothingPasses)
    ensures AllSafe(ls)
  {
    var m1, ls1 := SobelStage(m, rows, cols);
    var m2, ls2 := MixStage(m1, rows * cols);
    assert m2(Gradient) == EdgeMap(m(Chan(0)), m(Chan(1)), m(Chan(2)), rows, cols);
    var ls3;
    m', ls3 := BlurStage(m2, rows, cols);
    KeepsTrans(m, m1, m2, {Tmp(0), Tmp(1), Tmp(2)}, {Gradient});
    KeepsTrans(m, m2, m', {Tmp(0), Tmp(1), Tmp(2)} + {Gradient}, {Gradient, Tmp(0)});
    assert {Tmp(0), Tmp(1), Tmp(2)} + {Gradient} + {Gradient, Tmp(0)} == Scratch;
    ls := ls1 + ls2 + ls3;
    KernelsConcat(ls1, ls2);
    KernelsConcat(ls1 + ls2, ls3);
  }

  /** The second half of compute_gradients: the maximum reduction over the
      `n`-pixel map in `d_gradient`, `size` restored to `n`, and divide_all
      with the buffer the last reduction pass wrote as the divisor. */
  method NormalizeByMax(m: Memory, n: nat) returns (m': Memory, ls: seq<Launch>)
    requires n + (BlockThreads - 1) <= IntMax
    ensures m'(Gradient) == Divided(m(Gradient), n, MaxChain(m(Gradient), n))
    ensures Keeps(m, m', {Tmp(0), Tmp(1), Gradient})
    ensures Kernels(ls) == Repeat(ParallelMax, Passes(n)) + [DivideAll]
    ensures AllSafe(ls)
  {
    var m1, ls1, cnt, size := ReduceMax(m, n);
    size := n;
    var ls2;
    m', ls2 := NormalizeStage(m1, size, Tmp(FlipBit(LowBit(cnt))));
    KeepsTrans(m, m1, m', {Tmp(0), Tmp(1)}, {Gradient});
    assert {Tmp(0), Tmp(1)} + {Gradient} == {Tmp(0), Tmp(1), Gradient};
    ls := ls1 + ls2;
    KernelsConcat(ls1, ls2);
  }

  /** compute_gradients: Sobel, mix, eight blur passes, the maximum
      reduction, and normalisation. `d_gradient` ends holding the normalised
      edge map of the three working planes; only `d_tmp_channels` and
      `d_gradient` are written, so the working planes and the output buffers
      are untouched. */
  method ComputeGradients(st: State) returns (st': State, ls: seq<Launch>)
    requires ValidDims(st.dimY, st.dimX)
    ensures st'.host == st.host && st'.dimY == st.dimY && st'.dimX == st.dimX
    ensures st'.mem(Gradient)
         == NormalizedEdges(st.mem(Chan(0)), st.mem(Chan(1)), st.mem(Chan(2)), st.dimY, st.dimX)
    ensures Keeps(st.mem, st'.mem, Scratch)
    ensures Kernels(ls) == GradientKernels(st.dimY * st.dimX) && AllSafe(ls)
  {
    var rows: nat, cols: nat := st.dimY, st.dimX;
    var m1, ls1 := SmoothedEdgeMap(st.mem, rows, cols);
    var m2, ls2 := NormalizeByMax(m1, rows * cols);
    KeepsTrans(st.mem, m1, m2, Scratch, {Tmp(0), Tmp(1), Gradient});
    assert Scratch + {Tmp(0), Tmp(1), Gradient} == Scratch;
    ls := ls1 + ls2;
    KernelsConcat(ls1, ls2);
    st' := State(st.host, m2, st.dimY, st.dimX);
  }

  // ---------------------------------------------------------------------
  // sharpen_or_blur
  // ---------------------------------------------------------------------

  /** smoothen on every channel: reads `d_channels[c]` and `d_gradient`,
      writes `d_uchar_channels[c]`. */
  method SharpenOrBlur(m: Memory, rows: nat, cols: nat) returns (m': Memory, ls: seq<Launch>)
    ensures forall c: Channel :: m'(UChar(c)) == Smoothed(m(Chan(c)), rows, cols, m(Gradient))
    ensures Keeps(m, m', {UChar(0), UChar(1), UChar(2)})
    ensures Kernels(ls) == Repeat(Smoothen, 3) && AllSafe(ls)
  {
    m', ls := m, [];
    for c := 0 to 3
      invariant forall b: BufferId :: b.UChar? && b.c < c ==> m'(b) == Smoothed(m(Chan(b.c)), rows, cols, m(Gradient))
      invariant forall b: BufferId :: !(b.UChar? && b.c < c) ==> m'(b) == m(b)
      invariant Kernels(ls) == Repeat(Smoothen, c) && AllSafe(ls)
    {
      m', ls := SmoothenChannel(m', ls, c, rows, cols);
    }
    forall b | b !in {UChar(0), UChar(1), UChar(2)}
      ensures m'(b) == m(b)
    {
      match b
      case UChar(_) => assert false;
      case _ =>
    }
  }

  /** One iteration of the smoothen loop: `d_channels[c]` weighted by
      `d_gradient` into `d_uchar_channels[c]`, logged as the smoothen launch
      number `c`. */
  method SmoothenChannel(m: Memory, ls: seq<Launch>, c: Channel, rows: nat, cols: nat) returns (m': Memory, ls': seq<Launch>)
    requires Kernels(ls) == Repeat(Smoothen, c) && AllSafe(ls)
    ensures m'(UChar(c)) == Smoothed(m(Chan(c)), rows, cols, m(Gradient))
    ensures forall b: BufferId :: b != UChar(c) ==> m'(b) == m(b)
    ensures Kernels(ls') == Repeat(Smoothen, c + 1) && AllSafe(ls')
  {
    var l := TiledLaunch(Smoothen, [Chan(c), Gradient], UChar(c), rows, cols);
    m' := Exec(m, l);
    LogSnoc(ls, l, Smoothen, c);
    ls' := ls + [l];
  }

  // ---------------------------------------------------------------------
  // enhance_image
  // ---------------------------------------------------------------------

  /** How a run ends: `cuda_init` failed and the process exits with
      `EXIT_FAILURE` before touching the image, or the pipeline completed
      and the caller's planes now hold `planes`. `launches` records every
      kernel launch in order. */
  datatype Outcome = InitFailed | Completed(planes: seq<Contents>, launches: seq<Launch>)

  /** The device half of enhance_image: compute_gradients followed by
      sharpen_or_blur, on the working planes `prepare` copied in. Each output
      buffer ends holding smoothen of its own channel weighted by the
      normalised edge map, and the launches run in pipeline order. */
  method FilterOnDevice(st: State) returns (m: Memory, ls: seq<Launch>)
    requires ValidDims(st.dimY, st.dimX)
    ensures var edges := NormalizedEdges(st.mem(Chan(0)), st.mem(Chan(1)), st.mem(Chan(2)), st.dimY, st.dimX);
      forall c: Channel :: m(UChar(c)) == Smoothed(st.mem(Chan(c)), st.dimY, st.dimX, edges)
    ensures Kernels(ls) == PipelineKernels(st.dimY * st.dimX) && AllSafe(ls)
  {
    var st2, ls1 := ComputeGradients(st);
    var ls2;
    m, ls2 := SharpenOrBlur(st2.mem, st.dimY, st.dimX);
    KernelsConcat(ls1, ls2);
    ls := ls1 + ls2;
  }

  /** enhance_image: init, allocate, prepare, compute_gradients,
      sharpen_or_blur, save_at, cleanup. The backend bootstrap is the
      parameter `backendReady`. On success each output plane is smoothen of
      its own working plane weighted by the normalised edge map of all
      three, every launch is safe, and the kernels run in pipeline order. */
  method EnhanceImage(backendReady: bool, chars: seq<seq<Byte>>, dimy: int, dimx: int) returns (out: Outcome)
    requires ValidDims(dimy, dimx)
    requires |chars| == 3 && forall c :: 0 <= c < 3 ==> |chars[c]| >= dimy * dimx
    ensures !backendReady <==> out == InitFailed
    ensures out.Completed? ==>
      && |out.planes| == 3
      && (forall c: Channel :: out.planes[c] == FilteredPlane(InputPlanes(chars, dimy * dimx), c, dimy, dimx))
      && AllSafe(out.launches)
      && Kernels(out.launches) == PipelineKernels(dimy * dimx)
  {
    if !backendReady {
      return InitFailed;
    }
    var n := dimy * dimx;
    var st0 := Allocate(n);
    var st1 := Prepare(st0, chars, dimy, dimx);
    var m, ls := FilterOnDevice(st1);
    // save_at: the caller's planes receive d_uchar_channels.
    out := Completed([m(UChar(0)), m(UChar(1)), m(UChar(2))], ls);
  }
}
