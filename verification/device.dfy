/** The device as the host code sees it: ten named buffers holding opaque
    contents, and kernel launches that overwrite one buffer from others.

    The kernels' bodies are not part of this model, so what a launch writes is
    recorded symbolically: a `Contents` value names the kernel that produced
    it and the contents it read. This is the free (most general) reading of
    the kernels as uninterpreted functions: two buffers hold equal contents
    only if they were computed the same way from the same inputs.
 */
module Gpu {
  import opened Geometry

  /** One of the three colour channels. */
  type Channel = c: nat | c < 3

  /** The device buffers: `d_channels[c]`, `d_tmp_channels[c]`, `d_gradient`
      and `d_uchar_channels[c]`. */
  datatype BufferId = Chan(c: Channel) | Tmp(c: Channel) | Gradient | UChar(c: Channel)

  /** The kernels loaded from the compute module. */
  datatype Kernel = SobelFilter | MixChannels | BlurFilter | ParallelMax | DivideAll | Smoothen

  /** The size arguments passed to a kernel: a plane of `rows` x `cols`
      pixels for the tiled kernels, a flat element count for the others. */
  datatype Shape = Plane(rows: nat, cols: nat) | Flat(count: nat)

  /** Opaque buffer contents. */
  datatype Contents =
    | Unset(id: BufferId)                                          // as cuMemAlloc left it
    | Samples(values: seq<real>)                                   // copied from the host
    | Sobel(src: Contents, rows: nat, cols: nat)                   // sobel_filter
    | Mixed(r: Contents, g: Contents, b: Contents, count: nat)     // mix_channels
    | Blurred(src: Contents, rows: nat, cols: nat)                 // blur_filter
    | BlockMax(src: Contents, count: nat)                          // parallel_max
    | Divided(src: Contents, count: nat, max: Contents)            // divide_all
    | Smoothed(src: Contents, rows: nat, cols: nat, weights: Contents) // smoothen

  /** A kernel launch: the kernel, the buffers it reads (in argument order),
      the buffer it writes, its size arguments, its geometry and its dynamic
      shared-memory size in bytes. */
  datatype Launch = Launch(
    kernel: Kernel,
    srcs: seq<BufferId>,
    dst: BufferId,
    shape: Shape,
    grid: Dim3,
    block: Dim3,
    sharedBytes: nat)

  /** Device memory: the contents of every buffer. `allocate` creates every
      buffer before any kernel runs, so memory is total. */
  type Memory = BufferId -> Contents

  /** Memory right after `allocate`: no buffer written yet. */
  function Fresh(): Memory {
    b => Unset(b)
  }

  /** Number of buffers a kernel reads. */
  function Arity(k: Kernel): nat {
    match k
    case SobelFilter => 1
    case MixChannels => 3
    case BlurFilter => 1
    case ParallelMax => 1
    case DivideAll => 2
    case Smoothen => 2
  }

  /** The kernels launched over 32x32 tiles of a plane. */
  predicate Tiled(k: Kernel) {
    k == SobelFilter || k == BlurFilter || k == Smoothen
  }

  /** The launch passes as many buffers as its kernel reads, and size
      arguments of the kind the kernel takes. */
  predicate WellTyped(l: Launch) {
    |l.srcs| == Arity(l.kernel) && (l.shape.Plane? <==> Tiled(l.kernel))
  }

  /** The grid covers every pixel (or element) and overshoots by less than
      one block in every direction. */
  predicate Covers(l: Launch) {
    match l.shape
    case Plane(rows, cols) =>
      && l.block == TileBlock
      && cols <= l.grid.x * Tile < cols + Tile
      && rows <= l.grid.y * Tile < rows + Tile
      && l.grid.z == 1
    case Flat(n) =>
      && l.block == LinearBlock
      && n <= l.grid.x * BlockThreads < n + BlockThreads
      && l.grid.y == 1 && l.grid.z == 1
  }

  /** No kernel writes a buffer it reads, except divide_all, which scales its
      data buffer in place element by element and must not be handed its
      own data buffer as the divisor. */
  predicate NoAliasing(l: Launch) {
    if l.kernel == DivideAll then
      |l.srcs| == 2 && l.dst == l.srcs[0] && l.srcs[1] != l.dst
    else
      l.dst !in l.srcs
  }

  /** parallel_max gets one double (8 bytes) of shared scratch per thread;
      the other kernels get none. */
  predicate SharedFits(l: Launch) {
    if l.kernel == ParallelMax then l.sharedBytes == 8 * l.block.x else l.sharedBytes == 0
  }

  /** A launch that is well typed, covers its data, does not alias and has
      the scratch it needs. */
  predicate Safe(l: Launch) {
    WellTyped(l) && Covers(l) && NoAliasing(l) && SharedFits(l)
  }

  /** What a launch writes into its destination, given the memory it reads. */
  function Apply(l: Launch, mem: Memory): Contents
    requires WellTyped(l)
  {
    var s := l.srcs;
    match l.kernel
    case SobelFilter => Sobel(mem(s[0]), l.shape.rows, l.shape.cols)
    case MixChannels => Mixed(mem(s[0]), mem(s[1]), mem(s[2]), l.shape.count)
    case BlurFilter => Blurred(mem(s[0]), l.shape.rows, l.shape.cols)
    case ParallelMax => BlockMax(mem(s[0]), l.shape.count)
    case DivideAll => Divided(mem(s[0]), l.shape.count, mem(s[1]))
    case Smoothen => Smoothed(mem(s[0]), l.shape.rows, l.shape.cols, mem(s[1]))
  }

  /** A kernel launch followed by `cuCtxSynchronize`: the destination holds
      the kernel's result and every other buffer is untouched. */
  function Exec(mem: Memory, l: Launch): (mem': Memory)
    requires WellTyped(l)
    ensures mem'(l.dst) == Apply(l, mem)
    ensures forall b: BufferId :: b != l.dst ==> mem'(b) == mem(b)
  {
    var v := Apply(l, mem);
    b => if b == l.dst then v else mem(b)
  }

  /** `cuMemcpyHtoD` of a whole host array into buffer `b`. */
  function CopyIn(mem: Memory, b: BufferId, values: seq<real>): (mem': Memory)
    ensures mem'(b) == Samples(values)
    ensures forall b': BufferId :: b' != b ==> mem'(b') == mem(b')
  {
    b' => if b' == b then Samples(values) else mem(b')
  }

  /** Only the buffers in `w` may differ between `m` and `m'`. */
  ghost predicate Keeps(m: Memory, m': Memory, w: set<BufferId>) {
    forall b :: b !in w ==> m'(b) == m(b)
  }

  lemma KeepsTrans(m1: Memory, m2: Memory, m3: Memory, w1: set<BufferId>, w2: set<BufferId>)
    requires Keeps(m1, m2, w1) && Keeps(m2, m3, w2)
    ensures Keeps(m1, m3, w1 + w2)
  {
  }

  /** A launch over 32x32 tiles of a `rows` x `cols` plane. */
  function TiledLaunch(k: Kernel, srcs: seq<BufferId>, dst: BufferId, rows: nat, cols: nat): (l: Launch)
    requires Tiled(k) && |srcs| == Arity(k) && dst !in srcs
    ensures Safe(l)
    ensures l.kernel == k && l.srcs == srcs && l.dst == dst && l.shape == Plane(rows, cols)
  {
    Launch(k, srcs, dst, Plane(rows, cols), TileGrid(rows, cols), TileBlock, 0)
  }

  /** A launch over `n` elements in blocks of 1024 threads; parallel_max
      additionally gets `1024*sizeof(double)` bytes of shared scratch. */
  function LinearLaunch(k: Kernel, srcs: seq<BufferId>, dst: BufferId, n: nat): (l: Launch)
    requires !Tiled(k) && |srcs| == Arity(k)
    requires if k == DivideAll then dst == srcs[0] && srcs[1] != dst else dst !in srcs
    ensures Safe(l)
    ensures l.kernel == k && l.srcs == srcs && l.dst == dst && l.shape == Flat(n)
  {
    var shared := if k == ParallelMax then BlockThreads * 8 else 0;
    Launch(k, srcs, dst, Flat(n), LinearGrid(n), LinearBlock, shared)
  }

  /** Every launch of `ls` is safe. */
  ghost predicate AllSafe(ls: seq<Launch>) {
    forall l :: l in ls ==> Safe(l)
  }

  /** The kernels of a sequence of launches, in launch order. */
  function Kernels(ls: seq<Launch>): seq<Kernel> {
    seq(|ls|, i requires 0 <= i < |ls| => ls[i].kernel)
  }

  lemma KernelsConcat(a: seq<Launch>, b: seq<Launch>)
    ensures Kernels(a + b) == Kernels(a) + Kernels(b)
  {
  }

  /** `k` repeated `n` times. */
  function Repeat(k: Kernel, n: nat): seq<Kernel> {
    seq(n, _ => k)
  }

  lemma RepeatSnoc(k: Kernel, n: nat)
    ensures Repeat(k, n) + [k] == Repeat(k, n + 1)
  {
  }

  /** Appending one more safe launch of `k` to a log of `n` safe launches
      of `k` gives a log of `n + 1` safe launches of `k`. */
  lemma LogSnoc(ls: seq<Launch>, l: Launch, k: Kernel, n: nat)
    requires Kernels(ls) == Repeat(k, n) && AllSafe(ls)
    requires l.kernel == k && Safe(l)
    ensures Kernels(ls + [l]) == Repeat(k, n + 1) && AllSafe(ls + [l])
  {
    KernelsConcat(ls, [l]);
    RepeatSnoc(k, n);
  }
}
