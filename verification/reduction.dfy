/** The multi-pass maximum reduction: how the element count shrinks from pass
    to pass, how many passes the host loop runs, and why composing passes
    yields the global maximum once the per-block contract of the
    parallel_max kernel is granted.
 */
module Reduction {
  import opened Geometry

  /** The element count after one pass, `size = (size + 1023)/1024`: one
      partial maximum per block. It is strictly smaller while it exceeds 1,
      and 1 (or 0) is a fixed point. */
  function NextSize(n: nat): (r: nat)
    ensures n <= r * BlockThreads < n + BlockThreads
    ensures n > 1 ==> 1 <= r < n
    ensures n <= 1 ==> r == n
  {
    (n + BlockThreads - 1) / BlockThreads
  }

  /** Number of passes the do-while loop of compute_gradients runs on `n`
      elements: always at least one, then one more for as long as the
      count left behind exceeds 1. */
  function Passes(n: nat): (p: nat)
    ensures p >= 1
    decreases n
  {
    var s := NextSize(n);
    if s > 1 then 1 + Passes(s) else 1
  }

  /** The element count after `k` passes. */
  function SizeAfter(n: nat, k: nat): nat {
    if k == 0 then n else NextSize(SizeAfter(n, k - 1))
  }

  /** Running `Passes(n)` passes leaves exactly one element (none if there
      were none), and every earlier pass left more than one, which is why the
      loop did not stop there. */
  lemma {:induction false} PassesReachOne(n: nat)
    ensures SizeAfter(n, Passes(n)) == (if n == 0 then 0 else 1)
    ensures forall k :: 1 <= k < Passes(n) ==> SizeAfter(n, k) > 1
    decreases n
  {
    var s := NextSize(n);
    if s > 1 {
      PassesReachOne(s);
      forall k: nat | k <= Passes(s)
        ensures SizeAfter(n, k + 1) == SizeAfter(s, k)
      {
        SizeAfterShift(n, k);
      }
      forall k | 1 <= k < Passes(n)
        ensures SizeAfter(n, k) > 1
      {
        if k > 1 { SizeAfterShift(n, k - 1); }
      }
    }
  }

  /** Running one pass first and `k` passes afterwards is running `k + 1`. */
  lemma {:induction false} SizeAfterShift(n: nat, k: nat)
    ensures SizeAfter(n, k + 1) == SizeAfter(NextSize(n), k)
    decreases k
  {
    if k > 0 {
      SizeAfterShift(n, k - 1);
    }
  }

  /** For any element count a C `int` can hold, the loop runs at most four
      passes (1024^3 < 2^31 <= 1024^4). */
  lemma PassesAtMostFour(n: nat)
    requires n <= IntMax
    ensures Passes(n) <= 4
  {
    var s1 := NextSize(n);
    var s2 := NextSize(s1);
    var s3 := NextSize(s2);
    assert s1 <= 0x20_0000;
    assert s2 <= 0x800;
    assert s3 <= 2;
    assert Passes(s3) == 1;
    assert Passes(s2) <= 2;
    assert Passes(s1) <= 3;
  }

  // ---------------------------------------------------------------------
  // Values: the global maximum from per-block maxima.
  // ---------------------------------------------------------------------

  /** `m` is the maximum of `s`: an element of it, and no element exceeds it. */
  ghost predicate IsMax(m: real, s: seq<real>) {
    m in s && forall x :: x in s ==> x <= m
  }

  /** Block `b` of `s`: the elements `b*1024 .. min((b+1)*1024, |s|)`. */
  function Block(s: seq<real>, b: nat): (blk: seq<real>)
    requires b < NextSize(|s|)
    ensures 0 < |blk| <= BlockThreads
    ensures forall x :: x in blk ==> x in s
  {
    var lo := b * BlockThreads;
    var hi := if (b + 1) * BlockThreads < |s| then (b + 1) * BlockThreads else |s|;
    s[lo..hi]
  }

  /** Element `i` of `s` lies in block `i / 1024`. */
  lemma InItsBlock(s: seq<real>, i: nat)
    requires i < |s|
    ensures i / BlockThreads < NextSize(|s|)
    ensures s[i] in Block(s, i / BlockThreads)
  {
    var b := i / BlockThreads;
    EveryElementHasThread(|s|, i);
    assert Block(s, b)[i - b * BlockThreads] == s[i];
  }

  /** ASSUMED CONTRACT of the parallel_max kernel, whose body is not part of
      this model: one pass over `inp` writes one element per 1024-element
      block, and that element is the maximum of its block. */
  ghost predicate ParallelMaxContract(out: seq<real>, inp: seq<real>) {
    && |out| == NextSize(|inp|)
    && forall b :: 0 <= b < |out| ==> IsMax(out[b], Block(inp, b))
  }

  /** Under the assumed kernel contract, one pass keeps the maximum: `m` is
      the maximum of the pass's output exactly when it is the maximum of its
      input. */
  lemma OnePassKeepsMax(inp: seq<real>, out: seq<real>, m: real)
    requires ParallelMaxContract(out, inp)
    ensures IsMax(m, out) <==> IsMax(m, inp)
  {
    if IsMax(m, out) {
      var b :| 0 <= b < |out| && out[b] == m;
      assert m in Block(inp, b);
      forall x | x in inp
        ensures x <= m
      {
        var i :| 0 <= i < |inp| && inp[i] == x;
        InItsBlock(inp, i);
        assert out[i / BlockThreads] in out;
      }
    }
    if IsMax(m, inp) {
      var i :| 0 <= i < |inp| && inp[i] == m;
      InItsBlock(inp, i);
      var b := i / BlockThreads;
      assert out[b] in Block(inp, b);
      assert out[b] == m;
      forall y | y in out
        ensures y <= m
      {
        var c :| 0 <= c < |out| && out[c] == y;
        assert y in Block(inp, c);
      }
    }
  }

  /** Composing the passes the host loop runs gives the global maximum,
      ASSUMING every pass of the unseen parallel_max kernel meets
      `ParallelMaxContract`: `layers[0]` is the smoothed edge map, `layers[k+1]`
      the buffer written by pass k, and there are `Passes(|layers[0]|)`
      passes. The last buffer then holds a single element, the maximum of the
      whole map, whether or not its size is a multiple of 1024. */
  lemma {:induction false} ComposedPassesGiveGlobalMax(layers: seq<seq<real>>)
    requires |layers| > 0 && |layers[0]| > 0
    requires |layers| == Passes(|layers[0]|) + 1
    requires forall k :: 0 <= k < |layers| - 1 ==> ParallelMaxContract(layers[k + 1], layers[k])
    ensures |layers[|layers| - 1]| == 1
    ensures IsMax(layers[|layers| - 1][0], layers[0])
    decreases |layers|
  {
    var last := layers[|layers| - 1];
    assert ParallelMaxContract(layers[1], layers[0]);
    var s := NextSize(|layers[0]|);
    if s > 1 {
      var rest := layers[1..];
      assert rest[|rest| - 1] == last;
      forall k | 0 <= k < |rest| - 1
        ensures ParallelMaxContract(rest[k + 1], rest[k])
      {
        assert rest[k + 1] == layers[k + 2] && rest[k] == layers[k + 1];
      }
      ComposedPassesGiveGlobalMax(rest);
      OnePassKeepsMax(layers[0], layers[1], last[0]);
    } else {
      assert |layers| == 2;
      assert IsMax(last[0], last);
      OnePassKeepsMax(layers[0], layers[1], last[0]);
    }
  }
}
