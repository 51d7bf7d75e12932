/** `clblast/src/swap.rs`: the `VectorSwap` descriptor, which interchanges x and y (`xSWAP`). */
module Swap {
  import opened Wrappers
  import opened ClblastC
  import opened StatusTranslation
  import opened Native
  import opened Level1

  /** The entry point each scalar type's `run` calls. */
  function Entry(p: Precision): (e: Entry)
    ensures RoutineOf(e) == Xswap && EntryPrecision(e) == p
  {
    match p
    case F32 => CLBlastSswap
    case F64 => CLBlastDswap
    case Complex32 => CLBlastCswap
    case Complex64 => CLBlastZswap
  }

  /**
   * `run` for every scalar type: x, then y, must be strictly longer than
   * `n * stride`, then one call with n, x with its offset and stride, and
   * y with its offset and stride.
   */
  function Run(d: VectorPair, status: int): (r: Guarded<Invocation>)
    ensures r.Panic? <==> d.x.buffer.len <= d.n * d.xStride || d.y.buffer.len <= d.n * d.yStride
    ensures r.Panic? ==> r == Panic(if LongerThan(d.x, d.n, d.xStride) then YTooShort else XTooShort)
    ensures r.Returned? ==> r.value.call.entry == Entry(d.precision) && r.value.call.queue == d.queue
    ensures r.Returned? ==> PairArgs(r.value.call.args, d.n, d.x.buffer, d.x.offset, d.xStride,
                                     d.y.buffer, d.y.offset, d.yStride)
    ensures r.Returned? ==> r.value.result == ErrorFromCEither(status)
  {
    RunPair(Entry(d.precision), d, status)
  }

  /** Each scalar type reaches its own entry point. */
  lemma EntryInjective(p: Precision, q: Precision)
    requires Entry(p) == Entry(q)
    ensures p == q
  {
  }

  /** A buffer of exactly `n * stride` elements is rejected: the comparison is strict. */
  lemma ExactLengthRejected(d: VectorPair, status: int)
    requires d.x.buffer.len == d.n * d.xStride || d.y.buffer.len == d.n * d.yStride
    ensures Run(d, status).Panic?
  {
  }

  /**
   * A partly filled `VectorSwapBuilder`: the scalar type is fixed by the
   * type parameter, every field is either set or not yet set.
   */
  datatype VectorSwapBuilder = VectorSwapBuilder(
    precision: Precision, queue: Option<Queue>, n: Option<nat>,
    x: Option<VectorBuffer>, y: Option<VectorBuffer>, xStride: Option<nat>, yStride: Option<nat>)

  /** `SwapExecutor::vector_swap`: a builder with only the queue set. */
  function VectorSwap(queue: Queue, precision: Precision): (b: VectorSwapBuilder)
    ensures b.precision == precision && b.queue == Some(queue)
    ensures b.n.None? && b.x.None? && b.y.None? && b.xStride.None? && b.yStride.None?
  {
    VectorSwapBuilder(precision, Some(queue), None, None, None, None, None)
  }

  /** `build`: the queue, n, x and y must have been set; the strides fall back to 1. */
  function Build(b: VectorSwapBuilder): (d: VectorPair)
    requires b.queue.Some? && b.n.Some? && b.x.Some? && b.y.Some?
    ensures d.queue == b.queue.value && d.precision == b.precision && d.n == b.n.value
    ensures d.x == b.x.value && d.y == b.y.value
    ensures d.xStride == (if b.xStride.Some? then b.xStride.value else 1)
    ensures d.yStride == (if b.yStride.Some? then b.yStride.value else 1)
  {
    BuildPair(b.queue.value, b.precision, b.n.value, b.x.value, b.y.value, b.xStride, b.yStride)
  }

  /**
   * The unit test's set-up: from `vector_swap` with x, y and n = 10 set over
   * 20-element buffers, the guard passes and the call is `Sswap` with unit
   * increments on the receiver queue.
   */
  lemma TestSetupPasses(queue: Queue, x: VectorBuffer, y: VectorBuffer, status: int)
    requires x.buffer.len == 20 && y.buffer.len == 20
    ensures var d := Build(VectorSwap(queue, F32).(x := Some(x), y := Some(y), n := Some(10)));
            && Run(d, status).Returned?
            && Run(d, status).value.call.entry == CLBlastSswap
            && Run(d, status).value.call.queue == queue
            && Passes(Run(d, status).value.call.args, XInc, Size(1))
            && Passes(Run(d, status).value.call.args, YInc, Size(1))
  {
  }
}
