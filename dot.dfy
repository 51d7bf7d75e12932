/** `clblast/src/dot.rs`: the `VectorDot` descriptor, `x · y` for every scalar type (`xDOT`/`xDOTU`). */
module Dot {
  import opened Wrappers
  import opened ClblastC
  import opened StatusTranslation
  import opened Native
  import opened Level1

  /** The entry point each scalar type's `run` calls: unconjugated for the complex types. */
  function Entry(p: Precision): (e: Entry)
    ensures RoutineOf(e) == Xdot && EntryPrecision(e) == p
  {
    match p
    case F32 => CLBlastSdot
    case F64 => CLBlastDdot
    case Complex32 => CLBlastCdotu
    case Complex64 => CLBlastZdotu
  }

  /**
   * `run` for every scalar type: `assert_dimensions` (x, then y, strictly
   * longer than `n * stride`), then the call through `Level1.RunDot`.
   */
  function Run(d: VectorDot, status: int): (r: Guarded<Invocation>)
    ensures r.Panic? <==> d.x.buffer.len <= d.n * d.xStride || d.y.buffer.len <= d.n * d.yStride
    ensures r.Panic? ==> r == Panic(if LongerThan(d.x, d.n, d.xStride) then YTooShort else XTooShort)
    ensures r.Returned? ==> r.value.call.entry == Entry(d.precision) && r.value.call.queue == d.queue
    ensures r.Returned? ==> DotArgs(r.value.call.args, d.n, d.dot.buffer, d.dot.offset,
                                    d.x.buffer, d.x.offset, d.xStride, d.y.buffer, d.y.offset, d.yStride)
    ensures r.Returned? ==> r.value.result == ErrorFromCEither(status)
  {
    RunDot(Entry(d.precision), d, status)
  }

  /** Each scalar type reaches its own entry point. */
  lemma EntryInjective(p: Precision, q: Precision)
    requires Entry(p) == Entry(q)
    ensures p == q
  {
  }

  /** Whether `run` panics depends neither on the offsets nor on the dot buffer. */
  lemma GuardIgnoresOffsetsAndResult(d: VectorDot, dot: VectorBuffer, xOffset: nat, yOffset: nat, status: int)
    ensures Run(d.(dot := dot, x := d.x.(offset := xOffset), y := d.y.(offset := yOffset)), status).Panic?
        <==> Run(d, status).Panic?
  {
  }

  /**
   * The unit test's set-up: n = 10 over 20-element buffers with the
   * default strides passes the guard, and the call carries unit increments.
   */
  lemma TestSetupPasses(queue: Queue, p: Precision, dot: VectorBuffer, x: VectorBuffer, y: VectorBuffer, status: int)
    requires x.buffer.len == 20 && y.buffer.len == 20
    ensures Run(BuildDot(queue, p, 10, dot, x, y, None, None), status).Returned?
    ensures Passes(Run(BuildDot(queue, p, 10, dot, x, y, None, None), status).value.call.args, XInc, Size(1))
    ensures Passes(Run(BuildDot(queue, p, 10, dot, x, y, None, None), status).value.call.args, YInc, Size(1))
  {
  }
}
