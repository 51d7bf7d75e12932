/**
 * `clblast/src/max.rs`: the `VectorMaxIndex` descriptor, the index of the
 * largest value (`IxMAX`). It shares the builder and the `run` shape of
 * `Level1.RunReduction`: the guard measures `imax_vector` instead of x,
 * and the x stride and offset trade places in the call.
 */
module Max {
  import opened ClblastC
  import opened StatusTranslation
  import opened Native
  import opened Level1

  /** The entry point each scalar type's `run` calls. */
  function Entry(p: Precision): (e: Entry)
    ensures RoutineOf(e) == Xmax && EntryPrecision(e) == p
  {
    match p
    case F32 => CLBlastiSmax
    case F64 => CLBlastiDmax
    case Complex32 => CLBlastiCmax
    case Complex64 => CLBlastiZmax
  }

  /**
   * `run` for every scalar type: panics unless the output buffer is
   * strictly longer than `n * x_stride`; the call passes `x_stride` as the
   * x offset and `x_offset` as the x increment.
   */
  function Run(d: Reduction, status: int): (r: Guarded<Invocation>)
    ensures r.Panic? <==> d.result.buffer.len <= d.n * d.xStride
    ensures r.Panic? ==> r.message == XTooShort
    ensures r.Returned? ==> r.value.call.entry == Entry(d.precision) && r.value.call.queue == d.queue
    ensures r.Returned? ==> ReduceArgs(r.value.call.args, d.n, d.result.buffer, d.result.offset,
                                       d.x.buffer, d.xStride, d.x.offset)
    ensures r.Returned? ==> r.value.result == ErrorFromCEither(status)
  {
    RunReduction(Entry(d.precision), d, status)
  }

  /** Each scalar type reaches its own entry point. */
  lemma EntryInjective(p: Precision, q: Precision)
    requires Entry(p) == Entry(q)
    ensures p == q
  {
  }
}
