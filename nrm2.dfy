/**
 * `clblast/src/nrm2.rs`: the `VectorEuclidianNorm` descriptor, the
 * Euclidean norm of x (`xNRM2`). Unlike the other reductions it measures x
 * and passes the x offset before the stride; its panic message names y.
 */
module Nrm2 {
  import opened Wrappers
  import opened ClblastC
  import opened StatusTranslation
  import opened Native
  import opened Level1

  /** The entry point each scalar type's `run` calls. */
  function Entry(p: Precision): (e: Entry)
    ensures RoutineOf(e) == Xnrm2 && EntryPrecision(e) == p
  {
    match p
    case F32 => CLBlastSnrm2
    case F64 => CLBlastDnrm2
    case Complex32 => CLBlastScnrm2
    case Complex64 => CLBlastDznrm2
  }

  /**
   * `run` for every scalar type: x must be strictly longer than
   * `n * x_stride` (the output buffer is not measured); then one call with
   * n, the output buffer and its offset, and x with its offset and stride.
   */
  function Run(d: Reduction, status: int): (r: Guarded<Invocation>)
    ensures r.Panic? <==> d.x.buffer.len <= d.n * d.xStride
    ensures r.Panic? ==> r.message == YTooShort
    ensures r.Returned? ==> r.value.call.entry == Entry(d.precision) && r.value.call.queue == d.queue
    ensures r.Returned? ==> ReduceArgs(r.value.call.args, d.n, d.result.buffer, d.result.offset,
                                       d.x.buffer, d.x.offset, d.xStride)
    ensures r.Returned? ==> r.value.result == ErrorFromCEither(status)
  {
    match CheckLength(d.x, d.n, d.xStride, YTooShort)
    case Panic(m) => Panic(m)
    case Returned(_) =>
      var args := ReduceRecord(d.n, d.result.buffer, d.result.offset, d.x.buffer, d.x.offset, d.xStride);
      Returned(Invocation(NativeCall(Entry(d.precision), d.queue, args), ErrorFromCEither(status)))
  }

  /** Each scalar type reaches its own entry point. */
  lemma EntryInjective(p: Precision, q: Precision)
    requires Entry(p) == Entry(q)
    ensures p == q
  {
  }

  /** Whether `run` panics does not depend on the output buffer. */
  lemma GuardIgnoresResult(d: Reduction, result: VectorBuffer, status: int)
    ensures Run(d.(result := result), status).Panic? <==> Run(d, status).Panic?
  {
  }

  /**
   * Apart from the panic message, `run` of the Euclidean norm is the
   * corrected reduction `run`: same panics, same native call.
   */
  lemma IsIntendedReduction(d: Reduction, status: int)
    ensures Run(d, status).Panic? <==> RunReductionIntended(Entry(d.precision), d, status).Panic?
    ensures Run(d, status).Returned? ==> Run(d, status) == RunReductionIntended(Entry(d.precision), d, status)
  {
  }
}
