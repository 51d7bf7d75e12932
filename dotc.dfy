/**
 * `clblast/src/dotc.rs`: the `VectorDotConjucate` descriptor, the dot
 * product with x conjugated (`xDOTC`). Only the complex types have a `run`.
 */
module Dotc {
  import opened Wrappers
  import opened ClblastC
  import opened StatusTranslation
  import opened Native
  import opened Level1
  import Dot

  /** The scalar types that implement `run`. */
  predicate IsComplex(p: Precision) {
    p == Complex32 || p == Complex64
  }

  /** The entry point each complex type's `run` calls. */
  function Entry(p: Precision): (e: Entry)
    requires IsComplex(p)
    ensures RoutineOf(e) == Xdotc && EntryPrecision(e) == p
  {
    if p == Complex32 then CLBlastCdotc else CLBlastZdotc
  }

  /** `run` for `Complex32` and `Complex64`; the guard and the call are those of `Dot`. */
  function Run(d: VectorDot, status: int): (r: Guarded<Invocation>)
    requires IsComplex(d.precision)
    ensures r.Panic? <==> d.x.buffer.len <= d.n * d.xStride || d.y.buffer.len <= d.n * d.yStride
    ensures r.Panic? ==> r == Panic(if LongerThan(d.x, d.n, d.xStride) then YTooShort else XTooShort)
    ensures r.Returned? ==> r.value.call.entry == Entry(d.precision) && r.value.call.queue == d.queue
    ensures r.Returned? ==> DotArgs(r.value.call.args, d.n, d.dot.buffer, d.dot.offset,
                                    d.x.buffer, d.x.offset, d.xStride, d.y.buffer, d.y.offset, d.yStride)
    ensures r.Returned? ==> r.value.result == ErrorFromCEither(status)
  {
    RunDot(Entry(d.precision), d, status)
  }

  /** Each complex type reaches its own entry point. */
  lemma EntryInjective(p: Precision, q: Precision)
    requires IsComplex(p) && IsComplex(q) && Entry(p) == Entry(q)
    ensures p == q
  {
  }

  /**
   * For a complex descriptor `dotc` panics exactly when `dot` does and
   * otherwise passes the same arguments, to the conjugating entry point.
   */
  lemma DotcIsDotConjugated(d: VectorDot, status: int)
    requires IsComplex(d.precision)
    ensures Run(d, status).Panic? <==> Dot.Run(d, status).Panic?
    ensures Run(d, status).Returned? ==> Run(d, status).value.call.args == Dot.Run(d, status).value.call.args
    ensures Run(d, status).Returned? ==> Run(d, status).value.call.entry != Dot.Run(d, status).value.call.entry
  {
  }
}
