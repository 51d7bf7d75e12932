/** `clblast/src/scal.rs`: the `VectorScale` descriptor, `x := alpha * x` (`xSCAL`). */
module Scal {
  import opened Wrappers
  import opened ClblastC
  import opened StatusTranslation
  import opened Native
  import opened Level1

  datatype VectorScale = VectorScale(queue: Queue, precision: Precision, n: nat, alpha: Scalar,
                                     x: VectorBuffer, xStride: nat)

  /**
   * The typed builder: alpha has no default and must be a value of the
   * descriptor's scalar type; the stride defaults to 1.
   */
  function Build(queue: Queue, precision: Precision, n: nat, alpha: Scalar, x: VectorBuffer,
                 xStride: Option<nat>): (d: VectorScale)
    requires OfPrecision(alpha, precision)
    ensures d.queue == queue && d.precision == precision && d.n == n && d.alpha == alpha && d.x == x
    ensures xStride.None? ==> d.xStride == 1
    ensures xStride.Some? ==> d.xStride == xStride.value
  {
    VectorScale(queue, precision, n, alpha, x, StrideOrDefault(xStride))
  }

  /** The entry point each scalar type's `run` calls. */
  function Entry(p: Precision): (e: Entry)
    ensures RoutineOf(e) == Xscal && EntryPrecision(e) == p
  {
    match p
    case F32 => CLBlastSscal
    case F64 => CLBlastDscal
    case Complex32 => CLBlastCscal
    case Complex64 => CLBlastZscal
  }

  /**
   * `run` for every scalar type: x must be strictly longer than
   * `n * x_stride`; then one call with n, alpha (a float as is, a complex
   * number as its wire pair), and x with its offset and stride.
   */
  function Run(d: VectorScale, status: int): (r: Guarded<Invocation>)
    ensures r.Panic? <==> d.x.buffer.len <= d.n * d.xStride
    ensures r.Panic? ==> r.message == XTooShort
    ensures r.Returned? ==> r.value.call.entry == Entry(d.precision) && r.value.call.queue == d.queue
    ensures r.Returned? ==> ScalArgs(r.value.call.args, d.n, ToWire(d.alpha), d.x.buffer, d.x.offset, d.xStride)
    ensures r.Returned? && d.alpha.Real? ==> Passes(r.value.call.args, Alpha, Value(WireReal(d.alpha.v)))
    ensures r.Returned? && d.alpha.Complex? ==>
              Passes(r.value.call.args, Alpha, Value(WireComplex([d.alpha.re, d.alpha.im])))
    ensures r.Returned? ==> r.value.result == ErrorFromCEither(status)
  {
    match CheckLength(d.x, d.n, d.xStride, XTooShort)
    case Panic(m) => Panic(m)
    case Returned(_) =>
      var args := ScalRecord(d.n, ToWire(d.alpha), d.x.buffer, d.x.offset, d.xStride);
      Returned(Invocation(NativeCall(Entry(d.precision), d.queue, args), ErrorFromCEither(status)))
  }

  /** Each scalar type reaches its own entry point. */
  lemma EntryInjective(p: Precision, q: Precision)
    requires Entry(p) == Entry(q)
    ensures p == q
  {
  }

  /** The scalar alpha reaches the native call intact: it can be read back from the call. */
  lemma AlphaRecoverable(d: VectorScale, status: int)
    requires Run(d, status).Returned?
    ensures Alpha in Run(d, status).value.call.args
    ensures Run(d, status).value.call.args[Alpha].Value?
    ensures FromWire(Run(d, status).value.call.args[Alpha].w) == Some(d.alpha)
  {
    WireRoundTrip(d.alpha);
  }
}
