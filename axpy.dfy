/** `clblast/src/axpy.rs`: the `VectorAxpy` descriptor, `y := alpha * x + y` (`xAXPY`). */
module Axpy {
  import opened Wrappers
  import opened ClblastC
  import opened StatusTranslation
  import opened Native
  import opened Level1

  datatype VectorAxpy = VectorAxpy(queue: Queue, precision: Precision, alpha: Scalar, n: nat,
                                   x: VectorBuffer, y: VectorBuffer, xStride: nat, yStride: nat)

  /**
   * The typed builder: alpha has no default and must be a value of the
   * descriptor's scalar type; the strides default to 1.
   */
  function Build(queue: Queue, precision: Precision, alpha: Scalar, n: nat, x: VectorBuffer, y: VectorBuffer,
                 xStride: Option<nat>, yStride: Option<nat>): (d: VectorAxpy)
    requires OfPrecision(alpha, precision)
    ensures d.queue == queue && d.precision == precision && d.alpha == alpha && d.n == n
    ensures d.x == x && d.y == y
    ensures xStride.None? ==> d.xStride == 1
    ensures yStride.None? ==> d.yStride == 1
    ensures xStride.Some? ==> d.xStride == xStride.value
    ensures yStride.Some? ==> d.yStride == yStride.value
  {
    VectorAxpy(queue, precision, alpha, n, x, y, StrideOrDefault(xStride), StrideOrDefault(yStride))
  }

  /** The entry point each scalar type's `run` calls. */
  function Entry(p: Precision): (e: Entry)
    ensures RoutineOf(e) == Xaxpy && EntryPrecision(e) == p
  {
    match p
    case F32 => CLBlastSaxpy
    case F64 => CLBlastDaxpy
    case Complex32 => CLBlastCaxpy
    case Complex64 => CLBlastZaxpy
  }

  /**
   * `run` for every scalar type: x, then y, must be strictly longer than
   * `n * stride`; then one call with n, alpha (a float as is, a complex
   * number as its wire pair), x with its offset and stride, and y with its
   * offset and stride.
   */
  function Run(d: VectorAxpy, status: int): (r: Guarded<Invocation>)
    ensures r.Panic? <==> d.x.buffer.len <= d.n * d.xStride || d.y.buffer.len <= d.n * d.yStride
    ensures r.Panic? ==> r == Panic(if LongerThan(d.x, d.n, d.xStride) then YTooShort else XTooShort)
    ensures r.Returned? ==> r.value.call.entry == Entry(d.precision) && r.value.call.queue == d.queue
    ensures r.Returned? ==> AxpyArgs(r.value.call.args, d.n, ToWire(d.alpha), d.x.buffer, d.x.offset, d.xStride,
                                     d.y.buffer, d.y.offset, d.yStride)
    ensures r.Returned? && d.alpha.Real? ==> Passes(r.value.call.args, Alpha, Value(WireReal(d.alpha.v)))
    ensures r.Returned? && d.alpha.Complex? ==>
              Passes(r.value.call.args, Alpha, Value(WireComplex([d.alpha.re, d.alpha.im])))
    ensures r.Returned? ==> r.value.result == ErrorFromCEither(status)
  {
    match CheckBoth(d.n, d.x, d.xStride, d.y, d.yStride)
    case Panic(m) => Panic(m)
    case Returned(_) =>
      var args := AxpyRecord(d.n, ToWire(d.alpha), d.x.buffer, d.x.offset, d.xStride,
                             d.y.buffer, d.y.offset, d.yStride);
      Returned(Invocation(NativeCall(Entry(d.precision), d.queue, args), ErrorFromCEither(status)))
  }

  /** Each scalar type reaches its own entry point. */
  lemma EntryInjective(p: Precision, q: Precision)
    requires Entry(p) == Entry(q)
    ensures p == q
  {
  }

  /** The scalar alpha reaches the native call intact: it can be read back from the call. */
  lemma AlphaRecoverable(d: VectorAxpy, status: int)
    requires Run(d, status).Returned?
    ensures Alpha in Run(d, status).value.call.args
    ensures Run(d, status).value.call.args[Alpha].Value?
    ensures FromWire(Run(d, status).value.call.args[Alpha].w) == Some(d.alpha)
  {
    WireRoundTrip(d.alpha);
  }
}
