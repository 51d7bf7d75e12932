/**
 * What the level-1 descriptors share: the length check each `assert!` of
 * their guards performs, the descriptor shapes several routines have in
 * common, and the argument records of the level-1 C prototypes. The
 * level-1 routines call the bindgen functions directly; there is no
 * wrapper layer between them and the native library.
 */
module Level1 {
  import opened Wrappers
  import opened ClblastC
  import opened StatusTranslation
  import opened Native

  /**
   * One `assert!` of a level-1 guard: the buffer must hold strictly more
   * than `n * stride` elements, otherwise the descriptor panics with
   * `message` before any native call.
   */
  function CheckLength(v: VectorBuffer, n: nat, stride: nat, message: string): (r: Guarded<()>)
    ensures r.Returned? <==> v.buffer.len > n * stride
    ensures r.Panic? ==> r.message == message
  {
    if LongerThan(v, n, stride) then Returned(()) else Panic(message)
  }

  /** The two assertions of the dot, swap, copy and axpy guards, x first. */
  function CheckBoth(n: nat, x: VectorBuffer, xStride: nat, y: VectorBuffer, yStride: nat): (r: Guarded<()>)
    ensures r.Returned? <==> LongerThan(x, n, xStride) && LongerThan(y, n, yStride)
    ensures !LongerThan(x, n, xStride) ==> r == Panic(XTooShort)
    ensures LongerThan(x, n, xStride) && !LongerThan(y, n, yStride) ==> r == Panic(YTooShort)
  {
    match CheckLength(x, n, xStride, XTooShort)
    case Panic(m) => Panic(m)
    case Returned(_) => CheckLength(y, n, yStride, YTooShort)
  }

  const XTooShort: string := "x buffer is too short for n and x_stride"
  const YTooShort: string := "y buffer is too short for n and y_stride"

  /** A stride the caller may leave out: the builders default it to 1. */
  function StrideOrDefault(s: Option<nat>): (r: nat)
    ensures s.None? ==> r == 1
    ensures s.Some? ==> r == s.value
  {
    match s
    case None => 1
    case Some(v) => v
  }

  /** `VectorSwap` and `VectorCopy`: two vectors and their strides. */
  datatype VectorPair = VectorPair(queue: Queue, precision: Precision, n: nat,
                                   x: VectorBuffer, y: VectorBuffer, xStride: nat, yStride: nat)

  /** `VectorDot` and `VectorDotConjucate`: a result buffer and two vectors. */
  datatype VectorDot = VectorDot(queue: Queue, precision: Precision, n: nat, dot: VectorBuffer,
                                 x: VectorBuffer, y: VectorBuffer, xStride: nat, yStride: nat)

  /**
   * The one-vector reductions (`VectorEuclidianNorm`, `VectorAbsoluteSum`,
   * `VectorSum` and the four index searches): an output buffer, called
   * `nrm2_vector`, `asum_vector`, `sum_vector`, `imax_vector` or
   * `imin_vector` in the source, and the input vector.
   */
  datatype Reduction = Reduction(queue: Queue, precision: Precision, n: nat,
                                 result: VectorBuffer, x: VectorBuffer, xStride: nat)

  // ---------------------------------------------------------------------
  // Argument records of the level-1 prototypes.
  // ---------------------------------------------------------------------

  /** `args` fills exactly the parameters of a dot prototype, with these values. */
  predicate DotArgs(args: map<ParamName, Arg>, n: nat, result: Mem, resultOffset: nat,
                    x: Mem, xOffset: nat, xInc: nat, y: Mem, yOffset: nat, yInc: nat)
  {
    && args.Keys == {N, ResultBuffer, ResultOffset, XBuffer, XOffset, XInc, YBuffer, YOffset, YInc}
    && Passes(args, N, Size(n))
    && Passes(args, ResultBuffer, Buffer(result.id)) && Passes(args, ResultOffset, Size(resultOffset))
    && Passes(args, XBuffer, Buffer(x.id)) && Passes(args, XOffset, Size(xOffset)) && Passes(args, XInc, Size(xInc))
    && Passes(args, YBuffer, Buffer(y.id)) && Passes(args, YOffset, Size(yOffset)) && Passes(args, YInc, Size(yInc))
  }

  function DotRecord(n: nat, result: Mem, resultOffset: nat,
                     x: Mem, xOffset: nat, xInc: nat, y: Mem, yOffset: nat, yInc: nat): (r: map<ParamName, Arg>)
    ensures DotArgs(r, n, result, resultOffset, x, xOffset, xInc, y, yOffset, yInc)
  {
    map[N := Size(n), ResultBuffer := Buffer(result.id), ResultOffset := Size(resultOffset),
        XBuffer := Buffer(x.id), XOffset := Size(xOffset), XInc := Size(xInc),
        YBuffer := Buffer(y.id), YOffset := Size(yOffset), YInc := Size(yInc)]
  }

  /** `args` fills exactly the parameters of a swap or copy prototype, with these values. */
  predicate PairArgs(args: map<ParamName, Arg>, n: nat,
                     x: Mem, xOffset: nat, xInc: nat, y: Mem, yOffset: nat, yInc: nat)
  {
    && args.Keys == {N, XBuffer, XOffset, XInc, YBuffer, YOffset, YInc}
    && Passes(args, N, Size(n))
    && Passes(args, XBuffer, Buffer(x.id)) && Passes(args, XOffset, Size(xOffset)) && Passes(args, XInc, Size(xInc))
    && Passes(args, YBuffer, Buffer(y.id)) && Passes(args, YOffset, Size(yOffset)) && Passes(args, YInc, Size(yInc))
  }

  function PairRecord(n: nat, x: Mem, xOffset: nat, xInc: nat, y: Mem, yOffset: nat, yInc: nat): (r: map<ParamName, Arg>)
    ensures PairArgs(r, n, x, xOffset, xInc, y, yOffset, yInc)
  {
    map[N := Size(n), XBuffer := Buffer(x.id), XOffset := Size(xOffset), XInc := Size(xInc),
        YBuffer := Buffer(y.id), YOffset := Size(yOffset), YInc := Size(yInc)]
  }

  /** `args` fills exactly the parameters of an axpy prototype, with these values. */
  predicate AxpyArgs(args: map<ParamName, Arg>, n: nat, alpha: WireScalar,
                     x: Mem, xOffset: nat, xInc: nat, y: Mem, yOffset: nat, yInc: nat)
  {
    && args.Keys == {N, Alpha, XBuffer, XOffset, XInc, YBuffer, YOffset, YInc}
    && Passes(args, N, Size(n)) && Passes(args, Alpha, Value(alpha))
    && Passes(args, XBuffer, Buffer(x.id)) && Passes(args, XOffset, Size(xOffset)) && Passes(args, XInc, Size(xInc))
    && Passes(args, YBuffer, Buffer(y.id)) && Passes(args, YOffset, Size(yOffset)) && Passes(args, YInc, Size(yInc))
  }

  function AxpyRecord(n: nat, alpha: WireScalar,
                      x: Mem, xOffset: nat, xInc: nat, y: Mem, yOffset: nat, yInc: nat): (r: map<ParamName, Arg>)
    ensures AxpyArgs(r, n, alpha, x, xOffset, xInc, y, yOffset, yInc)
  {
    map[N := Size(n), Alpha := Value(alpha),
        XBuffer := Buffer(x.id), XOffset := Size(xOffset), XInc := Size(xInc),
        YBuffer := Buffer(y.id), YOffset := Size(yOffset), YInc := Size(yInc)]
  }

  /** `args` fills exactly the parameters of a scal prototype, with these values. */
  predicate ScalArgs(args: map<ParamName, Arg>, n: nat, alpha: WireScalar, x: Mem, xOffset: nat, xInc: nat)
  {
    && args.Keys == {N, Alpha, XBuffer, XOffset, XInc}
    && Passes(args, N, Size(n)) && Passes(args, Alpha, Value(alpha))
    && Passes(args, XBuffer, Buffer(x.id)) && Passes(args, XOffset, Size(xOffset)) && Passes(args, XInc, Size(xInc))
  }

  function ScalRecord(n: nat, alpha: WireScalar, x: Mem, xOffset: nat, xInc: nat): (r: map<ParamName, Arg>)
    ensures ScalArgs(r, n, alpha, x, xOffset, xInc)
  {
    map[N := Size(n), Alpha := Value(alpha),
        XBuffer := Buffer(x.id), XOffset := Size(xOffset), XInc := Size(xInc)]
  }

  /**
   * `args` fills exactly the parameters of a reduction prototype, with these
   * values (nrm2, asum, sum, and the index searches).
   */
  predicate ReduceArgs(args: map<ParamName, Arg>, n: nat, result: Mem, resultOffset: nat,
                       x: Mem, xOffset: nat, xInc: nat)
  {
    && args.Keys == {N, ResultBuffer, ResultOffset, XBuffer, XOffset, XInc}
    && Passes(args, N, Size(n))
    && Passes(args, ResultBuffer, Buffer(result.id)) && Passes(args, ResultOffset, Size(resultOffset))
    && Passes(args, XBuffer, Buffer(x.id)) && Passes(args, XOffset, Size(xOffset)) && Passes(args, XInc, Size(xInc))
  }

  function ReduceRecord(n: nat, result: Mem, resultOffset: nat, x: Mem, xOffset: nat, xInc: nat): (r: map<ParamName, Arg>)
    ensures ReduceArgs(r, n, result, resultOffset, x, xOffset, xInc)
  {
    map[N := Size(n), ResultBuffer := Buffer(result.id), ResultOffset := Size(resultOffset),
        XBuffer := Buffer(x.id), XOffset := Size(xOffset), XInc := Size(xInc)]
  }

  // ---------------------------------------------------------------------
  // Builders and runs the descriptors of several files share; each file
  // supplies its own entry-point table.
  // ---------------------------------------------------------------------

  /** The typed builder of `VectorSwap`/`VectorCopy`: strides default to 1. */
  function BuildPair(queue: Queue, precision: Precision, n: nat, x: VectorBuffer, y: VectorBuffer,
                     xStride: Option<nat>, yStride: Option<nat>): (d: VectorPair)
    ensures d.queue == queue && d.precision == precision && d.n == n && d.x == x && d.y == y
    ensures xStride.None? ==> d.xStride == 1
    ensures yStride.None? ==> d.yStride == 1
    ensures xStride.Some? ==> d.xStride == xStride.value
    ensures yStride.Some? ==> d.yStride == yStride.value
  {
    VectorPair(queue, precision, n, x, y, StrideOrDefault(xStride), StrideOrDefault(yStride))
  }

  /**
   * The swap and copy `run`: the two-vector guard, then one call of `e`
   * with n, then x with its offset and stride, then y with its offset and
   * stride.
   */
  function RunPair(e: Entry, d: VectorPair, status: int): (r: Guarded<Invocation>)
    ensures r.Panic? <==> !(LongerThan(d.x, d.n, d.xStride) && LongerThan(d.y, d.n, d.yStride))
    ensures r.Panic? ==> r == Panic(if LongerThan(d.x, d.n, d.xStride) then YTooShort else XTooShort)
    ensures r.Returned? ==> r.value.call.entry == e && r.value.call.queue == d.queue
    ensures r.Returned? ==> PairArgs(r.value.call.args, d.n, d.x.buffer, d.x.offset, d.xStride,
                                     d.y.buffer, d.y.offset, d.yStride)
    ensures r.Returned? ==> r.value.result == ErrorFromCEither(status)
  {
    match CheckBoth(d.n, d.x, d.xStride, d.y, d.yStride)
    case Panic(m) => Panic(m)
    case Returned(_) =>
      var args := PairRecord(d.n, d.x.buffer, d.x.offset, d.xStride, d.y.buffer, d.y.offset, d.yStride);
      Returned(Invocation(NativeCall(e, d.queue, args), ErrorFromCEither(status)))
  }

  /** The typed builder of `VectorDot`/`VectorDotConjucate`: strides default to 1. */
  function BuildDot(queue: Queue, precision: Precision, n: nat, dot: VectorBuffer,
                    x: VectorBuffer, y: VectorBuffer, xStride: Option<nat>, yStride: Option<nat>): (d: VectorDot)
    ensures d.queue == queue && d.precision == precision && d.n == n
    ensures d.dot == dot && d.x == x && d.y == y
    ensures xStride.None? ==> d.xStride == 1
    ensures yStride.None? ==> d.yStride == 1
    ensures xStride.Some? ==> d.xStride == xStride.value
    ensures yStride.Some? ==> d.yStride == yStride.value
  {
    VectorDot(queue, precision, n, dot, x, y, StrideOrDefault(xStride), StrideOrDefault(yStride))
  }

  /**
   * The dot and dotc `run`: the two-vector guard (the dot buffer is not
   * measured), then one call of `e` with n, the dot buffer and its offset,
   * x with its offset and stride, y with its offset and stride.
   */
  function RunDot(e: Entry, d: VectorDot, status: int): (r: Guarded<Invocation>)
    ensures r.Panic? <==> !(LongerThan(d.x, d.n, d.xStride) && LongerThan(d.y, d.n, d.yStride))
    ensures r.Panic? ==> r == Panic(if LongerThan(d.x, d.n, d.xStride) then YTooShort else XTooShort)
    ensures r.Returned? ==> r.value.call.entry == e && r.value.call.queue == d.queue
    ensures r.Returned? ==> DotArgs(r.value.call.args, d.n, d.dot.buffer, d.dot.offset,
                                    d.x.buffer, d.x.offset, d.xStride, d.y.buffer, d.y.offset, d.yStride)
    ensures r.Returned? ==> r.value.result == ErrorFromCEither(status)
  {
    match CheckBoth(d.n, d.x, d.xStride, d.y, d.yStride)
    case Panic(m) => Panic(m)
    case Returned(_) =>
      var args := DotRecord(d.n, d.dot.buffer, d.dot.offset,
                            d.x.buffer, d.x.offset, d.xStride, d.y.buffer, d.y.offset, d.yStride);
      Returned(Invocation(NativeCall(e, d.queue, args), ErrorFromCEither(status)))
  }

  /** The typed builder of the reductions: the x stride defaults to 1. */
  function BuildReduction(queue: Queue, precision: Precision, n: nat, result: VectorBuffer,
                          x: VectorBuffer, xStride: Option<nat>): (d: Reduction)
    ensures d.queue == queue && d.precision == precision && d.n == n
    ensures d.result == result && d.x == x
    ensures xStride.None? ==> d.xStride == 1
    ensures xStride.Some? ==> d.xStride == xStride.value
  {
    Reduction(queue, precision, n, result, x, StrideOrDefault(xStride))
  }

  /**
   * The `run` of asum, sum, amax, amin, max and min. The guard measures the
   * output buffer against `n * x_stride` and never x; the call of `e` then
   * passes n, the output buffer and its offset, the x buffer, and
   * `x_stride` in the offset parameter followed by `x_offset` in the
   * increment parameter.
   */
  function RunReduction(e: Entry, d: Reduction, status: int): (r: Guarded<Invocation>)
    ensures r.Panic? <==> d.result.buffer.len <= d.n * d.xStride
    ensures r.Panic? ==> r.message == XTooShort
    ensures r.Returned? ==> r.value.call.entry == e && r.value.call.queue == d.queue
    ensures r.Returned? ==> ReduceArgs(r.value.call.args, d.n, d.result.buffer, d.result.offset,
                                       d.x.buffer, d.xStride, d.x.offset)
    ensures r.Returned? ==> r.value.result == ErrorFromCEither(status)
  {
    match CheckLength(d.result, d.n, d.xStride, XTooShort)
    case Panic(m) => Panic(m)
    case Returned(_) =>
      var args := ReduceRecord(d.n, d.result.buffer, d.result.offset, d.x.buffer, d.xStride, d.x.offset);
      Returned(Invocation(NativeCall(e, d.queue, args), ErrorFromCEither(status)))
  }

  /** Nothing about x (its buffer, offset or length) decides whether a reduction panics. */
  lemma ReductionGuardIgnoresInput(e: Entry, d: Reduction, x: VectorBuffer, status: int)
    ensures RunReduction(e, d.(x := x), status).Panic? <==> RunReduction(e, d, status).Panic?
  {
  }

  /**
   * A reduction built with the default stride over a vector at offset 0
   * reaches the native routine with offset 1 and increment 0, even when x
   * is empty.
   */
  lemma ReductionDefaultsReachNativeSwapped(e: Entry, queue: Queue, p: Precision, n: nat,
                                             result: VectorBuffer, x: VectorBuffer, status: int)
    requires x.offset == 0 && result.buffer.len > n
    ensures RunReduction(e, BuildReduction(queue, p, n, result, x, None), status).Returned?
    ensures Passes(RunReduction(e, BuildReduction(queue, p, n, result, x, None), status).value.call.args, XOffset, Size(1))
    ensures Passes(RunReduction(e, BuildReduction(queue, p, n, result, x, None), status).value.call.args, XInc, Size(0))
  {
  }

  /**
   * The reduction `run` as the guard's message and the C prototype intend
   * it: x is measured against `n * x_stride`, and x's offset and stride go
   * to the offset and increment parameters in that order.
   */
  function RunReductionIntended(e: Entry, d: Reduction, status: int): (r: Guarded<Invocation>)
    ensures r.Panic? <==> d.x.buffer.len <= d.n * d.xStride
    ensures r.Panic? ==> r.message == XTooShort
    ensures r.Returned? ==> r.value.call.entry == e && r.value.call.queue == d.queue
    ensures r.Returned? ==> ReduceArgs(r.value.call.args, d.n, d.result.buffer, d.result.offset,
                                       d.x.buffer, d.x.offset, d.xStride)
    ensures r.Returned? ==> r.value.result == ErrorFromCEither(status)
  {
    match CheckLength(d.x, d.n, d.xStride, XTooShort)
    case Panic(m) => Panic(m)
    case Returned(_) =>
      var args := ReduceRecord(d.n, d.result.buffer, d.result.offset, d.x.buffer, d.x.offset, d.xStride);
      Returned(Invocation(NativeCall(e, d.queue, args), ErrorFromCEither(status)))
  }

  /**
   * With the corrected `run`, a reduction built with the default stride
   * reaches the native routine with x's own offset and increment 1 whenever
   * x holds more than n elements, and panics when it does not, whatever the
   * output buffer.
   */
  lemma ReductionIntendedDefaults(e: Entry, queue: Queue, p: Precision, n: nat,
                                  result: VectorBuffer, x: VectorBuffer, status: int)
    ensures var r := RunReductionIntended(e, BuildReduction(queue, p, n, result, x, None), status);
            && (r.Returned? <==> x.buffer.len > n)
            && (r.Returned? ==> Passes(r.value.call.args, XOffset, Size(x.offset)))
            && (r.Returned? ==> Passes(r.value.call.args, XInc, Size(1)))
  {
  }

  /**
   * An empty x with n = 1 and a two-element output buffer: the reduction
   * `run` as written calls the native routine with x's offset 0 as the
   * increment, where the corrected one panics on x.
   */
  lemma ReductionShortInputAccepted(e: Entry, queue: Queue, p: Precision, status: int)
    ensures var d := BuildReduction(queue, p, 1, VectorBuffer(Mem(0, 2), 0), VectorBuffer(Mem(1, 0), 0), None);
            && RunReduction(e, d, status).Returned?
            && Passes(RunReduction(e, d, status).value.call.args, XInc, Size(0))
            && RunReductionIntended(e, d, status) == Panic(XTooShort)
  {
  }
}
