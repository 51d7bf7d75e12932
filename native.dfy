/**
 * What the binding hands to the native library, and what comes back.
 * Device memory, queues and events are opaque handles owned by the OpenCL
 * wrapper crate; a buffer is seen here only through its identity and its
 * length in elements. A native call is recorded by its entry point, the
 * queue it is enqueued on and the argument it places in each C parameter; its
 * effect on device memory is not modelled, only the status code it returns.
 */
module Native {
  import opened Wrappers
  import opened ClblastC
  import opened StatusTranslation

  /** An OpenCL buffer (`ocl::Buffer<T>`): an identity and a length in elements. */
  datatype Mem = Mem(id: nat, len: nat)

  /** An OpenCL command queue (`ocl::Queue`). */
  datatype Queue = Queue(id: nat)

  /** `VectorBuffer<T>`: a buffer and the element offset the vector starts at. */
  datatype VectorBuffer = VectorBuffer(buffer: Mem, offset: nat)

  /** The four scalar types the descriptors are implemented for. */
  datatype Precision = F32 | F64 | Complex32 | Complex64

  /**
   * The scalar type an entry point works on, read off the letters of its C
   * name: S and D for `f32` and `f64`, C and Z for `Complex32` and
   * `Complex64`; the reductions of complex vectors that return a real are
   * named Sc and Dz.
   */
  function EntryPrecision(e: Entry): Precision {
    match e
    case CLBlastSgemm | CLBlastSsymm | CLBlastSdot | CLBlastSswap | CLBlastScopy | CLBlastSaxpy
       | CLBlastSscal | CLBlastSnrm2 | CLBlastSasum | CLBlastSsum
       | CLBlastiSamax | CLBlastiSamin | CLBlastiSmax | CLBlastiSmin => F32
    case CLBlastDgemm | CLBlastDsymm | CLBlastDdot | CLBlastDswap | CLBlastDcopy | CLBlastDaxpy
       | CLBlastDscal | CLBlastDnrm2 | CLBlastDasum | CLBlastDsum
       | CLBlastiDamax | CLBlastiDamin | CLBlastiDmax | CLBlastiDmin => F64
    case CLBlastCgemm | CLBlastCdotu | CLBlastCdotc | CLBlastCswap | CLBlastCcopy | CLBlastCaxpy
       | CLBlastCscal | CLBlastScnrm2 | CLBlastScasum | CLBlastScsum
       | CLBlastiCamax | CLBlastiCamin | CLBlastiCmax | CLBlastiCmin => Complex32
    case CLBlastZgemm | CLBlastZdotu | CLBlastZdotc | CLBlastZswap | CLBlastZcopy | CLBlastZaxpy
       | CLBlastZscal | CLBlastDznrm2 | CLBlastDzasum | CLBlastDzsum
       | CLBlastiZamax | CLBlastiZamin | CLBlastiZmax | CLBlastiZmin => Complex64
  }

  /**
   * The entry point of routine `r` for scalar type `p`; `None` where CLBlast
   * has no such routine (symm is real only here, dotc complex only).
   */
  function EntryFor(r: Routine, p: Precision): Option<Entry> {
    match (r, p)
    case (Xgemm, F32) => Some(CLBlastSgemm)
    case (Xgemm, F64) => Some(CLBlastDgemm)
    case (Xgemm, Complex32) => Some(CLBlastCgemm)
    case (Xgemm, Complex64) => Some(CLBlastZgemm)
    case (Xsymm, F32) => Some(CLBlastSsymm)
    case (Xsymm, F64) => Some(CLBlastDsymm)
    case (Xsymm, _) => None
    case (Xdot, F32) => Some(CLBlastSdot)
    case (Xdot, F64) => Some(CLBlastDdot)
    case (Xdot, Complex32) => Some(CLBlastCdotu)
    case (Xdot, Complex64) => Some(CLBlastZdotu)
    case (Xdotc, Complex32) => Some(CLBlastCdotc)
    case (Xdotc, Complex64) => Some(CLBlastZdotc)
    case (Xdotc, _) => None
    case (Xswap, F32) => Some(CLBlastSswap)
    case (Xswap, F64) => Some(CLBlastDswap)
    case (Xswap, Complex32) => Some(CLBlastCswap)
    case (Xswap, Complex64) => Some(CLBlastZswap)
    case (Xcopy, F32) => Some(CLBlastScopy)
    case (Xcopy, F64) => Some(CLBlastDcopy)
    case (Xcopy, Complex32) => Some(CLBlastCcopy)
    case (Xcopy, Complex64) => Some(CLBlastZcopy)
    case (Xaxpy, F32) => Some(CLBlastSaxpy)
    case (Xaxpy, F64) => Some(CLBlastDaxpy)
    case (Xaxpy, Complex32) => Some(CLBlastCaxpy)
    case (Xaxpy, Complex64) => Some(CLBlastZaxpy)
    case (Xscal, F32) => Some(CLBlastSscal)
    case (Xscal, F64) => Some(CLBlastDscal)
    case (Xscal, Complex32) => Some(CLBlastCscal)
    case (Xscal, Complex64) => Some(CLBlastZscal)
    case (Xnrm2, F32) => Some(CLBlastSnrm2)
    case (Xnrm2, F64) => Some(CLBlastDnrm2)
    case (Xnrm2, Complex32) => Some(CLBlastScnrm2)
    case (Xnrm2, Complex64) => Some(CLBlastDznrm2)
    case (Xasum, F32) => Some(CLBlastSasum)
    case (Xasum, F64) => Some(CLBlastDasum)
    case (Xasum, Complex32) => Some(CLBlastScasum)
    case (Xasum, Complex64) => Some(CLBlastDzasum)
    case (Xsum, F32) => Some(CLBlastSsum)
    case (Xsum, F64) => Some(CLBlastDsum)
    case (Xsum, Complex32) => Some(CLBlastScsum)
    case (Xsum, Complex64) => Some(CLBlastDzsum)
    case (Xamax, F32) => Some(CLBlastiSamax)
    case (Xamax, F64) => Some(CLBlastiDamax)
    case (Xamax, Complex32) => Some(CLBlastiCamax)
    case (Xamax, Complex64) => Some(CLBlastiZamax)
    case (Xamin, F32) => Some(CLBlastiSamin)
    case (Xamin, F64) => Some(CLBlastiDamin)
    case (Xamin, Complex32) => Some(CLBlastiCamin)
    case (Xamin, Complex64) => Some(CLBlastiZamin)
    case (Xmax, F32) => Some(CLBlastiSmax)
    case (Xmax, F64) => Some(CLBlastiDmax)
    case (Xmax, Complex32) => Some(CLBlastiCmax)
    case (Xmax, Complex64) => Some(CLBlastiZmax)
    case (Xmin, F32) => Some(CLBlastiSmin)
    case (Xmin, F64) => Some(CLBlastiDmin)
    case (Xmin, Complex32) => Some(CLBlastiCmin)
    case (Xmin, Complex64) => Some(CLBlastiZmin)
  }

  /** An entry point is the one of its routine and scalar type. */
  lemma EntryRoundTrip(e: Entry)
    ensures EntryFor(RoutineOf(e), EntryPrecision(e)) == Some(e)
  {
  }

  /** Routine and scalar type together name at most one entry point. */
  lemma EntryDetermined(e1: Entry, e2: Entry)
    requires RoutineOf(e1) == RoutineOf(e2) && EntryPrecision(e1) == EntryPrecision(e2)
    ensures e1 == e2
  {
    EntryRoundTrip(e1);
    EntryRoundTrip(e2);
  }

  /** A scalar coefficient: a float, or a complex number as a pair of floats. */
  datatype Scalar = Real(v: real) | Complex(re: real, im: real)

  /** A scalar as the C call receives it: a float as is, a complex as `cl_float2`/`cl_double2`. */
  datatype WireScalar = WireReal(v: real) | WireComplex(s: seq<real>)

  /** `x` is a value of the scalar type `p`: a float for F32/F64, a complex number otherwise. */
  predicate OfPrecision(x: Scalar, p: Precision) {
    x.Real? <==> (p == F32 || p == F64)
  }

  /** `NeutralAdd::ZERO` for each scalar type. */
  function Zero(p: Precision): (z: Scalar)
    ensures OfPrecision(z, p)
    ensures z.Real? ==> z.v == 0.0
    ensures z.Complex? ==> z.re == 0.0 && z.im == 0.0
  {
    if p == F32 || p == F64 then Real(0.0) else Complex(0.0, 0.0)
  }

  /** `NeutralMul::ONE` for each scalar type. */
  function One(p: Precision): (o: Scalar)
    ensures OfPrecision(o, p)
    ensures o.Real? ==> o.v == 1.0
    ensures o.Complex? ==> o.re == 1.0 && o.im == 0.0
  {
    if p == F32 || p == F64 then Real(1.0) else Complex(1.0, 0.0)
  }

  /**
   * The scalar adapter: a real scalar is passed unchanged, a complex one
   * becomes the two-element wire struct `{ s: [re, im] }`.
   */
  function ToWire(x: Scalar): (w: WireScalar)
    ensures x.Real? <==> w.WireReal?
    ensures x.Real? ==> w.v == x.v
    ensures x.Complex? ==> |w.s| == 2 && w.s[0] == x.re && w.s[1] == x.im
  {
    match x
    case Real(v) => WireReal(v)
    case Complex(re, im) => WireComplex([re, im])
  }

  /** Reading a wire scalar back; `None` for a malformed complex struct. */
  function FromWire(w: WireScalar): Option<Scalar> {
    match w
    case WireReal(v) => Some(Real(v))
    case WireComplex(s) => if |s| == 2 then Some(Complex(s[0], s[1])) else None
  }

  /** The conversion loses nothing. */
  lemma WireRoundTrip(x: Scalar)
    ensures FromWire(ToWire(x)) == Some(x)
  {
  }

  /** One C argument: a `u64` size, a `c_uint` enumeration constant, a buffer handle, or a scalar. */
  datatype Arg = Size(n: nat) | Enum(code: int) | Buffer(id: nat) | Value(w: WireScalar)

  /**
   * A call of a native entry point, enqueued on `queue`; `args` maps each C
   * parameter to the argument the caller put in that position.
   */
  datatype NativeCall = NativeCall(entry: Entry, queue: Queue, args: map<ParamName, Arg>)

  /** What a call through the binding yields: the native call issued and the translated status. */
  datatype Invocation = Invocation(call: NativeCall, result: Result<(), Error>)

  /** An `assert!`/`assert_eq!` that fails panics before anything else happens. */
  datatype Guarded<T> = Panic(message: string) | Returned(value: T)

  /** An argument record holds the argument `a` in the C parameter named `p`. */
  predicate Passes(args: map<ParamName, Arg>, p: ParamName, a: Arg) {
    p in args && args[p] == a
  }

  /**
   * The guard shape every level-1 descriptor uses: the buffer holds strictly
   * more than `n * stride` elements. The offset plays no part.
   */
  predicate LongerThan(v: VectorBuffer, n: nat, stride: nat) {
    v.buffer.len > n * stride
  }
}
