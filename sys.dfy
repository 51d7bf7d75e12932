/**
 * The `clblast-sys` layer (`clblast-sys/src/lib.rs`): the Rust enumerations
 * and their C encodings, and the thin `unsafe` wrappers around the native
 * gemm and symm entry points. The wrappers check nothing: every argument
 * tuple reaches the native call, and the returned status is translated.
 * (The file's second copy of the error tables is the one modelled in
 * `StatusTranslation`.)
 */
module Sys {
  import opened Wrappers
  import opened ClblastC
  import opened StatusTranslation
  import opened Native

  datatype MatrixLayout = ColMajor | RowMajor
  datatype MatrixTranspose = Yes | No | Conjugate
  datatype MultiplicationSide = Left | Right
  datatype TriangleLayout = Upper | Lower

  // ---------------------------------------------------------------------
  // `to_c` encoders and the decoders they are inverse to.
  // ---------------------------------------------------------------------

  function LayoutToC(l: MatrixLayout): (c: int)
    ensures c == CLBlastLayoutColMajor || c == CLBlastLayoutRowMajor
  {
    match l
    case ColMajor => CLBlastLayoutColMajor
    case RowMajor => CLBlastLayoutRowMajor
  }

  function TransposeToC(t: MatrixTranspose): (c: int)
    ensures c == CLBlastTransposeYes || c == CLBlastTransposeNo || c == CLBlastTransposeConjugate
  {
    match t
    case Yes => CLBlastTransposeYes
    case No => CLBlastTransposeNo
    case Conjugate => CLBlastTransposeConjugate
  }

  function SideToC(s: MultiplicationSide): (c: int)
    ensures c == CLBlastSideLeft || c == CLBlastSideRight
  {
    match s
    case Left => CLBlastSideLeft
    case Right => CLBlastSideRight
  }

  /**
   * Declared in the source as returning the layout type, but the values are
   * the triangle constants.
   */
  function TriangleToC(t: TriangleLayout): (c: int)
    ensures c == CLBlastTriangleUpper || c == CLBlastTriangleLower
  {
    match t
    case Upper => CLBlastTriangleUpper
    case Lower => CLBlastTriangleLower
  }

  function LayoutFromC(c: int): Option<MatrixLayout> {
    if c == CLBlastLayoutColMajor then Some(ColMajor)
    else if c == CLBlastLayoutRowMajor then Some(RowMajor)
    else None
  }

  function TransposeFromC(c: int): Option<MatrixTranspose> {
    if c == CLBlastTransposeYes then Some(Yes)
    else if c == CLBlastTransposeNo then Some(No)
    else if c == CLBlastTransposeConjugate then Some(Conjugate)
    else None
  }

  function SideFromC(c: int): Option<MultiplicationSide> {
    if c == CLBlastSideLeft then Some(Left)
    else if c == CLBlastSideRight then Some(Right)
    else None
  }

  function TriangleFromC(c: int): Option<TriangleLayout> {
    if c == CLBlastTriangleUpper then Some(Upper)
    else if c == CLBlastTriangleLower then Some(Lower)
    else None
  }

  /** Each encoder is undone by its decoder, so no two values share a constant. */
  lemma EncodingsRoundTrip()
    ensures forall l :: LayoutFromC(LayoutToC(l)) == Some(l)
    ensures forall t :: TransposeFromC(TransposeToC(t)) == Some(t)
    ensures forall s :: SideFromC(SideToC(s)) == Some(s)
    ensures forall t :: TriangleFromC(TriangleToC(t)) == Some(t)
  {
  }

  lemma EncodingsInjective()
    ensures forall l1, l2 :: LayoutToC(l1) == LayoutToC(l2) ==> l1 == l2
    ensures forall t1, t2 :: TransposeToC(t1) == TransposeToC(t2) ==> t1 == t2
    ensures forall s1, s2 :: SideToC(s1) == SideToC(s2) ==> s1 == s2
    ensures forall t1, t2 :: TriangleToC(t1) == TriangleToC(t2) ==> t1 == t2
  {
    EncodingsRoundTrip();
  }

  /**
   * A triangle constant is never a layout constant, so the type the source
   * declares for `TriangleLayout::to_c` cannot confuse the two.
   */
  lemma TriangleIsNotALayout(t: TriangleLayout, l: MatrixLayout)
    ensures TriangleToC(t) != LayoutToC(l)
    ensures LayoutFromC(TriangleToC(t)).None?
  {
  }

  // ---------------------------------------------------------------------
  // The argument records of the gemm and symm prototypes.
  // ---------------------------------------------------------------------

  /** The buffer, offset and leading dimension of one matrix operand sit in their three parameters. */
  predicate OperandArgs(args: map<ParamName, Arg>, buffer: ParamName, offset: ParamName, ld: ParamName,
                        mem: Mem, memOffset: nat, memLd: nat)
  {
    Passes(args, buffer, Buffer(mem.id)) && Passes(args, offset, Size(memOffset)) && Passes(args, ld, Size(memLd))
  }

  /** `args` fills exactly the parameters of a gemm prototype, with these values. */
  predicate GemmArgs(args: map<ParamName, Arg>, layout: MatrixLayout, aTranspose: MatrixTranspose,
                     bTranspose: MatrixTranspose, m: nat, n: nat, k: nat, alpha: WireScalar,
                     a: Mem, aOffset: nat, aLd: nat, b: Mem, bOffset: nat, bLd: nat,
                     beta: WireScalar, c: Mem, cOffset: nat, cLd: nat)
  {
    && args.Keys == {Layout, ATranspose, BTranspose, M, N, K, Alpha, ABuffer, AOffset, ALd, BBuffer, BOffset, BLd, Beta, CBuffer, COffset, CLd}
    && Passes(args, Layout, Enum(LayoutToC(layout)))
    && Passes(args, ATranspose, Enum(TransposeToC(aTranspose)))
    && Passes(args, BTranspose, Enum(TransposeToC(bTranspose)))
    && Passes(args, M, Size(m)) && Passes(args, N, Size(n)) && Passes(args, K, Size(k))
    && Passes(args, Alpha, Value(alpha))
    && OperandArgs(args, ABuffer, AOffset, ALd, a, aOffset, aLd)
    && OperandArgs(args, BBuffer, BOffset, BLd, b, bOffset, bLd)
    && Passes(args, Beta, Value(beta))
    && OperandArgs(args, CBuffer, COffset, CLd, c, cOffset, cLd)
  }

  /** `args` fills exactly the parameters of a symm prototype, with these values. */
  predicate SymmArgs(args: map<ParamName, Arg>, layout: MatrixLayout, side: MultiplicationSide,
                     triangle: TriangleLayout, m: nat, n: nat, alpha: WireScalar,
                     a: Mem, aOffset: nat, aLd: nat, b: Mem, bOffset: nat, bLd: nat,
                     beta: WireScalar, c: Mem, cOffset: nat, cLd: nat)
  {
    && args.Keys == {Layout, Side, Triangle, M, N, Alpha, ABuffer, AOffset, ALd, BBuffer, BOffset, BLd, Beta, CBuffer, COffset, CLd}
    && Passes(args, Layout, Enum(LayoutToC(layout)))
    && Passes(args, Side, Enum(SideToC(side)))
    && Passes(args, Triangle, Enum(TriangleToC(triangle)))
    && Passes(args, M, Size(m)) && Passes(args, N, Size(n))
    && Passes(args, Alpha, Value(alpha))
    && OperandArgs(args, ABuffer, AOffset, ALd, a, aOffset, aLd)
    && OperandArgs(args, BBuffer, BOffset, BLd, b, bOffset, bLd)
    && Passes(args, Beta, Value(beta))
    && OperandArgs(args, CBuffer, COffset, CLd, c, cOffset, cLd)
  }

  /** The arguments of a gemm call, each in its parameter. */
  function GemmRecord(layout: MatrixLayout, aTranspose: MatrixTranspose, bTranspose: MatrixTranspose,
                      m: nat, n: nat, k: nat, alpha: WireScalar,
                      a: Mem, aOffset: nat, aLd: nat, b: Mem, bOffset: nat, bLd: nat,
                      beta: WireScalar, c: Mem, cOffset: nat, cLd: nat): (r: map<ParamName, Arg>)
  {
    map[Layout := Enum(LayoutToC(layout)), ATranspose := Enum(TransposeToC(aTranspose)),
        BTranspose := Enum(TransposeToC(bTranspose)), M := Size(m), N := Size(n), K := Size(k),
        Alpha := Value(alpha), ABuffer := Buffer(a.id), AOffset := Size(aOffset), ALd := Size(aLd),
        BBuffer := Buffer(b.id), BOffset := Size(bOffset), BLd := Size(bLd), Beta := Value(beta),
        CBuffer := Buffer(c.id), COffset := Size(cOffset), CLd := Size(cLd)]
  }

  /** The enumeration, size and scalar parameters of the gemm record. */
  lemma GemmRecordSizes(layout: MatrixLayout, aTranspose: MatrixTranspose, bTranspose: MatrixTranspose,
                      m: nat, n: nat, k: nat, alpha: WireScalar,
                      a: Mem, aOffset: nat, aLd: nat, b: Mem, bOffset: nat, bLd: nat,
                      beta: WireScalar, c: Mem, cOffset: nat, cLd: nat)
    ensures var r := GemmRecord(layout, aTranspose, bTranspose, m, n, k, alpha, a, aOffset, aLd, b, bOffset, bLd, beta, c, cOffset, cLd);
            && Passes(r, Layout, Enum(LayoutToC(layout)))
            && Passes(r, ATranspose, Enum(TransposeToC(aTranspose))) && Passes(r, BTranspose, Enum(TransposeToC(bTranspose)))
            && Passes(r, M, Size(m)) && Passes(r, N, Size(n)) && Passes(r, K, Size(k))
            && Passes(r, Alpha, Value(alpha)) && Passes(r, Beta, Value(beta))
  {
  }

  /** The three matrix operands of the gemm record. */
  lemma GemmRecordOperands(layout: MatrixLayout, aTranspose: MatrixTranspose, bTranspose: MatrixTranspose,
                      m: nat, n: nat, k: nat, alpha: WireScalar,
                      a: Mem, aOffset: nat, aLd: nat, b: Mem, bOffset: nat, bLd: nat,
                      beta: WireScalar, c: Mem, cOffset: nat, cLd: nat)
    ensures var r := GemmRecord(layout, aTranspose, bTranspose, m, n, k, alpha, a, aOffset, aLd, b, bOffset, bLd, beta, c, cOffset, cLd);
            && OperandArgs(r, ABuffer, AOffset, ALd, a, aOffset, aLd)
            && OperandArgs(r, BBuffer, BOffset, BLd, b, bOffset, bLd)
            && OperandArgs(r, CBuffer, COffset, CLd, c, cOffset, cLd)
  {
  }

  /** The gemm record fills exactly the parameters of the prototype. */
  lemma GemmRecordKeys(layout: MatrixLayout, aTranspose: MatrixTranspose, bTranspose: MatrixTranspose,
                      m: nat, n: nat, k: nat, alpha: WireScalar,
                      a: Mem, aOffset: nat, aLd: nat, b: Mem, bOffset: nat, bLd: nat,
                      beta: WireScalar, c: Mem, cOffset: nat, cLd: nat)
    ensures GemmRecord(layout, aTranspose, bTranspose, m, n, k, alpha, a, aOffset, aLd, b, bOffset, bLd, beta, c, cOffset, cLd).Keys
            == {Layout, ATranspose, BTranspose, M, N, K, Alpha, ABuffer, AOffset, ALd, BBuffer, BOffset, BLd, Beta, CBuffer, COffset, CLd}
  {
  }

  /** A gemm record passes each argument in its own parameter. */
  lemma GemmRecordArgs(layout: MatrixLayout, aTranspose: MatrixTranspose, bTranspose: MatrixTranspose,
                      m: nat, n: nat, k: nat, alpha: WireScalar,
                      a: Mem, aOffset: nat, aLd: nat, b: Mem, bOffset: nat, bLd: nat,
                      beta: WireScalar, c: Mem, cOffset: nat, cLd: nat)
    ensures GemmArgs(GemmRecord(layout, aTranspose, bTranspose, m, n, k, alpha, a, aOffset, aLd, b, bOffset, bLd,
                                beta, c, cOffset, cLd),
                     layout, aTranspose, bTranspose, m, n, k, alpha, a, aOffset, aLd, b, bOffset, bLd, beta, c, cOffset, cLd)
  {
    GemmRecordSizes(layout, aTranspose, bTranspose, m, n, k, alpha, a, aOffset, aLd, b, bOffset, bLd, beta, c, cOffset, cLd);
    GemmRecordOperands(layout, aTranspose, bTranspose, m, n, k, alpha, a, aOffset, aLd, b, bOffset, bLd, beta, c, cOffset, cLd);
    GemmRecordKeys(layout, aTranspose, bTranspose, m, n, k, alpha, a, aOffset, aLd, b, bOffset, bLd, beta, c, cOffset, cLd);
  }


  /** The arguments of a symm call, each in its parameter. */
  function SymmRecord(layout: MatrixLayout, side: MultiplicationSide, triangle: TriangleLayout,
                      m: nat, n: nat, alpha: WireScalar,
                      a: Mem, aOffset: nat, aLd: nat, b: Mem, bOffset: nat, bLd: nat,
                      beta: WireScalar, c: Mem, cOffset: nat, cLd: nat): (r: map<ParamName, Arg>)
  {
    map[Layout := Enum(LayoutToC(layout)), Side := Enum(SideToC(side)),
        Triangle := Enum(TriangleToC(triangle)), M := Size(m), N := Size(n),
        Alpha := Value(alpha), ABuffer := Buffer(a.id), AOffset := Size(aOffset), ALd := Size(aLd),
        BBuffer := Buffer(b.id), BOffset := Size(bOffset), BLd := Size(bLd), Beta := Value(beta),
        CBuffer := Buffer(c.id), COffset := Size(cOffset), CLd := Size(cLd)]
  }

  /** The enumeration, size and scalar parameters of the symm record. */
  lemma SymmRecordSizes(layout: MatrixLayout, side: MultiplicationSide, triangle: TriangleLayout,
                      m: nat, n: nat, alpha: WireScalar,
                      a: Mem, aOffset: nat, aLd: nat, b: Mem, bOffset: nat, bLd: nat,
                      beta: WireScalar, c: Mem, cOffset: nat, cLd: nat)
    ensures var r := SymmRecord(layout, side, triangle, m, n, alpha, a, aOffset, aLd, b, bOffset, bLd, beta, c, cOffset, cLd);
            && Passes(r, Layout, Enum(LayoutToC(layout)))
            && Passes(r, Side, Enum(SideToC(side))) && Passes(r, Triangle, Enum(TriangleToC(triangle)))
            && Passes(r, M, Size(m)) && Passes(r, N, Size(n))
            && Passes(r, Alpha, Value(alpha)) && Passes(r, Beta, Value(beta))
  {
  }

  /** The three matrix operands of the symm record. */
  lemma SymmRecordOperands(layout: MatrixLayout, side: MultiplicationSide, triangle: TriangleLayout,
                      m: nat, n: nat, alpha: WireScalar,
                      a: Mem, aOffset: nat, aLd: nat, b: Mem, bOffset: nat, bLd: nat,
                      beta: WireScalar, c: Mem, cOffset: nat, cLd: nat)
    ensures var r := SymmRecord(layout, side, triangle, m, n, alpha, a, aOffset, aLd, b, bOffset, bLd, beta, c, cOffset, cLd);
            && OperandArgs(r, ABuffer, AOffset, ALd, a, aOffset, aLd)
            && OperandArgs(r, BBuffer, BOffset, BLd, b, bOffset, bLd)
            && OperandArgs(r, CBuffer, COffset, CLd, c, cOffset, cLd)
  {
  }

  /** The symm record fills exactly the parameters of the prototype. */
  lemma SymmRecordKeys(layout: MatrixLayout, side: MultiplicationSide, triangle: TriangleLayout,
                      m: nat, n: nat, alpha: WireScalar,
                      a: Mem, aOffset: nat, aLd: nat, b: Mem, bOffset: nat, bLd: nat,
                      beta: WireScalar, c: Mem, cOffset: nat, cLd: nat)
    ensures SymmRecord(layout, side, triangle, m, n, alpha, a, aOffset, aLd, b, bOffset, bLd, beta, c, cOffset, cLd).Keys
            == {Layout, Side, Triangle, M, N, Alpha, ABuffer, AOffset, ALd, BBuffer, BOffset, BLd, Beta, CBuffer, COffset, CLd}
  {
  }

  /** A symm record passes each argument in its own parameter. */
  lemma SymmRecordArgs(layout: MatrixLayout, side: MultiplicationSide, triangle: TriangleLayout,
                      m: nat, n: nat, alpha: WireScalar,
                      a: Mem, aOffset: nat, aLd: nat, b: Mem, bOffset: nat, bLd: nat,
                      beta: WireScalar, c: Mem, cOffset: nat, cLd: nat)
    ensures SymmArgs(SymmRecord(layout, side, triangle, m, n, alpha, a, aOffset, aLd, b, bOffset, bLd, beta, c, cOffset, cLd),
                     layout, side, triangle, m, n, alpha, a, aOffset, aLd, b, bOffset, bLd, beta, c, cOffset, cLd)
  {
    SymmRecordSizes(layout, side, triangle, m, n, alpha, a, aOffset, aLd, b, bOffset, bLd, beta, c, cOffset, cLd);
    SymmRecordOperands(layout, side, triangle, m, n, alpha, a, aOffset, aLd, b, bOffset, bLd, beta, c, cOffset, cLd);
    SymmRecordKeys(layout, side, triangle, m, n, alpha, a, aOffset, aLd, b, bOffset, bLd, beta, c, cOffset, cLd);
  }


  // ---------------------------------------------------------------------
  // The wrappers. `status` is what the native routine returns; the event
  // argument (and the event a `Some` allocates) is not modelled.
  // ---------------------------------------------------------------------

  /** `blast_sgemm`: no check of its own; every argument reaches `CLBlastSgemm` unchanged. */
  function BlastSgemm(layout: MatrixLayout, aTranspose: MatrixTranspose, bTranspose: MatrixTranspose,
                      m: nat, n: nat, k: nat, alpha: real,
                      a: Mem, aOffset: nat, aLd: nat, b: Mem, bOffset: nat, bLd: nat,
                      beta: real, c: Mem, cOffset: nat, cLd: nat, queue: Queue, status: int): (r: Invocation)
    ensures r.call.entry == CLBlastSgemm && r.call.queue == queue
    ensures GemmArgs(r.call.args, layout, aTranspose, bTranspose, m, n, k, WireReal(alpha),
                     a, aOffset, aLd, b, bOffset, bLd, WireReal(beta), c, cOffset, cLd)
    ensures r.result.Ok? <==> status == CLBlastSuccess
    ensures r.result.Err? ==> StatusOf(r.result.error) == status
    ensures r.result == ErrorFromCEither(status)
  {
    GemmRecordArgs(layout, aTranspose, bTranspose, m, n, k, WireReal(alpha), a, aOffset, aLd, b, bOffset, bLd, WireReal(beta), c, cOffset, cLd);
    Invocation(NativeCall(CLBlastSgemm, queue,
                 GemmRecord(layout, aTranspose, bTranspose, m, n, k, WireReal(alpha),
                            a, aOffset, aLd, b, bOffset, bLd, WireReal(beta), c, cOffset, cLd)),
               ErrorFromCEither(status))
  }

  /** `blast_dgemm`: as `blast_sgemm`, on `CLBlastDgemm`. */
  function BlastDgemm(layout: MatrixLayout, aTranspose: MatrixTranspose, bTranspose: MatrixTranspose,
                      m: nat, n: nat, k: nat, alpha: real,
                      a: Mem, aOffset: nat, aLd: nat, b: Mem, bOffset: nat, bLd: nat,
                      beta: real, c: Mem, cOffset: nat, cLd: nat, queue: Queue, status: int): (r: Invocation)
    ensures r.call.entry == CLBlastDgemm && r.call.queue == queue
    ensures GemmArgs(r.call.args, layout, aTranspose, bTranspose, m, n, k, WireReal(alpha),
                     a, aOffset, aLd, b, bOffset, bLd, WireReal(beta), c, cOffset, cLd)
    ensures r.result.Ok? <==> status == CLBlastSuccess
    ensures r.result.Err? ==> StatusOf(r.result.error) == status
    ensures r.result == ErrorFromCEither(status)
  {
    GemmRecordArgs(layout, aTranspose, bTranspose, m, n, k, WireReal(alpha), a, aOffset, aLd, b, bOffset, bLd, WireReal(beta), c, cOffset, cLd);
    Invocation(NativeCall(CLBlastDgemm, queue,
                 GemmRecord(layout, aTranspose, bTranspose, m, n, k, WireReal(alpha),
                            a, aOffset, aLd, b, bOffset, bLd, WireReal(beta), c, cOffset, cLd)),
               ErrorFromCEither(status))
  }

  /** `blast_ssymm`: no check of its own; every argument reaches `CLBlastSsymm` unchanged. */
  function BlastSsymm(layout: MatrixLayout, side: MultiplicationSide, triangle: TriangleLayout,
                      m: nat, n: nat, alpha: real,
                      a: Mem, aOffset: nat, aLd: nat, b: Mem, bOffset: nat, bLd: nat,
                      beta: real, c: Mem, cOffset: nat, cLd: nat, queue: Queue, status: int): (r: Invocation)
    ensures r.call.entry == CLBlastSsymm && r.call.queue == queue
    ensures SymmArgs(r.call.args, layout, side, triangle, m, n, WireReal(alpha),
                     a, aOffset, aLd, b, bOffset, bLd, WireReal(beta), c, cOffset, cLd)
    ensures r.result.Ok? <==> status == CLBlastSuccess
    ensures r.result.Err? ==> StatusOf(r.result.error) == status
    ensures r.result == ErrorFromCEither(status)
  {
    SymmRecordArgs(layout, side, triangle, m, n, WireReal(alpha), a, aOffset, aLd, b, bOffset, bLd, WireReal(beta), c, cOffset, cLd);
    Invocation(NativeCall(CLBlastSsymm, queue,
                 SymmRecord(layout, side, triangle, m, n, WireReal(alpha),
                            a, aOffset, aLd, b, bOffset, bLd, WireReal(beta), c, cOffset, cLd)),
               ErrorFromCEither(status))
  }

  /** `blast_dsymm`: as `blast_ssymm`, on `CLBlastDsymm`. */
  function BlastDsymm(layout: MatrixLayout, side: MultiplicationSide, triangle: TriangleLayout,
                      m: nat, n: nat, alpha: real,
                      a: Mem, aOffset: nat, aLd: nat, b: Mem, bOffset: nat, bLd: nat,
                      beta: real, c: Mem, cOffset: nat, cLd: nat, queue: Queue, status: int): (r: Invocation)
    ensures r.call.entry == CLBlastDsymm && r.call.queue == queue
    ensures SymmArgs(r.call.args, layout, side, triangle, m, n, WireReal(alpha),
                     a, aOffset, aLd, b, bOffset, bLd, WireReal(beta), c, cOffset, cLd)
    ensures r.result.Ok? <==> status == CLBlastSuccess
    ensures r.result.Err? ==> StatusOf(r.result.error) == status
    ensures r.result == ErrorFromCEither(status)
  {
    SymmRecordArgs(layout, side, triangle, m, n, WireReal(alpha), a, aOffset, aLd, b, bOffset, bLd, WireReal(beta), c, cOffset, cLd);
    Invocation(NativeCall(CLBlastDsymm, queue,
                 SymmRecord(layout, side, triangle, m, n, WireReal(alpha),
                            a, aOffset, aLd, b, bOffset, bLd, WireReal(beta), c, cOffset, cLd)),
               ErrorFromCEither(status))
  }
}
