/**
 * `clblast/src/gemm.rs`: the `Gemm` descriptor, `C := alpha * A * B + beta * C`
 * for every scalar type. `assert_dimensions` checks the three shapes
 * against each other and returns `(k, n, m)`; the four `run` impls then
 * call the matching native gemm with those sizes as leading dimensions.
 */
module Gemm {
  import opened Wrappers
  import opened ClblastC
  import opened StatusTranslation
  import opened Native
  import opened Sys

  /** `MatrixBuffer<T, L>`: a buffer seen as a `rows` by `columns` matrix from `offset` on. */
  datatype MatrixBuffer = MatrixBuffer(buffer: Mem, rows: nat, columns: nat, offset: nat, layout: MatrixLayout)

  datatype Gemm = Gemm(queue: Queue, precision: Precision, a: MatrixBuffer, b: MatrixBuffer, c: MatrixBuffer,
                       alpha: Scalar, beta: Scalar, transposeA: MatrixTranspose, transposeB: MatrixTranspose)

  /**
   * The typed builder. The three matrices share the layout type parameter
   * and the coefficients the scalar type; alpha defaults to one, beta to
   * zero, and neither matrix is transposed unless asked.
   */
  function Build(queue: Queue, precision: Precision, a: MatrixBuffer, b: MatrixBuffer, c: MatrixBuffer,
                 alpha: Option<Scalar>, beta: Option<Scalar>,
                 transposeA: Option<MatrixTranspose>, transposeB: Option<MatrixTranspose>): (g: Gemm)
    requires a.layout == b.layout == c.layout
    requires alpha.Some? ==> OfPrecision(alpha.value, precision)
    requires beta.Some? ==> OfPrecision(beta.value, precision)
    ensures g.queue == queue && g.precision == precision && g.a == a && g.b == b && g.c == c
    ensures alpha.None? ==> g.alpha == One(precision)
    ensures beta.None? ==> g.beta == Zero(precision)
    ensures transposeA.None? ==> g.transposeA == No
    ensures transposeB.None? ==> g.transposeB == No
    ensures alpha.Some? ==> g.alpha == alpha.value
    ensures beta.Some? ==> g.beta == beta.value
    ensures transposeA.Some? ==> g.transposeA == transposeA.value
    ensures transposeB.Some? ==> g.transposeB == transposeB.value
    ensures OfPrecision(g.alpha, precision) && OfPrecision(g.beta, precision)
  {
    Gemm(queue, precision, a, b, c,
         if alpha.Some? then alpha.value else One(precision),
         if beta.Some? then beta.value else Zero(precision),
         if transposeA.Some? then transposeA.value else No,
         if transposeB.Some? then transposeB.value else No)
  }

  /** The three shape equations `assert_dimensions` insists on. */
  predicate ShapesAgree(g: Gemm) {
    g.a.columns == g.b.rows && g.b.columns == g.c.columns && g.c.rows == g.a.rows
  }

  /**
   * `assert_dimensions`: panics on the first shape equation that fails,
   * with that assertion's message; otherwise returns `(k, n, m)` with
   * k = `a.columns`, n = `b.columns` and m = `c.columns`.
   */
  function AssertDimensions(g: Gemm): (r: Guarded<(nat, nat, nat)>)
    ensures r.Returned? <==> ShapesAgree(g)
    ensures g.a.columns != g.b.rows ==> r == Panic("a.columns /= b.rows (k)")
    ensures g.a.columns == g.b.rows && g.b.columns != g.c.columns ==> r == Panic("b.columns /= c.columns (n)")
    ensures g.a.columns == g.b.rows && g.b.columns == g.c.columns && g.c.rows != g.a.rows ==>
              r == Panic("c.columns /= a.rows (m)")
    ensures r.Returned? ==> r.value == (g.a.columns, g.b.columns, g.c.columns)
  {
    if g.a.columns != g.b.rows then Panic("a.columns /= b.rows (k)")
    else
      var k := g.a.columns;
      if g.b.columns != g.c.columns then Panic("b.columns /= c.columns (n)")
      else
        var n := g.b.columns;
        if g.c.rows != g.a.rows then Panic("c.columns /= a.rows (m)")
        else
          var m := g.c.columns;
          Returned((k, n, m))
  }

  /** The entry point each scalar type's `run` calls. */
  function Entry(p: Precision): (e: Entry)
    ensures RoutineOf(e) == Xgemm && EntryPrecision(e) == p
  {
    match p
    case F32 => CLBlastSgemm
    case F64 => CLBlastDgemm
    case Complex32 => CLBlastCgemm
    case Complex64 => CLBlastZgemm
  }

  /**
   * `run` for every scalar type: `assert_dimensions`, then one call with A's
   * layout, both transposes, m = `c.columns`, n = `b.columns`, k = `a.columns`,
   * the coefficients through the scalar adapter, and leading dimensions k, n
   * and n for A, B and C.
   */
  function Run(g: Gemm, status: int): (r: Guarded<Invocation>)
    ensures r.Panic? <==> !ShapesAgree(g)
    ensures r.Panic? ==> r.message == AssertDimensions(g).message
    ensures r.Returned? ==> r.value.call.entry == Entry(g.precision) && r.value.call.queue == g.queue
    ensures r.Returned? ==>
      GemmArgs(r.value.call.args, g.a.layout, g.transposeA, g.transposeB,
               g.c.columns, g.b.columns, g.a.columns, ToWire(g.alpha),
               g.a.buffer, g.a.offset, g.a.columns, g.b.buffer, g.b.offset, g.b.columns,
               ToWire(g.beta), g.c.buffer, g.c.offset, g.b.columns)
    ensures r.Returned? ==> r.value.result == ErrorFromCEither(status)
  {
    match AssertDimensions(g)
    case Panic(msg) => Panic(msg)
    case Returned((k, n, m)) =>
      GemmRecordArgs(g.a.layout, g.transposeA, g.transposeB, m, n, k, ToWire(g.alpha),
                     g.a.buffer, g.a.offset, k, g.b.buffer, g.b.offset, n,
                     ToWire(g.beta), g.c.buffer, g.c.offset, n);
      var args := GemmRecord(g.a.layout, g.transposeA, g.transposeB, m, n, k, ToWire(g.alpha),
                             g.a.buffer, g.a.offset, k, g.b.buffer, g.b.offset, n,
                             ToWire(g.beta), g.c.buffer, g.c.offset, n);
      Returned(Invocation(NativeCall(Entry(g.precision), g.queue, args), ErrorFromCEither(status)))
  }

  /** Each scalar type reaches its own entry point. */
  lemma EntryInjective(p: Precision, q: Precision)
    requires Entry(p) == Entry(q)
    ensures p == q
  {
  }

  /**
   * The shape check does not look at the transposes: a transposed operand
   * is checked, and sized, as if it were not.
   */
  lemma TransposesIgnored(g: Gemm, transposeA: MatrixTranspose, transposeB: MatrixTranspose)
    ensures AssertDimensions(g.(transposeA := transposeA, transposeB := transposeB)) == AssertDimensions(g)
  {
  }

  /**
   * With every builder default, the call multiplies without transposes and
   * passes alpha = 1, beta = 0 in the wire form of the scalar type.
   */
  lemma DefaultsReachNative(queue: Queue, p: Precision, a: MatrixBuffer, b: MatrixBuffer, c: MatrixBuffer, status: int)
    requires a.layout == b.layout == c.layout
    requires a.columns == b.rows && b.columns == c.columns && c.rows == a.rows
    ensures var r := Run(Build(queue, p, a, b, c, None, None, None, None), status);
            && r.Returned?
            && Passes(r.value.call.args, ATranspose, Enum(CLBlastTransposeNo))
            && Passes(r.value.call.args, BTranspose, Enum(CLBlastTransposeNo))
            && Passes(r.value.call.args, Alpha, Value(if p == F32 || p == F64 then WireReal(1.0) else WireComplex([1.0, 0.0])))
            && Passes(r.value.call.args, Beta, Value(if p == F32 || p == F64 then WireReal(0.0) else WireComplex([0.0, 0.0])))
  {
  }

  /**
   * The sizes in a gemm argument record describe the three operands of
   * `g` as the descriptor's own comment has them: A is m by k, B is k by n
   * and C is m by n.
   */
  predicate DescribesShapes(args: map<ParamName, Arg>, g: Gemm) {
    && Passes(args, M, Size(g.a.rows)) && Passes(args, M, Size(g.c.rows))
    && Passes(args, N, Size(g.b.columns)) && Passes(args, N, Size(g.c.columns))
    && Passes(args, K, Size(g.a.columns)) && Passes(args, K, Size(g.b.rows))
  }

  /** `run` with m taken from the rows of C, as the shape check's third equation intends. */
  function RunIntended(g: Gemm, status: int): (r: Guarded<Invocation>)
    ensures r.Panic? <==> !ShapesAgree(g)
    ensures r.Panic? ==> r.message == AssertDimensions(g).message
    ensures r.Returned? ==> r.value.call.entry == Entry(g.precision) && r.value.call.queue == g.queue
    ensures r.Returned? ==>
      GemmArgs(r.value.call.args, g.a.layout, g.transposeA, g.transposeB,
               g.c.rows, g.b.columns, g.a.columns, ToWire(g.alpha),
               g.a.buffer, g.a.offset, g.a.columns, g.b.buffer, g.b.offset, g.b.columns,
               ToWire(g.beta), g.c.buffer, g.c.offset, g.b.columns)
    ensures r.Returned? ==> r.value.result == ErrorFromCEither(status)
  {
    match AssertDimensions(g)
    case Panic(msg) => Panic(msg)
    case Returned((k, n, _)) =>
      GemmRecordArgs(g.a.layout, g.transposeA, g.transposeB, g.c.rows, n, k, ToWire(g.alpha),
                     g.a.buffer, g.a.offset, k, g.b.buffer, g.b.offset, n,
                     ToWire(g.beta), g.c.buffer, g.c.offset, n);
      var args := GemmRecord(g.a.layout, g.transposeA, g.transposeB, g.c.rows, n, k, ToWire(g.alpha),
                             g.a.buffer, g.a.offset, k, g.b.buffer, g.b.offset, n,
                             ToWire(g.beta), g.c.buffer, g.c.offset, n);
      Returned(Invocation(NativeCall(Entry(g.precision), g.queue, args), ErrorFromCEither(status)))
  }

  /** Whenever the corrected `run` reaches the native call, the sizes it passes are the operands' shapes. */
  lemma IntendedDescribesShapes(g: Gemm, status: int)
    requires RunIntended(g, status).Returned?
    ensures DescribesShapes(RunIntended(g, status).value.call.args, g)
  {
  }

  /**
   * A 1-by-1 A, a 1-by-2 B and a 1-by-2 C pass the shape check, yet `run`
   * as written tells the native routine that C has 2 rows.
   */
  lemma RunOverstatesRows(queue: Queue, buffer: Mem, status: int)
    ensures var g := Build(queue, F32, MatrixBuffer(buffer, 1, 1, 0, RowMajor), MatrixBuffer(buffer, 1, 2, 0, RowMajor),
                           MatrixBuffer(buffer, 1, 2, 0, RowMajor), None, None, None, None);
            && Run(g, status).Returned?
            && Passes(Run(g, status).value.call.args, M, Size(2))
            && !DescribesShapes(Run(g, status).value.call.args, g)
  {
  }
}
