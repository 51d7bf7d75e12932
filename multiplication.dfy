/**
 * `clblast/src/lib.rs`: the crate's original entry point. A `RowMatrix` is
 * a buffer seen as a row-major matrix; `multiply` on an `f32` queue checks
 * the three shapes against each other and calls `blast_sgemm` with the row
 * major layout, no transposes, and leading dimensions k, n and n.
 */
module Multiplication {
  import opened Wrappers
  import opened ClblastC
  import opened StatusTranslation
  import opened Native
  import opened Sys
  import Gemm

  /** `RowMatrix<T>`: `rows` by `columns` elements of `buffer` from `offset` on. */
  datatype RowMatrix = RowMatrix(rows: nat, columns: nat, offset: nat, buffer: Mem)

  /** The matrix lies inside its buffer. */
  predicate Fits(a: RowMatrix) {
    a.offset + a.rows * a.columns <= a.buffer.len
  }

  const BufferTooShort: string := "assertion failed: rows * columns <= buffer.len()"

  /**
   * `RowMatrix::new(columns, rows, buffer)`: note the width comes first.
   * Panics unless the buffer holds `rows * columns` elements; the matrix
   * starts at offset 0.
   */
  function NewRowMatrix(columns: nat, rows: nat, buffer: Mem): (r: Guarded<RowMatrix>)
    ensures r.Returned? <==> rows * columns <= buffer.len
    ensures r.Panic? ==> r.message == BufferTooShort
    ensures r.Returned? ==> r.value.rows == rows && r.value.columns == columns && r.value.buffer == buffer
    ensures r.Returned? ==> r.value.offset == 0 && Fits(r.value)
  {
    if rows * columns <= buffer.len then Returned(RowMatrix(rows, columns, 0, buffer))
    else Panic(BufferTooShort)
  }

  /** The three `assert_eq!`s of `multiply`, in order: k, n, then m. */
  function CheckShapes(a: RowMatrix, b: RowMatrix, c: RowMatrix): (r: Guarded<()>)
    ensures r.Returned? <==> a.columns == b.rows && b.columns == c.columns && c.rows == a.rows
    ensures a.columns != b.rows ==> r == Panic("a.columns /= b.rows (k)")
    ensures a.columns == b.rows && b.columns != c.columns ==> r == Panic("b.columns /= c.columns (n)")
    ensures a.columns == b.rows && b.columns == c.columns && c.rows != a.rows ==> r == Panic("c.columns /= a.rows (m)")
  {
    if a.columns != b.rows then Panic("a.columns /= b.rows (k)")
    else if b.columns != c.columns then Panic("b.columns /= c.columns (n)")
    else if c.rows != a.rows then Panic("c.columns /= a.rows (m)")
    else Returned(())
  }

  /**
   * `multiply` for `f32`: after the shape check it returns exactly what
   * `blast_sgemm` returns for row major, no transposes, m = `c.columns`,
   * n = `b.columns`, k = `a.columns` and leading dimensions k, n, n.
   */
  function Multiply(queue: Queue, a: RowMatrix, b: RowMatrix, c: RowMatrix,
                    alpha: real, beta: real, status: int): (r: Guarded<Invocation>)
    ensures r.Panic? <==> CheckShapes(a, b, c).Panic?
    ensures r.Panic? ==> r.message == CheckShapes(a, b, c).message
    ensures r.Returned? ==>
      r.value == BlastSgemm(RowMajor, No, No, c.columns, b.columns, a.columns, alpha,
                            a.buffer, a.offset, a.columns, b.buffer, b.offset, b.columns,
                            beta, c.buffer, c.offset, b.columns, queue, status)
    ensures r.Returned? ==> r.value.call.entry == CLBlastSgemm && r.value.call.queue == queue
    ensures r.Returned? ==>
      GemmArgs(r.value.call.args, RowMajor, No, No, c.columns, b.columns, a.columns, WireReal(alpha),
               a.buffer, a.offset, a.columns, b.buffer, b.offset, b.columns,
               WireReal(beta), c.buffer, c.offset, b.columns)
    ensures r.Returned? ==> (r.value.result.Ok? <==> status == CLBlastSuccess)
  {
    match CheckShapes(a, b, c)
    case Panic(msg) => Panic(msg)
    case Returned(_) =>
      var k := a.columns;
      var n := b.columns;
      var m := c.columns;
      Returned(BlastSgemm(RowMajor, No, No, m, n, k, alpha, a.buffer, a.offset, k,
                          b.buffer, b.offset, n, beta, c.buffer, c.offset, n, queue, status))
  }

  /**
   * A row-major gemm without transposes and with leading dimensions k, n
   * and n reads `m * k` elements of A and `k * n` of B and writes `m * n`
   * of C, each from its offset on; all three stay inside their buffers.
   */
  predicate WithinBuffers(a: RowMatrix, b: RowMatrix, c: RowMatrix, m: nat, n: nat, k: nat) {
    && a.offset + m * k <= a.buffer.len
    && b.offset + k * n <= b.buffer.len
    && c.offset + m * n <= c.buffer.len
  }

  /** `multiply` with m taken from the rows of C, as its third assertion intends. */
  function MultiplyIntended(queue: Queue, a: RowMatrix, b: RowMatrix, c: RowMatrix,
                            alpha: real, beta: real, status: int): (r: Guarded<Invocation>)
    ensures r.Panic? <==> CheckShapes(a, b, c).Panic?
    ensures r.Panic? ==> r.message == CheckShapes(a, b, c).message
    ensures r.Returned? ==> r.value.call.entry == CLBlastSgemm && r.value.call.queue == queue
    ensures r.Returned? ==>
      GemmArgs(r.value.call.args, RowMajor, No, No, c.rows, b.columns, a.columns, WireReal(alpha),
               a.buffer, a.offset, a.columns, b.buffer, b.offset, b.columns,
               WireReal(beta), c.buffer, c.offset, b.columns)
    ensures r.Returned? ==> (r.value.result.Ok? <==> status == CLBlastSuccess)
  {
    match CheckShapes(a, b, c)
    case Panic(msg) => Panic(msg)
    case Returned(_) =>
      Returned(BlastSgemm(RowMajor, No, No, c.rows, b.columns, a.columns, alpha, a.buffer, a.offset, a.columns,
                          b.buffer, b.offset, b.columns, beta, c.buffer, c.offset, b.columns, queue, status))
  }

  /**
   * With matrices that fit their buffers, the corrected `multiply` only
   * ever asks the native routine for elements inside A, B and C.
   */
  lemma IntendedWithinBuffers(queue: Queue, a: RowMatrix, b: RowMatrix, c: RowMatrix,
                              alpha: real, beta: real, status: int)
    requires Fits(a) && Fits(b) && Fits(c)
    requires MultiplyIntended(queue, a, b, c, alpha, beta, status).Returned?
    ensures WithinBuffers(a, b, c, c.rows, b.columns, a.columns)
  {
    assert c.rows == a.rows && a.columns == b.rows && b.columns == c.columns;
  }

  /**
   * Three matrices made by `RowMatrix::new` (A 1 by 1, B and C 1 by 2,
   * each buffer exactly full) pass every assertion of `multiply`, yet the
   * call as written asks for a 2 by 2 C, twice the buffer it has.
   */
  lemma MultiplyOverrunsC(queue: Queue, alpha: real, beta: real, status: int)
    ensures NewRowMatrix(1, 1, Mem(0, 1)).Returned?
    ensures NewRowMatrix(2, 1, Mem(1, 2)).Returned?
    ensures NewRowMatrix(2, 1, Mem(2, 2)).Returned?
    ensures var a, b, c := NewRowMatrix(1, 1, Mem(0, 1)).value, NewRowMatrix(2, 1, Mem(1, 2)).value,
                           NewRowMatrix(2, 1, Mem(2, 2)).value;
            && Multiply(queue, a, b, c, alpha, beta, status).Returned?
            && Passes(Multiply(queue, a, b, c, alpha, beta, status).value.call.args, M, Size(2))
            && !WithinBuffers(a, b, c, c.columns, b.columns, a.columns)
  {
  }

  /**
   * The shapes of `test_gemm` (10240 streams, 800 samples): the call as
   * written passes m = 800 for a C with 10240 rows.
   */
  lemma TestGemmShape(queue: Queue, status: int)
    ensures var streams, samples := 10240, 800;
            var a := NewRowMatrix(streams, streams, Mem(0, streams * streams));
            var b := NewRowMatrix(samples, streams, Mem(1, streams * samples));
            var c := NewRowMatrix(samples, streams, Mem(2, streams * samples));
            && a.Returned? && b.Returned? && c.Returned?
            && Multiply(queue, a.value, b.value, c.value, 1.0, 0.0, status).Returned?
            && Passes(Multiply(queue, a.value, b.value, c.value, 1.0, 0.0, status).value.call.args, M, Size(800))
            && c.value.rows == 10240
  {
  }

  /** The `Gemm` descriptor's view of a row matrix. */
  function AsMatrixBuffer(a: RowMatrix): (m: Gemm.MatrixBuffer)
    ensures m.buffer == a.buffer && m.rows == a.rows && m.columns == a.columns && m.offset == a.offset
    ensures m.layout == RowMajor
  {
    Gemm.MatrixBuffer(a.buffer, a.rows, a.columns, a.offset, RowMajor)
  }

  /**
   * `multiply` is the `Gemm` descriptor on `f32` row-major matrices with
   * the given coefficients and no transposes: the same panics and the same
   * native call.
   */
  lemma MultiplyIsGemm(queue: Queue, a: RowMatrix, b: RowMatrix, c: RowMatrix,
                       alpha: real, beta: real, status: int)
    ensures var g := Gemm.Build(queue, F32, AsMatrixBuffer(a), AsMatrixBuffer(b), AsMatrixBuffer(c),
                                Some(Real(alpha)), Some(Real(beta)), None, None);
            Multiply(queue, a, b, c, alpha, beta, status) == Gemm.Run(g, status)
  {
  }
}
