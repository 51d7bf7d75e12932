# clblast-rs, modelled in Dafny

A model of the Rust binding to CLBlast, the OpenCL BLAS library, in two crates:

- **`clblast-sys`**: the low-level wrappers `blast_sgemm`, `blast_dgemm`, `blast_ssymm` and `blast_dsymm`, and the Rust enumerations for layout, transpose, side and triangle with their C encodings.
- **`clblast`**:
  - the `RowMatrix` type and `multiply`;
  - the `Gemm` descriptor;
  - the level-1 vector descriptors: dot, dotc, swap, copy, axpy, scal, nrm2, asum, sum, amax, amin, max and min.

Both crates translate native status codes into their error type, and the model covers that translation too.

## What a descriptor does

Every descriptor `run` follows the same three steps:

1. Check the shapes with `assert!`/`assert_eq!`. A failed check is a panic, and no native call happens after it.
2. Call one native CLBlast entry point. Which one depends on the scalar type.
3. Translate the returned status into `Result<(), Error>`.

## How the model represents it

- A run is a function that returns:
  - `Guarded.Panic(message)` when a check fails;
  - otherwise `Guarded.Returned(Invocation(call, result))`.
- `call` names three things: the native entry point, the queue, and the argument the binding puts in each C parameter. The arguments are a map from `ClblastC.ParamName` to `Native.Arg`.
- The contracts say which value lands in which parameter. That is what shows the argument-order quirks below.
- `result` is `StatusTranslation.ErrorFromCEither` of the status the native routine returns. That status is a parameter of every run.
- A buffer is seen only through its identity and its length in elements.
- Scalars are `real`. A complex coefficient goes to the C side as the pair `[re, im]`.

## Files

| File | Contents |
|---|---|
| `result.dfy` | `clblast/src/result.rs` and its copy in `clblast-sys/src/lib.rs` |
| `sys.dfy` | the rest of `clblast-sys/src/lib.rs` |
| `level1.dfy` | guards, builders and argument records that the level-1 files share |
| one file per descriptor | that descriptor's own code |
| `multiplication.dfy` | `RowMatrix` and `multiply` from `clblast/src/lib.rs` |
| `reference.dfy` | the test-only `reference_implementation` and its fixture |

## Status and enumeration constants

The status and enumeration constants come from CLBlast's `clblast_c.h`: success is 0, and layout, transpose, triangle and side use 101–142. `clblast_c.h` is not part of this model. `clblast_c.dfy` restates the header's values, and the proofs use them: the tier ranges of the status codes, and the distinctness of every constant.

## The properties proved

### Status translation

- It is total and loses no information: `ErrorRoundTrip`, `ErrorFromCInjective`.
- The tiers are tried in the order Ocl, Blas, Blast, then `Unknown`. No code is recognised by two tiers.

### Encoders

- Each `to_c` encoder is inverted by a decoder.

### The sys wrappers

- They forward every argument unchanged and check nothing.

### Descriptors

- Each one panics exactly when its guard fails.
- Otherwise it passes exactly the listed arguments to an entry point that differs for each scalar type.
- `multiply` is proved to be the `Gemm` descriptor on row-major `f32` matrices.

### The reference implementation

- It is proved against the row-major matrix product.
- It is checked on the fixture of `test_reference`.

## Model

| member | source | states |
|---|---|---|
| StatusTranslation.OclFromC | clblast/src/result.rs:40-95 | a recognised code maps to the Ocl variant whose code it is; success and unlisted codes give None |
| StatusTranslation.BlasFromC | clblast/src/result.rs:120-143 | a recognised code maps to the Blas variant whose code it is |
| StatusTranslation.BlastFromC | clblast/src/result.rs:163-191 | a recognised code maps to the Blast variant whose code it is; the guard arm for InsufficientMemoryTemp tests the same equality as a constant pattern |
| StatusTranslation.ErrorFromC | clblast/src/result.rs:209-219 | None exactly for success. Otherwise the error carries the input code, and the Ocl tier wins over Blas, which wins over Blast |
| StatusTranslation.ErrorFromCEither | clblast/src/result.rs:203-208 | Ok exactly for success; Err(e) exactly when from_c gives Some(e), and e carries the code |
| StatusTranslation.OclRoundTrip | clblast/src/result.rs:43-92 | each Ocl variant's code is recognised by the Ocl tier as that variant |
| StatusTranslation.BlasRoundTrip | clblast/src/result.rs:123-140 | each Blas variant's code is recognised by the Blas tier as that variant |
| StatusTranslation.BlastRoundTrip | clblast/src/result.rs:166-188 | each Blast variant's code is recognised by the Blast tier as that variant |
| StatusTranslation.OclFromCExact | clblast/src/result.rs:40-95 | the Ocl tier answers Some(e) for the code of e and nothing else, and None exactly for codes no Ocl variant has |
| StatusTranslation.BlasFromCExact | clblast/src/result.rs:120-143 | the Blas tier answers Some(e) for the code of e and nothing else, and None exactly for the other codes |
| StatusTranslation.BlastFromCExact | clblast/src/result.rs:163-191 | the Blast tier answers Some(e) for the code of e and nothing else, and None exactly for the other codes |
| StatusTranslation.CodesInjective | clblast/src/result.rs:43-188 | the 28 Ocl, 17 Blas and 12 Blast variants each have pairwise distinct codes |
| StatusTranslation.TiersDisjoint | clblast-sys/src/lib.rs:488-498 | success is recognised by no tier and no code by two tiers, so the tier order never changes the answer |
| StatusTranslation.ErrorFromCTranslatable | clblast-sys/src/lib.rs:488-498 | a non-success code gives Unknown(code) exactly when no tier knows it |
| StatusTranslation.ErrorRoundTrip | clblast/src/result.rs:195-219 | translating the code of any error from_c can produce gives that error back |
| StatusTranslation.ErrorFromCInjective | clblast/src/result.rs:209-219 | two codes with the same translation are equal, so the fallback keeps the code |
| Native.Zero | clblast/src/gemm.rs:55 | NeutralAdd::ZERO is 0.0 for the float types and 0 + 0i for the complex ones |
| Native.One | clblast/src/gemm.rs:53 | NeutralMul::ONE is 1.0 for the float types and 1 + 0i for the complex ones |
| Native.ToWire | clblast/src/gemm.rs:171-178 | a real scalar is passed as is; a complex one becomes the two-element struct [re, im] |
| Native.WireRoundTrip | clblast/src/gemm.rs:171-178 | the wire form of a scalar can be read back to the same scalar |
| Sys.LayoutToC | clblast-sys/src/lib.rs:15-21 | each layout encodes to one of the two layout constants |
| Sys.TransposeToC | clblast-sys/src/lib.rs:30-38 | each transpose encodes to one of the three transpose constants |
| Sys.SideToC | clblast-sys/src/lib.rs:156-163 | each side encodes to one of the two side constants |
| Sys.TriangleToC | clblast-sys/src/lib.rs:170-177 | each triangle encodes to one of the two triangle constants |
| Sys.EncodingsRoundTrip | clblast-sys/src/lib.rs:15-177 | each of the four encoders is undone by a decoder |
| Sys.EncodingsInjective | clblast-sys/src/lib.rs:16-176 | ColMajor/RowMajor, Yes/No/Conjugate, Left/Right and Upper/Lower each get distinct constants |
| Sys.TriangleIsNotALayout | clblast-sys/src/lib.rs:170-177 | although declared to return the layout type, the triangle encoder never yields a layout constant |
| Sys.BlastSgemm | clblast-sys/src/lib.rs:48-98 | calls CLBlastSgemm on the given queue with every argument in its parameter unchanged and no other parameter; the result is exactly from_c_either of the status (Ok exactly on success, otherwise an error carrying the status) |
| Sys.BlastDgemm | clblast-sys/src/lib.rs:100-150 | as BlastSgemm, on CLBlastDgemm: every argument unchanged, result exactly from_c_either of the status |
| Sys.BlastSsymm | clblast-sys/src/lib.rs:182-230 | calls CLBlastSsymm with side, triangle, sizes, operands and coefficients unchanged and no other parameter; no validation; result exactly from_c_either of the status |
| Sys.BlastDsymm | clblast-sys/src/lib.rs:236-284 | as BlastSsymm, on CLBlastDsymm: every argument unchanged, result exactly from_c_either of the status |
| Level1.CheckLength | clblast/src/dot.rs:42-45 | returns exactly when the buffer holds strictly more than n * stride elements, else panics with the given message |
| Level1.CheckBoth | clblast/src/dot.rs:41-50 | returns exactly when x and y are both long enough; x is checked first, so a short x panics with the x message and a short y alone with the y message |
| Level1.BuildPair | clblast/src/swap.rs:26-29 | the swap/copy builder keeps every set field and defaults both strides to 1 |
| Level1.RunPair | clblast/src/swap.rs:48-66 | panics exactly when x or y is too short, with the first failing message; otherwise calls the entry with n, x buffer/offset/stride, y buffer/offset/stride, result from the status |
| Level1.BuildDot | clblast/src/dot.rs:30-34 | the dot builder keeps every set field and defaults both strides to 1 |
| Level1.RunDot | clblast/src/dot.rs:52-72 | panics exactly when x or y is too short; otherwise passes n, dot buffer/offset, x buffer/offset/stride, y buffer/offset/stride |
| Level1.BuildReduction | clblast/src/asum.rs:28 | the reduction builder keeps every set field and defaults the x stride to 1 |
| Level1.RunReduction | clblast/src/asum.rs:36-60 | panics exactly when the output buffer is not longer than n * x_stride; otherwise x_stride lands in the x offset parameter and x_offset in the x increment parameter |
| Level1.ReductionGuardIgnoresInput | clblast/src/asum.rs:36-41 | replacing x, buffer and offset included, never changes whether a reduction panics |
| Level1.ReductionDefaultsReachNativeSwapped | clblast/src/asum.rs:43-60 | with the default stride and x at offset 0, the native call gets offset 1 and increment 0 |
| Level1.RunReductionIntended | clblast/src/asum.rs:36-60 | the corrected reduction: panics exactly when x is too short; x offset and stride go to their own parameters |
| Level1.ReductionIntendedDefaults | clblast/src/asum.rs:28-60 | the corrected reduction with the default stride returns exactly when x holds more than n elements, passing x's offset and increment 1 |
| Level1.ReductionShortInputAccepted | clblast/src/asum.rs:36-53 | n = 1, an empty x and a two-element output: the code as written calls the native routine with increment 0, the corrected one panics |
| Dot.Entry | clblast/src/dot.rs:56-124 | each scalar type reaches the entry point of this routine named for that type: f32 to Sdot, f64 to Ddot, Complex32 to Cdotu, Complex64 to Zdotu (routine and scalar type determine the entry point) |
| Dot.Run | clblast/src/dot.rs:41-140 | panics exactly when x or y is not strictly longer than n * stride, with the x message if x is short and the y message if only y is; otherwise calls the type's entry with the dot argument record; result from the status |
| Dot.EntryInjective | clblast/src/dot.rs:56-124 | distinct scalar types reach distinct entry points |
| Dot.GuardIgnoresOffsetsAndResult | clblast/src/dot.rs:41-50 | the offsets and the dot buffer play no part in whether run panics |
| Dot.TestSetupPasses | clblast/src/dot.rs:148-166 | n = 10 over 20-element buffers with the default strides passes the guard, with unit increments |
| Dotc.Entry | clblast/src/dotc.rs:54-97 | each scalar type reaches the entry point of this routine named for that type: Complex32 to Cdotc, Complex64 to Zdotc (routine and scalar type determine the entry point) |
| Dotc.Run | clblast/src/dotc.rs:41-97 | only for complex types: the dot guard with its x and y messages, then the dot argument order on the conjugating entry |
| Dotc.EntryInjective | clblast/src/dotc.rs:54-97 | the two complex types reach distinct entry points |
| Dotc.DotcIsDotConjugated | clblast/src/dotc.rs:41-97 | dotc panics exactly when dot does and otherwise passes the same arguments to a different entry point |
| Swap.Entry | clblast/src/swap.rs:52-115 | each scalar type reaches the entry point of this routine named for that type: f32 to Sswap, f64 to Dswap, Complex32 to Cswap, Complex64 to Zswap (routine and scalar type determine the entry point) |
| Swap.Run | clblast/src/swap.rs:37-129 | panics exactly when x or y is not strictly longer than n * stride, with the x message if x is short and the y message if only y is; otherwise n, x buffer/offset/stride, y buffer/offset/stride |
| Swap.EntryInjective | clblast/src/swap.rs:52-115 | distinct scalar types reach distinct entry points |
| Swap.ExactLengthRejected | clblast/src/swap.rs:39-43 | a buffer of exactly n * stride elements makes run panic |
| Swap.VectorSwap | clblast/src/swap.rs:150-155 | vector_swap gives a builder with the queue set and nothing else |
| Swap.Build | clblast/src/swap.rs:26-29 | the builder needs queue, n, x and y and defaults the strides to 1 |
| Swap.TestSetupPasses | clblast/src/swap.rs:163-182 | the test's builder chain reaches Sswap on the receiver queue with unit increments |
| Copy.Entry | clblast/src/copy.rs:53-113 | each scalar type reaches the entry point of this routine named for that type: f32 to Scopy, f64 to Dcopy, Complex32 to Ccopy, Complex64 to Zcopy (routine and scalar type determine the entry point) |
| Copy.Run | clblast/src/copy.rs:38-127 | the swap guard with its x and y messages and the swap argument order, on the copy entry points |
| Copy.EntryInjective | clblast/src/copy.rs:53-113 | distinct scalar types reach distinct entry points |
| Copy.OffsetsNotChecked | clblast/src/copy.rs:38-47 | changing either offset never changes whether run panics |
| Axpy.Build | clblast/src/axpy.rs:19-34 | alpha is required and of the descriptor's scalar type; strides default to 1 |
| Axpy.Entry | clblast/src/axpy.rs:56-119 | each scalar type reaches the entry point of this routine named for that type: f32 to Saxpy, f64 to Daxpy, Complex32 to Caxpy, Complex64 to Zaxpy (routine and scalar type determine the entry point) |
| Axpy.Run | clblast/src/axpy.rs:41-134 | the two-vector guard; then n, alpha (a float as is, a complex one as [re, im]), x and y with offset and stride |
| Axpy.EntryInjective | clblast/src/axpy.rs:56-119 | distinct scalar types reach distinct entry points |
| Axpy.AlphaRecoverable | clblast/src/axpy.rs:58-121 | the alpha in the native call reads back as the descriptor's alpha |
| Scal.Build | clblast/src/scal.rs:21-29 | alpha is required and of the descriptor's scalar type; the stride defaults to 1 |
| Scal.Entry | clblast/src/scal.rs:47-101 | each scalar type reaches the entry point of this routine named for that type: f32 to Sscal, f64 to Dscal, Complex32 to Cscal, Complex64 to Zscal (routine and scalar type determine the entry point) |
| Scal.Run | clblast/src/scal.rs:36-114 | panics exactly when x is not strictly longer than n * x_stride; otherwise n, alpha in wire form, x buffer/offset/stride |
| Scal.EntryInjective | clblast/src/scal.rs:47-101 | distinct scalar types reach distinct entry points |
| Scal.AlphaRecoverable | clblast/src/scal.rs:49-104 | the alpha in the native call reads back as the descriptor's alpha |
| Nrm2.Entry | clblast/src/nrm2.rs:46-103 | each scalar type reaches the entry point of this routine named for that type: f32 to Snrm2, f64 to Dnrm2, Complex32 to Scnrm2, Complex64 to Dznrm2 (routine and scalar type determine the entry point) |
| Nrm2.Run | clblast/src/nrm2.rs:35-116 | panics, with the y message, exactly when x is too short; otherwise x offset before x stride |
| Nrm2.EntryInjective | clblast/src/nrm2.rs:46-103 | distinct scalar types reach distinct entry points |
| Nrm2.GuardIgnoresResult | clblast/src/nrm2.rs:35-40 | the output buffer plays no part in whether run panics |
| Nrm2.IsIntendedReduction | clblast/src/nrm2.rs:35-59 | apart from its message, nrm2's run is the corrected reduction run |
| Asum.Entry | clblast/src/asum.rs:47-104 | each scalar type reaches the entry point of this routine named for that type: f32 to Sasum, f64 to Dasum, Complex32 to Scasum, Complex64 to Dzasum (routine and scalar type determine the entry point) |
| Asum.Run | clblast/src/asum.rs:36-117 | guards the output buffer, not x; x_stride is passed as the offset and x_offset as the increment |
| Asum.EntryInjective | clblast/src/asum.rs:47-104 | distinct scalar types reach distinct entry points |
| Sum.Entry | clblast/src/sum.rs:47-104 | each scalar type reaches the entry point of this routine named for that type: f32 to Ssum, f64 to Dsum, Complex32 to Scsum, Complex64 to Dzsum (routine and scalar type determine the entry point) |
| Sum.Run | clblast/src/sum.rs:36-117 | guards the output buffer, not x; stride and offset swapped in the call |
| Sum.EntryInjective | clblast/src/sum.rs:47-104 | distinct scalar types reach distinct entry points |
| Amax.Entry | clblast/src/amax.rs:47-104 | each scalar type reaches the entry point of this routine named for that type: f32 to iSamax, f64 to iDamax, Complex32 to iCamax, Complex64 to iZamax (routine and scalar type determine the entry point) |
| Amax.Run | clblast/src/amax.rs:36-117 | guards the output buffer, not x; stride and offset swapped in the call |
| Amax.EntryInjective | clblast/src/amax.rs:47-104 | distinct scalar types reach distinct entry points |
| Amin.Entry | clblast/src/amin.rs:47-104 | each scalar type reaches the entry point of this routine named for that type: f32 to iSamin, f64 to iDamin, Complex32 to iCamin, Complex64 to iZamin (routine and scalar type determine the entry point) |
| Amin.Run | clblast/src/amin.rs:36-117 | guards the output buffer, not x; stride and offset swapped in the call |
| Amin.EntryInjective | clblast/src/amin.rs:47-104 | distinct scalar types reach distinct entry points |
| Max.Entry | clblast/src/max.rs:47-104 | each scalar type reaches the entry point of this routine named for that type: f32 to iSmax, f64 to iDmax, Complex32 to iCmax, Complex64 to iZmax (routine and scalar type determine the entry point) |
| Max.Run | clblast/src/max.rs:36-117 | guards the output buffer, not x; stride and offset swapped in the call |
| Max.EntryInjective | clblast/src/max.rs:47-104 | distinct scalar types reach distinct entry points |
| Min.Entry | clblast/src/min.rs:47-104 | each scalar type reaches the entry point of this routine named for that type: f32 to iSmin, f64 to iDmin, Complex32 to iCmin, Complex64 to iZmin (routine and scalar type determine the entry point) |
| Min.Run | clblast/src/min.rs:36-117 | guards the output buffer, not x; stride and offset swapped in the call |
| Min.EntryInjective | clblast/src/min.rs:47-104 | distinct scalar types reach distinct entry points |
| Gemm.Build | clblast/src/gemm.rs:39-63 | alpha defaults to one, beta to zero, both transposes to No; set fields are kept; coefficients are of the scalar type |
| Gemm.AssertDimensions | clblast/src/gemm.rs:65-81 | returns exactly when a.columns = b.rows, b.columns = c.columns and c.rows = a.rows, else panics with the first failing message; returns (a.columns, b.columns, c.columns) |
| Gemm.Entry | clblast/src/gemm.rs:86-221 | each scalar type reaches the entry point of this routine named for that type: f32 to Sgemm, f64 to Dgemm, Complex32 to Cgemm, Complex64 to Zgemm (routine and scalar type determine the entry point) |
| Gemm.Run | clblast/src/gemm.rs:86-221 | panics exactly when the shapes disagree; otherwise A's layout, both transposes, m = c.columns, n, k, coefficients in wire form, leading dimensions k, n, n |
| Gemm.EntryInjective | clblast/src/gemm.rs:93-211 | distinct scalar types reach distinct entry points |
| Gemm.TransposesIgnored | clblast/src/gemm.rs:65-81 | the shape check gives the same answer whatever the transposes |
| Gemm.DefaultsReachNative | clblast/src/gemm.rs:53-117 | with all defaults and agreeing shapes, the call passes TransposeNo twice, alpha one and beta zero in the type's wire form |
| Gemm.RunIntended | clblast/src/gemm.rs:65-117 | the corrected run: same panics, m = c.rows |
| Gemm.IntendedDescribesShapes | clblast/src/gemm.rs:65-81 | whenever the corrected run calls the native routine, M, N and K are the operands' shapes |
| Gemm.RunOverstatesRows | clblast/src/gemm.rs:78 | a 1x1 A, 1x2 B, 1x2 C pass the check, yet the call says C has 2 rows |
| Multiplication.NewRowMatrix | clblast/src/lib.rs:24-32 | returns exactly when rows * columns fits the buffer; stores rows and columns as given (columns is the first argument) at offset 0 |
| Multiplication.CheckShapes | clblast/src/lib.rs:66-73 | returns exactly when the three shape equations hold, else panics with the first failing message |
| Multiplication.Multiply | clblast/src/lib.rs:58-98 | panics exactly when the shapes disagree; otherwise returns blast_sgemm's result for RowMajor, No, No, m = c.columns, n = b.columns, k = a.columns, leading dimensions k, n, n |
| Multiplication.MultiplyIsGemm | clblast/src/lib.rs:58-98 | multiply is the Gemm descriptor on f32 row-major matrices with the given alpha and beta: same panics, same call |
| Multiplication.MultiplyIntended | clblast/src/lib.rs:66-96 | the corrected multiply: same panics, m = c.rows |
| Multiplication.IntendedWithinBuffers | clblast/src/lib.rs:13-98 | for matrices inside their buffers, the corrected multiply only addresses elements inside A, B and C |
| Multiplication.MultiplyOverrunsC | clblast/src/lib.rs:73 | matrices from RowMatrix::new of shapes 1x1, 1x2, 1x2 pass every assertion, yet the call addresses a 2x2 C in a 2-element buffer |
| Multiplication.TestGemmShape | clblast/src/lib.rs:162-236 | with test_gemm's shapes (10240 streams, 800 samples), the call passes m = 800 for a C of 10240 rows |
| Reference.Reference | clblast/src/lib.rs:113-131 | the reference vector has no_samples * no_streams entries |
| Reference.ReferenceAt | clblast/src/lib.rs:121-128 | entry x + y * no_samples is the sum over k of samples[x + no_samples * k] * matrix[y * no_streams + k] |
| Reference.RowSumIsProductSum | clblast/src/lib.rs:124-126 | the accumulated sum is an entry of the row-major product of the stream matrix and the sample matrix |
| Reference.ReferenceIsProduct | clblast/src/lib.rs:113-131 | the reference output equals the row-major product matrix * samples |
| Reference.FixtureRow0 | clblast/src/lib.rs:134-158 | on the 3-sample, 5-stream fixture the output has 15 entries, starting 29, 34, 39 |
| Reference.FixtureRow1 | clblast/src/lib.rs:134-158 | entries 3-5 of the fixture's output are 46, 53, 60 |
| Reference.FixtureRow2 | clblast/src/lib.rs:134-158 | entries 6-8 of the fixture's output are 93, 108, 123 |
| Reference.FixtureRow3 | clblast/src/lib.rs:134-158 | entries 9-11 of the fixture's output are 0, 0, 0 |
| Reference.FixtureRow4 | clblast/src/lib.rs:134-158 | entries 12-14 of the fixture's output are 102, 117, 132 |
| Reference.Accumulate | clblast/src/lib.rs:123-126 | the innermost loop's sum is the full accumulation over the streams |
| Reference.ReferenceImplementation | clblast/src/gemm.rs:273-291 | the three nested loops over a zeroed vector return exactly the reference vector |

## Left out

- **CLBlast routines.** The native routines themselves, and their effect on device memory, are left out. Each call is recorded only by its entry point, queue and arguments, and the status it returns is a parameter.
- **Foreign state.** The event and queue pointers passed by `&mut`, the null event argument and `ocl`'s `Queue`, `Buffer` and `Mem` objects are left out. A buffer is an identity and a length.
- **Missing definitions.** `MatrixBuffer` and `VectorBuffer` are not part of this model: their definitions are not in the crate's core files. The model takes their fields to be the buffer, the offset, the rows and columns, and the layout, with no invariant tying them together.
- **`clblast_c.h`.** It is not part of this model. Its constants are restated.
- **Scalar and layout traits.** `ReprSys::to_c` for complex scalars, `NeutralAdd::ZERO`, `NeutralMul::ONE` and the layout types' `to_c` are not part of this model: their definitions are not in the core files. The model takes them to build the pair `[re, im]`, zero, one and the sys layout encoding.
- **`clear_cache`.** It is a single unguarded foreign call with global effects.
- **Build and benchmarks.** `clblast-sys/build.rs` (cmake and bindgen) and `clblast/benches` are left out.
- **`assert_eq!` panic text.** Rust formats a failed `assert_eq!` as "assertion `left == right` failed: " followed by the custom message and the two values. The model identifies such a panic by its custom message only. A failed `assert!` keeps its full text.
- **Display and Snafu.** The `Display`/`Snafu` derivations and error messages of the error types are left out. Only the variants and codes are modelled.
- **Integer widths.** `usize`/`u64` arithmetic is unbounded. An overflowing `n * stride` or `rows * columns` (a panic in debug builds, a wrap in release builds) is not modelled. The `as u64` casts are the identity.
- **Floating point.** Scalars pass through as `real`, and no rounding is modelled.
- **Symm doc comment.** Its claim that A is m by m for `Left` and n by n for `Right` is about the native routine. The wrappers neither check nor use it, so nothing is stated about it.
- **Device-bound unit tests.** Beyond the shapes their set-up produces, the tests that need an OpenCL device are left out: `test_float`, `test_gemm`, `test_mem_leak` and the doc test.
- **Reference.ReferenceImplementation.** Entries are integers, not `f32` products summed in `f64` and rounded back. The requirement that both inputs are long enough replaces Rust's index panics.
- **Reference.FixtureRow0.** The fixture's expected vector is stated three entries at a time (FixtureRow0 to FixtureRow4), not as one equality.

## Findings

| source | as written | input that shows it | evidently intended | confidence | as-written member | corrected member |
|---|---|---|---|---|---|---|
| clblast/src/gemm.rs:78 | m is taken from `c.columns` | A 1x1, B 1x2, C 1x2, all RowMajor, defaults: the call passes M = 2 for a C of one row | m = `c.rows`, the row count the third assertion checks | not executed | Gemm.RunOverstatesRows | Gemm.RunIntended |
| clblast/src/lib.rs:73 | m is taken from `c.columns` | `RowMatrix::new(1,1,buf1)`, `new(2,1,buf2)`, `new(2,1,buf2')`: the call addresses a 2x2 C in a 2-element buffer | m = `c.rows` | not executed | Multiplication.MultiplyOverrunsC | Multiplication.MultiplyIntended |
| clblast/src/asum.rs:37 | the guard measures the output buffer, not x (the same in sum, amax, amin, max and min) | n = 1, a 2-element output and an empty x: no panic | measure `x_vector`, as the panic message says | not executed | Level1.ReductionShortInputAccepted | Level1.RunReductionIntended |
| clblast/src/asum.rs:52-53 | `x_stride` is passed in the offset position and `x_offset` in the increment position (the same in the five other reductions) | default stride and x at offset 0: offset 1, increment 0 | offset then stride, as nrm2 passes them | not executed | Level1.ReductionDefaultsReachNativeSwapped | Level1.ReductionIntendedDefaults |
