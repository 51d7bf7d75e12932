/**
 * Translation of a native status code into the binding's error taxonomy
 * (`clblast/src/result.rs`; `clblast-sys/src/lib.rs` holds a second copy of
 * the same tables). Each tier is a table from status codes to its own error
 * variants; `ErrorFromC` tries the tiers in a fixed order and falls back to
 * `Unknown`, keeping the raw code.
 */
module StatusTranslation {
  import opened Wrappers
  import opened ClblastC

  /** Errors that CLBlast shares with OpenCL (28 variants). */
  datatype OclError =
    | OpenCLCompilerNotAvailable | TempBufferAllocFailure | OpenCLOutOfResources
    | OpenCLOutOfHostMemory | OpenCLBuildProgramFailure | InvalidValue
    | InvalidCommandQueue | InvalidMemObject | InvalidBinary | InvalidBuildOptions
    | InvalidProgram | InvalidProgramExecutable | InvalidKernelName
    | InvalidKernelDefinition | InvalidKernel | InvalidArgIndex | InvalidArgValue
    | InvalidArgSize | InvalidKernelArgs | InvalidLocalNumDimensions
    | InvalidLocalThreadsTotal | InvalidLocalThreadsDim | InvalidGlobalOffset
    | InvalidEventWaitList | InvalidEvent | InvalidOperation | InvalidBufferSize
    | InvalidGlobalWorkSize

  /** Errors that CLBlast shares with clBLAS (17 variants). */
  datatype BlasError =
    | NotImplemented | InvalidMatrixA | InvalidMatrixB | InvalidMatrixC
    | InvalidVectorX | InvalidVectorY | InvalidDimension | InvalidLeadDimA
    | InvalidLeadDimB | InvalidLeadDimC | InvalidIncrementX | InvalidIncrementY
    | InsufficientMemoryA | InsufficientMemoryB | InsufficientMemoryC
    | InsufficientMemoryX | InsufficientMemoryY

  /** CLBlast's own errors (12 variants). */
  datatype BlastError =
    | InsufficientMemoryTemp | InvalidBatchCount | InvalidOverrideKernel
    | MissingOverrideParameter | InvalidLocalMemUsage | NoHalfPrecision
    | NoDoublePrecision | InvalidVectorScalar | InsufficientMemoryScalar
    | DatabaseError | UnknownError | UnexpectedError

  datatype Error =
    | Ocl(oclSource: OclError)
    | Blas(blasSource: BlasError)
    | Blast(blastSource: BlastError)
    | Unknown(statusCode: int)

  // ---------------------------------------------------------------------
  // The status code each variant stands for: the tables read backwards.
  // ---------------------------------------------------------------------

  function OclCode(e: OclError): (c: int)
    ensures -63 <= c <= -3
  {
    match e
    case OpenCLCompilerNotAvailable => CLBlastOpenCLCompilerNotAvailable
    case TempBufferAllocFailure => CLBlastTempBufferAllocFailure
    case OpenCLOutOfResources => CLBlastOpenCLOutOfResources
    case OpenCLOutOfHostMemory => CLBlastOpenCLOutOfHostMemory
    case OpenCLBuildProgramFailure => CLBlastOpenCLBuildProgramFailure
    case InvalidValue => CLBlastInvalidValue
    case InvalidCommandQueue => CLBlastInvalidCommandQueue
    case InvalidMemObject => CLBlastInvalidMemObject
    case InvalidBinary => CLBlastInvalidBinary
    case InvalidBuildOptions => CLBlastInvalidBuildOptions
    case InvalidProgram => CLBlastInvalidProgram
    case InvalidProgramExecutable => CLBlastInvalidProgramExecutable
    case InvalidKernelName => CLBlastInvalidKernelName
    case InvalidKernelDefinition => CLBlastInvalidKernelDefinition
    case InvalidKernel => CLBlastInvalidKernel
    case InvalidArgIndex => CLBlastInvalidArgIndex
    case InvalidArgValue => CLBlastInvalidArgValue
    case InvalidArgSize => CLBlastInvalidArgSize
    case InvalidKernelArgs => CLBlastInvalidKernelArgs
    case InvalidLocalNumDimensions => CLBlastInvalidLocalNumDimensions
    case InvalidLocalThreadsTotal => CLBlastInvalidLocalThreadsTotal
    case InvalidLocalThreadsDim => CLBlastInvalidLocalThreadsDim
    case InvalidGlobalOffset => CLBlastInvalidGlobalOffset
    case InvalidEventWaitList => CLBlastInvalidEventWaitList
    case InvalidEvent => CLBlastInvalidEvent
    case InvalidOperation => CLBlastInvalidOperation
    case InvalidBufferSize => CLBlastInvalidBufferSize
    case InvalidGlobalWorkSize => CLBlastInvalidGlobalWorkSize
  }

  function BlasCode(e: BlasError): (c: int)
    ensures -1024 <= c <= -1007
  {
    match e
    case NotImplemented => CLBlastNotImplemented
    case InvalidMatrixA => CLBlastInvalidMatrixA
    case InvalidMatrixB => CLBlastInvalidMatrixB
    case InvalidMatrixC => CLBlastInvalidMatrixC
    case InvalidVectorX => CLBlastInvalidVectorX
    case InvalidVectorY => CLBlastInvalidVectorY
    case InvalidDimension => CLBlastInvalidDimension
    case InvalidLeadDimA => CLBlastInvalidLeadDimA
    case InvalidLeadDimB => CLBlastInvalidLeadDimB
    case InvalidLeadDimC => CLBlastInvalidLeadDimC
    case InvalidIncrementX => CLBlastInvalidIncrementX
    case InvalidIncrementY => CLBlastInvalidIncrementY
    case InsufficientMemoryA => CLBlastInsufficientMemoryA
    case InsufficientMemoryB => CLBlastInsufficientMemoryB
    case InsufficientMemoryC => CLBlastInsufficientMemoryC
    case InsufficientMemoryX => CLBlastInsufficientMemoryX
    case InsufficientMemoryY => CLBlastInsufficientMemoryY
  }

  function BlastCode(e: BlastError): (c: int)
    ensures -2050 <= c <= -2039
  {
    match e
    case InsufficientMemoryTemp => CLBlastInsufficientMemoryTemp
    case InvalidBatchCount => CLBlastInvalidBatchCount
    case InvalidOverrideKernel => CLBlastInvalidOverrideKernel
    case MissingOverrideParameter => CLBlastMissingOverrideParameter
    case InvalidLocalMemUsage => CLBlastInvalidLocalMemUsage
    case NoHalfPrecision => CLBlastNoHalfPrecision
    case NoDoublePrecision => CLBlastNoDoublePrecision
    case InvalidVectorScalar => CLBlastInvalidVectorScalar
    case InsufficientMemoryScalar => CLBlastInsufficientMemoryScalar
    case DatabaseError => CLBlastDatabaseError
    case UnknownError => CLBlastUnknownError
    case UnexpectedError => CLBlastUnexpectedError
  }

  /** The status code an error carries or stands for. */
  function StatusOf(e: Error): int {
    match e
    case Ocl(s) => OclCode(s)
    case Blas(s) => BlasCode(s)
    case Blast(s) => BlastCode(s)
    case Unknown(c) => c
  }

  /** A code that no tier knows and that is not success. */
  predicate Unrecognised(c: int) {
    c != CLBlastSuccess
    && (forall e: OclError :: OclCode(e) != c)
    && (forall e: BlasError :: BlasCode(e) != c)
    && (forall e: BlastError :: BlastCode(e) != c)
  }

  /** The errors `ErrorFromC` can produce: `Unknown` only for unrecognised codes. */
  predicate Translatable(e: Error) {
    e.Unknown? ==> Unrecognised(e.statusCode)
  }

  // ---------------------------------------------------------------------
  // The three tiers, in the order the source's `match` arms list them.
  // ---------------------------------------------------------------------

  /** `OclError::from_c`: its first arm maps success to `None`. */
  function OclFromC(c: int): (r: Option<OclError>)
    ensures r.Some? ==> OclCode(r.value) == c
  {
    if c == CLBlastSuccess then None
    else if c == CLBlastOpenCLCompilerNotAvailable then Some(OpenCLCompilerNotAvailable)
    else if c == CLBlastTempBufferAllocFailure then Some(TempBufferAllocFailure)
    else if c == CLBlastOpenCLOutOfResources then Some(OpenCLOutOfResources)
    else if c == CLBlastOpenCLOutOfHostMemory then Some(OpenCLOutOfHostMemory)
    else if c == CLBlastOpenCLBuildProgramFailure then Some(OpenCLBuildProgramFailure)
    else if c == CLBlastInvalidValue then Some(InvalidValue)
    else if c == CLBlastInvalidCommandQueue then Some(InvalidCommandQueue)
    else if c == CLBlastInvalidMemObject then Some(InvalidMemObject)
    else if c == CLBlastInvalidBinary then Some(InvalidBinary)
    else if c == CLBlastInvalidBuildOptions then Some(InvalidBuildOptions)
    else if c == CLBlastInvalidProgram then Some(InvalidProgram)
    else if c == CLBlastInvalidProgramExecutable then Some(InvalidProgramExecutable)
    else if c == CLBlastInvalidKernelName then Some(InvalidKernelName)
    else if c == CLBlastInvalidKernelDefinition then Some(InvalidKernelDefinition)
    else if c == CLBlastInvalidKernel then Some(InvalidKernel)
    else if c == CLBlastInvalidArgIndex then Some(InvalidArgIndex)
    else if c == CLBlastInvalidArgValue then Some(InvalidArgValue)
    else if c == CLBlastInvalidArgSize then Some(InvalidArgSize)
    else if c == CLBlastInvalidKernelArgs then Some(InvalidKernelArgs)
    else if c == CLBlastInvalidLocalNumDimensions then Some(InvalidLocalNumDimensions)
    else if c == CLBlastInvalidLocalThreadsTotal then Some(InvalidLocalThreadsTotal)
    else if c == CLBlastInvalidLocalThreadsDim then Some(InvalidLocalThreadsDim)
    else if c == CLBlastInvalidGlobalOffset then Some(InvalidGlobalOffset)
    else if c == CLBlastInvalidEventWaitList then Some(InvalidEventWaitList)
    else if c == CLBlastInvalidEvent then Some(InvalidEvent)
    else if c == CLBlastInvalidOperation then Some(InvalidOperation)
    else if c == CLBlastInvalidBufferSize then Some(InvalidBufferSize)
    else if c == CLBlastInvalidGlobalWorkSize then Some(InvalidGlobalWorkSize)
    else None
  }

  /** `BlasError::from_c`. */
  function BlasFromC(c: int): (r: Option<BlasError>)
    ensures r.Some? ==> BlasCode(r.value) == c
  {
    if c == CLBlastNotImplemented then Some(NotImplemented)
    else if c == CLBlastInvalidMatrixA then Some(InvalidMatrixA)
    else if c == CLBlastInvalidMatrixB then Some(InvalidMatrixB)
    else if c == CLBlastInvalidMatrixC then Some(InvalidMatrixC)
    else if c == CLBlastInvalidVectorX then Some(InvalidVectorX)
    else if c == CLBlastInvalidVectorY then Some(InvalidVectorY)
    else if c == CLBlastInvalidDimension then Some(InvalidDimension)
    else if c == CLBlastInvalidLeadDimA then Some(InvalidLeadDimA)
    else if c == CLBlastInvalidLeadDimB then Some(InvalidLeadDimB)
    else if c == CLBlastInvalidLeadDimC then Some(InvalidLeadDimC)
    else if c == CLBlastInvalidIncrementX then Some(InvalidIncrementX)
    else if c == CLBlastInvalidIncrementY then Some(InvalidIncrementY)
    else if c == CLBlastInsufficientMemoryA then Some(InsufficientMemoryA)
    else if c == CLBlastInsufficientMemoryB then Some(InsufficientMemoryB)
    else if c == CLBlastInsufficientMemoryC then Some(InsufficientMemoryC)
    else if c == CLBlastInsufficientMemoryX then Some(InsufficientMemoryX)
    else if c == CLBlastInsufficientMemoryY then Some(InsufficientMemoryY)
    else None
  }

  /**
   * `BlastError::from_c`. In `clblast/src/result.rs` the first arm is a
   * wildcard with the guard `status_code == CLBlastInsufficientMemoryTemp`;
   * the copy in `clblast-sys` uses a constant pattern there. Both test the
   * same equality first, which is what this chain does.
   */
  function BlastFromC(c: int): (r: Option<BlastError>)
    ensures r.Some? ==> BlastCode(r.value) == c
  {
    if c == CLBlastInsufficientMemoryTemp then Some(InsufficientMemoryTemp)
    else if c == CLBlastInvalidBatchCount then Some(InvalidBatchCount)
    else if c == CLBlastInvalidOverrideKernel then Some(InvalidOverrideKernel)
    else if c == CLBlastMissingOverrideParameter then Some(MissingOverrideParameter)
    else if c == CLBlastInvalidLocalMemUsage then Some(InvalidLocalMemUsage)
    else if c == CLBlastNoHalfPrecision then Some(NoHalfPrecision)
    else if c == CLBlastNoDoublePrecision then Some(NoDoublePrecision)
    else if c == CLBlastInvalidVectorScalar then Some(InvalidVectorScalar)
    else if c == CLBlastInsufficientMemoryScalar then Some(InsufficientMemoryScalar)
    else if c == CLBlastDatabaseError then Some(DatabaseError)
    else if c == CLBlastUnknownError then Some(UnknownError)
    else if c == CLBlastUnexpectedError then Some(UnexpectedError)
    else None
  }

  /** `Error::from_c`: success first, then Ocl, Blas, Blast, then `Unknown`. */
  function ErrorFromC(c: int): (r: Option<Error>)
    ensures r.None? <==> c == CLBlastSuccess
    ensures r.Some? ==> StatusOf(r.value) == c
    ensures c != CLBlastSuccess && OclFromC(c).Some? ==> r == Some(Ocl(OclFromC(c).value))
    ensures OclFromC(c).None? && BlasFromC(c).Some? ==> r == Some(Blas(BlasFromC(c).value))
    ensures OclFromC(c).None? && BlasFromC(c).None? && BlastFromC(c).Some? ==>
              r == Some(Blast(BlastFromC(c).value))
  {
    if c == CLBlastSuccess then None
    else match OclFromC(c)
      case Some(s) => Some(Ocl(s))
      case None =>
        match BlasFromC(c)
        case Some(s) => Some(Blas(s))
        case None =>
          match BlastFromC(c)
          case Some(s) => Some(Blast(s))
          case None => Some(Unknown(c))
  }

  /** `Error::from_c_either`. */
  function ErrorFromCEither(c: int): (r: Result<(), Error>)
    ensures r.Ok? <==> c == CLBlastSuccess
    ensures r.Err? ==> ErrorFromC(c) == Some(r.error) && StatusOf(r.error) == c
  {
    match ErrorFromC(c)
    case Some(e) => Err(e)
    case None => Ok(())
  }

  // ---------------------------------------------------------------------
  // Properties of the tables.
  // ---------------------------------------------------------------------

  /** Each Ocl variant's code is recognised by the Ocl tier as exactly that variant. */
  lemma OclRoundTrip(e: OclError)
    ensures OclFromC(OclCode(e)) == Some(e)
  {
  }

  lemma BlasRoundTrip(e: BlasError)
    ensures BlasFromC(BlasCode(e)) == Some(e)
  {
  }

  lemma BlastRoundTrip(e: BlastError)
    ensures BlastFromC(BlastCode(e)) == Some(e)
  {
  }

  /** The Ocl tier answers `Some(e)` for exactly the code of `e`, and `None` for every other code. */
  lemma OclFromCExact(c: int)
    ensures forall e :: OclFromC(c) == Some(e) <==> OclCode(e) == c
    ensures OclFromC(c).None? <==> forall e :: OclCode(e) != c
  {
    forall e ensures OclCode(e) == c ==> OclFromC(c) == Some(e) {
      OclRoundTrip(e);
    }
  }

  lemma BlasFromCExact(c: int)
    ensures forall e :: BlasFromC(c) == Some(e) <==> BlasCode(e) == c
    ensures BlasFromC(c).None? <==> forall e :: BlasCode(e) != c
  {
    forall e ensures BlasCode(e) == c ==> BlasFromC(c) == Some(e) {
      BlasRoundTrip(e);
    }
  }

  lemma BlastFromCExact(c: int)
    ensures forall e :: BlastFromC(c) == Some(e) <==> BlastCode(e) == c
    ensures BlastFromC(c).None? <==> forall e :: BlastCode(e) != c
  {
    forall e ensures BlastCode(e) == c ==> BlastFromC(c) == Some(e) {
      BlastRoundTrip(e);
    }
  }

  /** Distinct variants of one tier have distinct codes (28, 17 and 12 codes). */
  lemma CodesInjective()
    ensures forall e1, e2: OclError :: OclCode(e1) == OclCode(e2) ==> e1 == e2
    ensures forall e1, e2: BlasError :: BlasCode(e1) == BlasCode(e2) ==> e1 == e2
    ensures forall e1, e2: BlastError :: BlastCode(e1) == BlastCode(e2) ==> e1 == e2
  {
    forall e1, e2: OclError | OclCode(e1) == OclCode(e2) ensures e1 == e2 {
      OclRoundTrip(e1); OclRoundTrip(e2);
    }
    forall e1, e2: BlasError | BlasCode(e1) == BlasCode(e2) ensures e1 == e2 {
      BlasRoundTrip(e1); BlasRoundTrip(e2);
    }
    forall e1, e2: BlastError | BlastCode(e1) == BlastCode(e2) ensures e1 == e2 {
      BlastRoundTrip(e1); BlastRoundTrip(e2);
    }
  }

  /**
   * No code is recognised by two tiers, and success by none; so the order in
   * which `ErrorFromC` tries the tiers never changes its answer.
   */
  lemma TiersDisjoint(c: int)
    ensures c == CLBlastSuccess ==> OclFromC(c).None? && BlasFromC(c).None? && BlastFromC(c).None?
    ensures OclFromC(c).Some? ==> BlasFromC(c).None? && BlastFromC(c).None?
    ensures BlasFromC(c).Some? ==> BlastFromC(c).None?
  {
  }

  /** Every error `ErrorFromC` yields is one it can yield: `Unknown` only for unrecognised codes. */
  lemma ErrorFromCTranslatable(c: int)
    requires c != CLBlastSuccess
    ensures Translatable(ErrorFromC(c).value)
    ensures ErrorFromC(c) == Some(Unknown(c)) <==> Unrecognised(c)
  {
    OclFromCExact(c);
    BlasFromCExact(c);
    BlastFromCExact(c);
  }

  /** Translating the code an error stands for gives that error back. */
  lemma ErrorRoundTrip(e: Error)
    requires Translatable(e)
    ensures ErrorFromC(StatusOf(e)) == Some(e)
  {
    match e
    case Ocl(s) => OclRoundTrip(s);
    case Blas(s) => BlasRoundTrip(s); OclFromCExact(StatusOf(e));
    case Blast(s) => BlastRoundTrip(s); OclFromCExact(StatusOf(e)); BlasFromCExact(StatusOf(e));
    case Unknown(c) => ErrorFromCTranslatable(c);
  }

  /**
   * Codes and translatable errors are in one-to-one correspondence: two
   * codes with the same translation are the same code.
   */
  lemma ErrorFromCInjective(c1: int, c2: int)
    requires ErrorFromC(c1) == ErrorFromC(c2)
    ensures c1 == c2
  {
  }
}
