/**
 * The part of CLBlast's C interface (`clblast_c.h`) that the binding uses:
 * the status codes, the enumeration constants for layout, transpose, side
 * and triangle, the entry points, and each entry point's parameter order.
 * bindgen copies these into Rust as constants; the numbers below are the
 * header's own values.
 */
module ClblastC {

  // Status codes shared with OpenCL.
  const CLBlastSuccess: int := 0
  const CLBlastOpenCLCompilerNotAvailable: int := -3
  const CLBlastTempBufferAllocFailure: int := -4
  const CLBlastOpenCLOutOfResources: int := -5
  const CLBlastOpenCLOutOfHostMemory: int := -6
  const CLBlastOpenCLBuildProgramFailure: int := -11
  const CLBlastInvalidValue: int := -30
  const CLBlastInvalidCommandQueue: int := -36
  const CLBlastInvalidMemObject: int := -38
  const CLBlastInvalidBinary: int := -42
  const CLBlastInvalidBuildOptions: int := -43
  const CLBlastInvalidProgram: int := -44
  const CLBlastInvalidProgramExecutable: int := -45
  const CLBlastInvalidKernelName: int := -46
  const CLBlastInvalidKernelDefinition: int := -47
  const CLBlastInvalidKernel: int := -48
  const CLBlastInvalidArgIndex: int := -49
  const CLBlastInvalidArgValue: int := -50
  const CLBlastInvalidArgSize: int := -51
  const CLBlastInvalidKernelArgs: int := -52
  const CLBlastInvalidLocalNumDimensions: int := -53
  const CLBlastInvalidLocalThreadsTotal: int := -54
  const CLBlastInvalidLocalThreadsDim: int := -55
  const CLBlastInvalidGlobalOffset: int := -56
  const CLBlastInvalidEventWaitList: int := -57
  const CLBlastInvalidEvent: int := -58
  const CLBlastInvalidOperation: int := -59
  const CLBlastInvalidBufferSize: int := -61
  const CLBlastInvalidGlobalWorkSize: int := -63

  // Status codes shared with clBLAS.
  const CLBlastNotImplemented: int := -1024
  const CLBlastInvalidMatrixA: int := -1022
  const CLBlastInvalidMatrixB: int := -1021
  const CLBlastInvalidMatrixC: int := -1020
  const CLBlastInvalidVectorX: int := -1019
  const CLBlastInvalidVectorY: int := -1018
  const CLBlastInvalidDimension: int := -1017
  const CLBlastInvalidLeadDimA: int := -1016
  const CLBlastInvalidLeadDimB: int := -1015
  const CLBlastInvalidLeadDimC: int := -1014
  const CLBlastInvalidIncrementX: int := -1013
  const CLBlastInvalidIncrementY: int := -1012
  const CLBlastInsufficientMemoryA: int := -1011
  const CLBlastInsufficientMemoryB: int := -1010
  const CLBlastInsufficientMemoryC: int := -1009
  const CLBlastInsufficientMemoryX: int := -1008
  const CLBlastInsufficientMemoryY: int := -1007

  // Status codes of CLBlast's own.
  const CLBlastInsufficientMemoryTemp: int := -2050
  const CLBlastInvalidBatchCount: int := -2049
  const CLBlastInvalidOverrideKernel: int := -2048
  const CLBlastMissingOverrideParameter: int := -2047
  const CLBlastInvalidLocalMemUsage: int := -2046
  const CLBlastNoHalfPrecision: int := -2045
  const CLBlastNoDoublePrecision: int := -2044
  const CLBlastInvalidVectorScalar: int := -2043
  const CLBlastInsufficientMemoryScalar: int := -2042
  const CLBlastDatabaseError: int := -2041
  const CLBlastUnknownError: int := -2040
  const CLBlastUnexpectedError: int := -2039

  // Enumeration constants (`c_uint` on the Rust side).
  const CLBlastLayoutRowMajor: int := 101
  const CLBlastLayoutColMajor: int := 102
  const CLBlastTransposeNo: int := 111
  const CLBlastTransposeYes: int := 112
  const CLBlastTransposeConjugate: int := 113
  const CLBlastTriangleUpper: int := 121
  const CLBlastTriangleLower: int := 122
  const CLBlastSideLeft: int := 141
  const CLBlastSideRight: int := 142

  /** The native entry points the binding calls. */
  datatype Entry =
    | CLBlastSgemm | CLBlastDgemm | CLBlastCgemm | CLBlastZgemm
    | CLBlastSsymm | CLBlastDsymm
    | CLBlastSdot | CLBlastDdot | CLBlastCdotu | CLBlastZdotu
    | CLBlastCdotc | CLBlastZdotc
    | CLBlastSswap | CLBlastDswap | CLBlastCswap | CLBlastZswap
    | CLBlastScopy | CLBlastDcopy | CLBlastCcopy | CLBlastZcopy
    | CLBlastSaxpy | CLBlastDaxpy | CLBlastCaxpy | CLBlastZaxpy
    | CLBlastSscal | CLBlastDscal | CLBlastCscal | CLBlastZscal
    | CLBlastSnrm2 | CLBlastDnrm2 | CLBlastScnrm2 | CLBlastDznrm2
    | CLBlastSasum | CLBlastDasum | CLBlastScasum | CLBlastDzasum
    | CLBlastSsum | CLBlastDsum | CLBlastScsum | CLBlastDzsum
    | CLBlastiSamax | CLBlastiDamax | CLBlastiCamax | CLBlastiZamax
    | CLBlastiSamin | CLBlastiDamin | CLBlastiCamin | CLBlastiZamin
    | CLBlastiSmax | CLBlastiDmax | CLBlastiCmax | CLBlastiZmax
    | CLBlastiSmin | CLBlastiDmin | CLBlastiCmin | CLBlastiZmin

  /**
   * Names of the C parameters, without the trailing queue and event
   * pointers. An argument is identified by the parameter it lands in, that
   * is by its position in the prototype.
   */
  datatype ParamName =
    | Layout | ATranspose | BTranspose | Side | Triangle
    | M | N | K | Alpha | Beta
    | ABuffer | AOffset | ALd | BBuffer | BOffset | BLd | CBuffer | COffset | CLd
    | XBuffer | XOffset | XInc | YBuffer | YOffset | YInc
    | ResultBuffer | ResultOffset  // dot_buffer, nrm2_buffer, asum_buffer, imax_buffer, ...

  /** The BLAS routine an entry point implements, whatever its scalar type. */
  datatype Routine =
    | Xgemm | Xsymm | Xdot | Xdotc | Xswap | Xcopy | Xaxpy | Xscal
    | Xnrm2 | Xasum | Xsum | Xamax | Xamin | Xmax | Xmin

  /** The routine named by the part of the C name after the precision letters. */
  function RoutineOf(e: Entry): Routine {
    match e
    case CLBlastSgemm | CLBlastDgemm | CLBlastCgemm | CLBlastZgemm => Xgemm
    case CLBlastSsymm | CLBlastDsymm => Xsymm
    case CLBlastSdot | CLBlastDdot | CLBlastCdotu | CLBlastZdotu => Xdot
    case CLBlastCdotc | CLBlastZdotc => Xdotc
    case CLBlastSswap | CLBlastDswap | CLBlastCswap | CLBlastZswap => Xswap
    case CLBlastScopy | CLBlastDcopy | CLBlastCcopy | CLBlastZcopy => Xcopy
    case CLBlastSaxpy | CLBlastDaxpy | CLBlastCaxpy | CLBlastZaxpy => Xaxpy
    case CLBlastSscal | CLBlastDscal | CLBlastCscal | CLBlastZscal => Xscal
    case CLBlastSnrm2 | CLBlastDnrm2 | CLBlastScnrm2 | CLBlastDznrm2 => Xnrm2
    case CLBlastSasum | CLBlastDasum | CLBlastScasum | CLBlastDzasum => Xasum
    case CLBlastSsum | CLBlastDsum | CLBlastScsum | CLBlastDzsum => Xsum
    case CLBlastiSamax | CLBlastiDamax | CLBlastiCamax | CLBlastiZamax => Xamax
    case CLBlastiSamin | CLBlastiDamin | CLBlastiCamin | CLBlastiZamin => Xamin
    case CLBlastiSmax | CLBlastiDmax | CLBlastiCmax | CLBlastiZmax => Xmax
    case CLBlastiSmin | CLBlastiDmin | CLBlastiCmin | CLBlastiZmin => Xmin
  }
}
