/** The name table of OpenCL status codes, used for diagnostics when a
    driver call fails (oclUtil.cpp, getErrorString). */
module ClErrors {

  const UNKNOWN_ERROR: string := "Unknown OpenCL error"

  /** The codes the table names: the run-time errors 0..-19, the
      compile-time errors -30..-68 and the extension errors -1000..-1005. */
  predicate Listed(code: int)
  {
    -19 <= code <= 0 || -68 <= code <= -30 || -1005 <= code <= -1000
  }

  /** The table is total: exactly the listed codes get a name of their own,
      every other code (-20..-29 among them) gets the fallback. */
  function ErrorString(code: int): (r: string)
    ensures Listed(code) <==> r != UNKNOWN_ERROR
  {
    if -19 <= code <= 0 then RunTimeName(code)
    else if -68 <= code <= -30 then CompileTimeName(code)
    else if -1005 <= code <= -1000 then ExtensionName(code)
    else UNKNOWN_ERROR
  }

  /** The run-time and JIT compiler errors. */
  function RunTimeName(code: int): (r: string)
    requires -19 <= code <= 0
    ensures r != UNKNOWN_ERROR
  {
    match code
    case 0 => "CL_SUCCESS"
    case -1 => "CL_DEVICE_NOT_FOUND"
    case -2 => "CL_DEVICE_NOT_AVAILABLE"
    case -3 => "CL_COMPILER_NOT_AVAILABLE"
    case -4 => "CL_MEM_OBJECT_ALLOCATION_FAILURE"
    case -5 => "CL_OUT_OF_RESOURCES"
    case -6 => "CL_OUT_OF_HOST_MEMORY"
    case -7 => "CL_PROFILING_INFO_NOT_AVAILABLE"
    case -8 => "CL_MEM_COPY_OVERLAP"
    case -9 => "CL_IMAGE_FORMAT_MISMATCH"
    case -10 => "CL_IMAGE_FORMAT_NOT_SUPPORTED"
    case -11 => "CL_BUILD_PROGRAM_FAILURE"
    case -12 => "CL_MAP_FAILURE"
    case -13 => "CL_MISALIGNED_SUB_BUFFER_OFFSET"
    case -14 => "CL_EXEC_STATUS_ERROR_FOR_EVENTS_IN_WAIT_LIST"
    case -15 => "CL_COMPILE_PROGRAM_FAILURE"
    case -16 => "CL_LINKER_NOT_AVAILABLE"
    case -17 => "CL_LINK_PROGRAM_FAILURE"
    case -18 => "CL_DEVICE_PARTITION_FAILED"
    case -19 => "CL_KERNEL_ARG_INFO_NOT_AVAILABLE"
  }

  /** The compile-time errors. */
  function CompileTimeName(code: int): (r: string)
    requires -68 <= code <= -30
    ensures r != UNKNOWN_ERROR
  {
    match code
    case -30 => "CL_INVALID_VALUE"
    case -31 => "CL_INVALID_DEVICE_TYPE"
    case -32 => "CL_INVALID_PLATFORM"
    case -33 => "CL_INVALID_DEVICE"
    case -34 => "CL_INVALID_CONTEXT"
    case -35 => "CL_INVALID_QUEUE_PROPERTIES"
    case -36 => "CL_INVALID_COMMAND_QUEUE"
    case -37 => "CL_INVALID_HOST_PTR"
    case -38 => "CL_INVALID_MEM_OBJECT"
    case -39 => "CL_INVALID_IMAGE_FORMAT_DESCRIPTOR"
    case -40 => "CL_INVALID_IMAGE_SIZE"
    case -41 => "CL_INVALID_SAMPLER"
    case -42 => "CL_INVALID_BINARY"
    case -43 => "CL_INVALID_BUILD_OPTIONS"
    case -44 => "CL_INVALID_PROGRAM"
    case -45 => "CL_INVALID_PROGRAM_EXECUTABLE"
    case -46 => "CL_INVALID_KERNEL_NAME"
    case -47 => "CL_INVALID_KERNEL_DEFINITION"
    case -48 => "CL_INVALID_KERNEL"
    case -49 => "CL_INVALID_ARG_INDEX"
    case -50 => "CL_INVALID_ARG_VALUE"
    case -51 => "CL_INVALID_ARG_SIZE"
    case -52 => "CL_INVALID_KERNEL_ARGS"
    case -53 => "CL_INVALID_WORK_DIMENSION"
    case -54 => "CL_INVALID_WORK_GROUP_SIZE"
    case -55 => "CL_INVALID_WORK_ITEM_SIZE"
    case -56 => "CL_INVALID_GLOBAL_OFFSET"
    case -57 => "CL_INVALID_EVENT_WAIT_LIST"
    case -58 => "CL_INVALID_EVENT"
    case -59 => "CL_INVALID_OPERATION"
    case -60 => "CL_INVALID_GL_OBJECT"
    case -61 => "CL_INVALID_BUFFER_SIZE"
    case -62 => "CL_INVALID_MIP_LEVEL"
    case -63 => "CL_INVALID_GLOBAL_WORK_SIZE"
    case -64 => "CL_INVALID_PROPERTY"
    case -65 => "CL_INVALID_IMAGE_DESCRIPTOR"
    case -66 => "CL_INVALID_COMPILER_OPTIONS"
    case -67 => "CL_INVALID_LINKER_OPTIONS"
    case -68 => "CL_INVALID_DEVICE_PARTITION_COUNT"
  }

  /** The extension errors. */
  function ExtensionName(code: int): (r: string)
    requires -1005 <= code <= -1000
    ensures r != UNKNOWN_ERROR
  {
    match code
    case -1000 => "CL_INVALID_GL_SHAREGROUP_REFERENCE_KHR"
    case -1001 => "CL_PLATFORM_NOT_FOUND_KHR"
    case -1002 => "CL_INVALID_D3D10_DEVICE_KHR"
    case -1003 => "CL_INVALID_D3D10_RESOURCE_KHR"
    case -1004 => "CL_D3D10_RESOURCE_ALREADY_ACQUIRED_KHR"
    case -1005 => "CL_D3D10_RESOURCE_NOT_ACQUIRED_KHR"
  }
}
