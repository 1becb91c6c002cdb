/**
 * `CUDA_DRIVER_FUNCTION_MAP` (src/CUDA2HIP_Driver_API_functions.cpp:26-1059):
 * every CUDA driver-API function and what hipify translates it to. One row
 * per initializer of the source table, listed in key order, which is the
 * order a `std::map` keeps; each row notes the source line it comes from.
 */
module FunctionTable {
  import opened Tables
  import opened DriverTypes

  /** Rows 0 to 30. */
  function FunctionRows000To030(i: nat): (string, HipCounter)
    requires 0 <= i < 31
  {
    if i < 4 then (
      match i
      case 0 => ("cuArray3DCreate", HipCounter("hipArray3DCreate", "", CONV_MEMORY, API_DRIVER, 13, 0))  // line 179
      case 1 => ("cuArray3DCreate_v2", HipCounter("hipArray3DCreate", "", CONV_MEMORY, API_DRIVER, 13, 0))  // line 180
      case 2 => ("cuArray3DGetDescriptor", HipCounter("hipArray3DGetDescriptor", "", CONV_MEMORY, API_DRIVER, 13, HIP_UNSUPPORTED))  // line 181
      case _ => ("cuArray3DGetDescriptor_v2", HipCounter("hipArray3DGetDescriptor", "", CONV_MEMORY, API_DRIVER, 13, HIP_UNSUPPORTED))  // line 182
    )
    else if i < 8 then (
      match i
      case 4 => ("cuArrayCreate", HipCounter("hipArrayCreate", "", CONV_MEMORY, API_DRIVER, 13, 0))  // line 183
      case 5 => ("cuArrayCreate_v2", HipCounter("hipArrayCreate", "", CONV_MEMORY, API_DRIVER, 13, 0))  // line 184
      case 6 => ("cuArrayDestroy", HipCounter("hipArrayDestroy", "", CONV_MEMORY, API_DRIVER, 13, 0))  // line 185
      case _ => ("cuArrayGetDescriptor", HipCounter("hipArrayGetDescriptor", "", CONV_MEMORY, API_DRIVER, 13, HIP_UNSUPPORTED))  // line 186
    )
    else if i < 12 then (
      match i
      case 8 => ("cuArrayGetDescriptor_v2", HipCounter("hipArrayGetDescriptor", "", CONV_MEMORY, API_DRIVER, 13, HIP_UNSUPPORTED))  // line 187
      case 9 => ("cuArrayGetMemoryRequirements", HipCounter("hipArrayGetMemoryRequirements", "", CONV_MEMORY, API_DRIVER, 13, HIP_UNSUPPORTED))  // line 191
      case 10 => ("cuArrayGetPlane", HipCounter("hipArrayGetPlane", "", CONV_MEMORY, API_DRIVER, 13, HIP_UNSUPPORTED))  // line 360
      case _ => ("cuArrayGetSparseProperties", HipCounter("hipArrayGetSparseProperties", "", CONV_MEMORY, API_DRIVER, 13, HIP_UNSUPPORTED))  // line 358
    )
    else if i < 16 then (
      match i
      case 12 => ("cuCtxAttach", HipCounter("hipCtxAttach", "", CONV_CONTEXT, API_DRIVER, 9, HIP_UNSUPPORTED | CUDA_DEPRECATED))  // line 136
      case 13 => ("cuCtxCreate", HipCounter("hipCtxCreate", "", CONV_CONTEXT, API_DRIVER, 8, HIP_DEPRECATED))  // line 94
      case 14 => ("cuCtxCreate_v2", HipCounter("hipCtxCreate", "", CONV_CONTEXT, API_DRIVER, 8, HIP_DEPRECATED))  // line 95
      case _ => ("cuCtxCreate_v3", HipCounter("hipCtxCreate_v3", "", CONV_CONTEXT, API_DRIVER, 8, HIP_UNSUPPORTED))  // line 96
    )
    else if i < 20 then (
      match i
      case 16 => ("cuCtxDestroy", HipCounter("hipCtxDestroy", "", CONV_CONTEXT, API_DRIVER, 8, HIP_DEPRECATED))  // line 97
      case 17 => ("cuCtxDestroy_v2", HipCounter("hipCtxDestroy", "", CONV_CONTEXT, API_DRIVER, 8, HIP_DEPRECATED))  // line 98
      case 18 => ("cuCtxDetach", HipCounter("hipCtxDetach", "", CONV_CONTEXT, API_DRIVER, 9, HIP_UNSUPPORTED | CUDA_DEPRECATED))  // line 137
      case _ => ("cuCtxDisablePeerAccess", HipCounter("hipCtxDisablePeerAccess", "", CONV_PEER, API_DRIVER, 30, HIP_DEPRECATED))  // line 862
    )
    else if i < 24 then (
      match i
      case 20 => ("cuCtxEnablePeerAccess", HipCounter("hipCtxEnablePeerAccess", "", CONV_PEER, API_DRIVER, 30, HIP_DEPRECATED))  // line 859
      case 21 => ("cuCtxGetApiVersion", HipCounter("hipCtxGetApiVersion", "", CONV_CONTEXT, API_DRIVER, 8, HIP_DEPRECATED))  // line 99
      case 22 => ("cuCtxGetCacheConfig", HipCounter("hipCtxGetCacheConfig", "", CONV_CONTEXT, API_DRIVER, 8, HIP_DEPRECATED))  // line 100
      case _ => ("cuCtxGetCurrent", HipCounter("hipCtxGetCurrent", "", CONV_CONTEXT, API_DRIVER, 8, HIP_DEPRECATED))  // line 101
    )
    else if i < 28 then (
      match i
      case 24 => ("cuCtxGetDevice", HipCounter("hipCtxGetDevice", "", CONV_CONTEXT, API_DRIVER, 8, HIP_DEPRECATED))  // line 102
      case 25 => ("cuCtxGetExecAffinity", HipCounter("hipCtxGetExecAffinity", "", CONV_CONTEXT, API_DRIVER, 8, HIP_UNSUPPORTED))  // line 130
      case 26 => ("cuCtxGetFlags", HipCounter("hipCtxGetFlags", "", CONV_CONTEXT, API_DRIVER, 8, HIP_DEPRECATED))  // line 105
      case _ => ("cuCtxGetId", HipCounter("hipCtxGetId", "", CONV_CONTEXT, API_DRIVER, 8, HIP_UNSUPPORTED))  // line 132
    )
    else (
      match i
      case 28 => ("cuCtxGetLimit", HipCounter("hipDeviceGetLimit", "", CONV_CONTEXT, API_DRIVER, 8, 0))  // line 107
      case 29 => ("cuCtxGetSharedMemConfig", HipCounter("hipCtxGetSharedMemConfig", "", CONV_CONTEXT, API_DRIVER, 8, HIP_DEPRECATED))  // line 110
      case _ => ("cuCtxGetStreamPriorityRange", HipCounter("hipDeviceGetStreamPriorityRange", "", CONV_CONTEXT, API_DRIVER, 8, 0))  // line 112
    )
  }

  /** Rows 31 to 61. */
  function FunctionRows031To061(i: nat): (string, HipCounter)
    requires 31 <= i < 62
  {
    if i < 35 then (
      match i
      case 31 => ("cuCtxPopCurrent", HipCounter("hipCtxPopCurrent", "", CONV_CONTEXT, API_DRIVER, 8, HIP_DEPRECATED))  // line 113
      case 32 => ("cuCtxPopCurrent_v2", HipCounter("hipCtxPopCurrent", "", CONV_CONTEXT, API_DRIVER, 8, HIP_DEPRECATED))  // line 114
      case 33 => ("cuCtxPushCurrent", HipCounter("hipCtxPushCurrent", "", CONV_CONTEXT, API_DRIVER, 8, HIP_DEPRECATED))  // line 115
      case _ => ("cuCtxPushCurrent_v2", HipCounter("hipCtxPushCurrent", "", CONV_CONTEXT, API_DRIVER, 8, HIP_DEPRECATED))  // line 116
    )
    else if i < 39 then (
      match i
      case 35 => ("cuCtxResetPersistingL2Cache", HipCounter("hipCtxResetPersistingL2Cache", "", CONV_CONTEXT, API_DRIVER, 8, HIP_UNSUPPORTED))  // line 119
      case 36 => ("cuCtxSetCacheConfig", HipCounter("hipCtxSetCacheConfig", "", CONV_CONTEXT, API_DRIVER, 8, HIP_DEPRECATED))  // line 117
      case 37 => ("cuCtxSetCurrent", HipCounter("hipCtxSetCurrent", "", CONV_CONTEXT, API_DRIVER, 8, HIP_DEPRECATED))  // line 120
      case _ => ("cuCtxSetLimit", HipCounter("hipDeviceSetLimit", "", CONV_CONTEXT, API_DRIVER, 8, 0))  // line 122
    )
    else if i < 43 then (
      match i
      case 39 => ("cuCtxSetSharedMemConfig", HipCounter("hipCtxSetSharedMemConfig", "", CONV_CONTEXT, API_DRIVER, 8, HIP_DEPRECATED))  // line 125
      case 40 => ("cuCtxSynchronize", HipCounter("hipCtxSynchronize", "", CONV_CONTEXT, API_DRIVER, 8, HIP_DEPRECATED))  // line 128
      case 41 => ("cuD3D10CtxCreate", HipCounter("hipD3D10CtxCreate", "", CONV_D3D10, API_DRIVER, 37, HIP_UNSUPPORTED | CUDA_DEPRECATED))  // line 982
      case _ => ("cuD3D10CtxCreateOnDevice", HipCounter("hipD3D10CtxCreateOnDevice", "", CONV_D3D10, API_DRIVER, 37, HIP_UNSUPPORTED | CUDA_DEPRECATED))  // line 984
    )
    else if i < 47 then (
      match i
      case 43 => ("cuD3D10GetDevice", HipCounter("hipD3D10GetDevice", "", CONV_D3D10, API_DRIVER, 37, HIP_UNSUPPORTED))  // line 974
      case 44 => ("cuD3D10GetDevices", HipCounter("hipD3D10GetDevices", "", CONV_D3D10, API_DRIVER, 37, HIP_UNSUPPORTED))  // line 976
      case 45 => ("cuD3D10GetDirect3DDevice", HipCounter("hipD3D10GetDirect3DDevice", "", CONV_D3D10, API_DRIVER, 37, HIP_UNSUPPORTED | CUDA_DEPRECATED))  // line 986
      case _ => ("cuD3D10MapResources", HipCounter("hipD3D10MapResources", "", CONV_D3D10, API_DRIVER, 37, HIP_UNSUPPORTED | CUDA_DEPRECATED))  // line 988
    )
    else if i < 51 then (
      match i
      case 47 => ("cuD3D10RegisterResource", HipCounter("hipD3D10RegisterResource", "", CONV_D3D10, API_DRIVER, 37, HIP_UNSUPPORTED | CUDA_DEPRECATED))  // line 990
      case 48 => ("cuD3D10ResourceGetMappedArray", HipCounter("hipD3D10ResourceGetMappedArray", "", CONV_D3D10, API_DRIVER, 37, HIP_UNSUPPORTED | CUDA_DEPRECATED))  // line 992
      case 49 => ("cuD3D10ResourceGetMappedPitch", HipCounter("hipD3D10ResourceGetMappedPitch", "", CONV_D3D10, API_DRIVER, 37, HIP_UNSUPPORTED | CUDA_DEPRECATED))  // line 994
      case _ => ("cuD3D10ResourceGetMappedPointer", HipCounter("hipD3D10ResourceGetMappedPointer", "", CONV_D3D10, API_DRIVER, 37, HIP_UNSUPPORTED | CUDA_DEPRECATED))  // line 996
    )
    else if i < 55 then (
      match i
      case 51 => ("cuD3D10ResourceGetMappedSize", HipCounter("hipD3D10ResourceGetMappedSize", "", CONV_D3D10, API_DRIVER, 37, HIP_UNSUPPORTED | CUDA_DEPRECATED))  // line 998
      case 52 => ("cuD3D10ResourceGetSurfaceDimensions", HipCounter("hipD3D10ResourceGetSurfaceDimensions", "", CONV_D3D10, API_DRIVER, 37, HIP_UNSUPPORTED | CUDA_DEPRECATED))  // line 1000
      case 53 => ("cuD3D10ResourceSetMapFlags", HipCounter("hipD3D10ResourceSetMapFlags", "", CONV_D3D10, API_DRIVER, 37, HIP_UNSUPPORTED | CUDA_DEPRECATED))  // line 1002
      case _ => ("cuD3D10UnmapResources", HipCounter("hipD3D10UnmapResources", "", CONV_D3D10, API_DRIVER, 37, HIP_UNSUPPORTED | CUDA_DEPRECATED))  // line 1004
    )
    else if i < 59 then (
      match i
      case 55 => ("cuD3D10UnregisterResource", HipCounter("hipD3D10UnregisterResource", "", CONV_D3D10, API_DRIVER, 37, HIP_UNSUPPORTED | CUDA_DEPRECATED))  // line 1006
      case 56 => ("cuD3D11CtxCreate", HipCounter("hipD3D11CtxCreate", "", CONV_D3D11, API_DRIVER, 38, HIP_UNSUPPORTED | CUDA_DEPRECATED))  // line 1018
      case 57 => ("cuD3D11CtxCreateOnDevice", HipCounter("hipD3D11CtxCreateOnDevice", "", CONV_D3D11, API_DRIVER, 38, HIP_UNSUPPORTED | CUDA_DEPRECATED))  // line 1020
      case _ => ("cuD3D11GetDevice", HipCounter("hipD3D11GetDevice", "", CONV_D3D11, API_DRIVER, 38, HIP_UNSUPPORTED))  // line 1010
    )
    else (
      match i
      case 59 => ("cuD3D11GetDevices", HipCounter("hipD3D11GetDevices", "", CONV_D3D11, API_DRIVER, 38, HIP_UNSUPPORTED))  // line 1012
      case 60 => ("cuD3D11GetDirect3DDevice", HipCounter("hipD3D11GetDirect3DDevice", "", CONV_D3D11, API_DRIVER, 38, HIP_UNSUPPORTED | CUDA_DEPRECATED))  // line 1022
      case _ => ("cuD3D9CtxCreate", HipCounter("hipD3D9CtxCreate", "", CONV_D3D9, API_DRIVER, 36, HIP_UNSUPPORTED))  // line 938
    )
  }

  /** Rows 0 to 61. */
  function FunctionRows000To061(i: nat): (string, HipCounter)
    requires 0 <= i < 62
  {
    if i < 31 then FunctionRows000To030(i)
    else FunctionRows031To061(i)
  }

  /** Rows 62 to 92. */
  function FunctionRows062To092(i: nat): (string, HipCounter)
    requires 62 <= i < 93
  {
    if i < 66 then (
      match i
      case 62 => ("cuD3D9CtxCreateOnDevice", HipCounter("hipD3D9CtxCreateOnDevice", "", CONV_D3D9, API_DRIVER, 36, HIP_UNSUPPORTED))  // line 940
      case 63 => ("cuD3D9GetDevice", HipCounter("hipD3D9GetDevice", "", CONV_D3D9, API_DRIVER, 36, HIP_UNSUPPORTED))  // line 942
      case 64 => ("cuD3D9GetDevices", HipCounter("hipD3D9GetDevices", "", CONV_D3D9, API_DRIVER, 36, HIP_UNSUPPORTED))  // line 944
      case _ => ("cuD3D9GetDirect3DDevice", HipCounter("hipD3D9GetDirect3DDevice", "", CONV_D3D9, API_DRIVER, 36, HIP_UNSUPPORTED))  // line 946
    )
    else if i < 70 then (
      match i
      case 66 => ("cuD3D9MapResources", HipCounter("hipD3D9MapResources", "", CONV_D3D9, API_DRIVER, 36, HIP_UNSUPPORTED | CUDA_DEPRECATED))  // line 952
      case 67 => ("cuD3D9RegisterResource", HipCounter("hipD3D9RegisterResource", "", CONV_D3D9, API_DRIVER, 36, HIP_UNSUPPORTED | CUDA_DEPRECATED))  // line 954
      case 68 => ("cuD3D9ResourceGetMappedArray", HipCounter("hipD3D9ResourceGetMappedArray", "", CONV_D3D9, API_DRIVER, 36, HIP_UNSUPPORTED | CUDA_DEPRECATED))  // line 956
      case _ => ("cuD3D9ResourceGetMappedPitch", HipCounter("hipD3D9ResourceGetMappedPitch", "", CONV_D3D9, API_DRIVER, 36, HIP_UNSUPPORTED | CUDA_DEPRECATED))  // line 958
    )
    else if i < 74 then (
      match i
      case 70 => ("cuD3D9ResourceGetMappedPointer", HipCounter("hipD3D9ResourceGetMappedPointer", "", CONV_D3D9, API_DRIVER, 36, HIP_UNSUPPORTED | CUDA_DEPRECATED))  // line 960
      case 71 => ("cuD3D9ResourceGetMappedSize", HipCounter("hipD3D9ResourceGetMappedSize", "", CONV_D3D9, API_DRIVER, 36, HIP_UNSUPPORTED | CUDA_DEPRECATED))  // line 962
      case 72 => ("cuD3D9ResourceGetSurfaceDimensions", HipCounter("hipD3D9ResourceGetSurfaceDimensions", "", CONV_D3D9, API_DRIVER, 36, HIP_UNSUPPORTED | CUDA_DEPRECATED))  // line 964
      case _ => ("cuD3D9ResourceSetMapFlags", HipCounter("hipD3D9ResourceSetMapFlags", "", CONV_D3D9, API_DRIVER, 36, HIP_UNSUPPORTED | CUDA_DEPRECATED))  // line 966
    )
    else if i < 78 then (
      match i
      case 74 => ("cuD3D9UnmapResources", HipCounter("hipD3D9UnmapResources", "", CONV_D3D9, API_DRIVER, 36, HIP_UNSUPPORTED | CUDA_DEPRECATED))  // line 968
      case 75 => ("cuD3D9UnregisterResource", HipCounter("hipD3D9UnregisterResource", "", CONV_D3D9, API_DRIVER, 36, HIP_UNSUPPORTED | CUDA_DEPRECATED))  // line 970
      case 76 => ("cuDestroyExternalMemory", HipCounter("hipDestroyExternalMemory", "", CONV_EXT_RES, API_DRIVER, 19, 0))  // line 495
      case _ => ("cuDestroyExternalSemaphore", HipCounter("hipDestroyExternalSemaphore", "", CONV_EXT_RES, API_DRIVER, 19, 0))  // line 497
    )
    else if i < 82 then (
      match i
      case 78 => ("cuDeviceCanAccessPeer", HipCounter("hipDeviceCanAccessPeer", "", CONV_PEER, API_DRIVER, 30, 0))  // line 864
      case 79 => ("cuDeviceComputeCapability", HipCounter("hipDeviceComputeCapability", "", CONV_DEVICE, API_DRIVER, 6, CUDA_DEPRECATED))  // line 76
      case 80 => ("cuDeviceGet", HipCounter("hipDeviceGet", "", CONV_DEVICE, API_DRIVER, 5, 0))  // line 46
      case _ => ("cuDeviceGetAttribute", HipCounter("hipDeviceGetAttribute", "", CONV_DEVICE, API_DRIVER, 5, 0))  // line 48
    )
    else if i < 86 then (
      match i
      case 82 => ("cuDeviceGetByPCIBusId", HipCounter("hipDeviceGetByPCIBusId", "", CONV_MEMORY, API_DRIVER, 13, 0))  // line 193
      case 83 => ("cuDeviceGetCount", HipCounter("hipGetDeviceCount", "", CONV_DEVICE, API_DRIVER, 5, 0))  // line 50
      case 84 => ("cuDeviceGetDefaultMemPool", HipCounter("hipDeviceGetDefaultMemPool", "", CONV_DEVICE, API_DRIVER, 5, 0))  // line 71
      case _ => ("cuDeviceGetExecAffinitySupport", HipCounter("hipDeviceGetExecAffinitySupport", "", CONV_DEVICE, API_DRIVER, 5, HIP_UNSUPPORTED))  // line 73
    )
    else if i < 90 then (
      match i
      case 86 => ("cuDeviceGetGraphMemAttribute", HipCounter("hipDeviceGetGraphMemAttribute", "", CONV_GRAPH, API_DRIVER, 23, 0))  // line 749
      case 87 => ("cuDeviceGetLuid", HipCounter("hipDeviceGetLuid", "", CONV_DEVICE, API_DRIVER, 5, HIP_UNSUPPORTED))  // line 52
      case 88 => ("cuDeviceGetMemPool", HipCounter("hipDeviceGetMemPool", "", CONV_DEVICE, API_DRIVER, 5, 0))  // line 69
      case _ => ("cuDeviceGetName", HipCounter("hipDeviceGetName", "", CONV_DEVICE, API_DRIVER, 5, 0))  // line 54
    )
    else (
      match i
      case 90 => ("cuDeviceGetNvSciSyncAttributes", HipCounter("hipDeviceGetNvSciSyncAttributes", "", CONV_DEVICE, API_DRIVER, 5, HIP_UNSUPPORTED))  // line 56
      case 91 => ("cuDeviceGetP2PAttribute", HipCounter("hipDeviceGetP2PAttribute", "", CONV_PEER, API_DRIVER, 30, 0))  // line 866
      case _ => ("cuDeviceGetPCIBusId", HipCounter("hipDeviceGetPCIBusId", "", CONV_MEMORY, API_DRIVER, 13, 0))  // line 195
    )
  }

  /** Rows 93 to 123. */
  function FunctionRows093To123(i: nat): (string, HipCounter)
    requires 93 <= i < 124
  {
    if i < 97 then (
      match i
      case 93 => ("cuDeviceGetProperties", HipCounter("hipGetDeviceProperties_", "", CONV_DEVICE, API_DRIVER, 6, HIP_UNSUPPORTED | CUDA_DEPRECATED))  // line 79
      case 94 => ("cuDeviceGetTexture1DLinearMaxWidth", HipCounter("hipDeviceGetTexture1DLinearMaxWidth", "", CONV_DEVICE, API_DRIVER, 5, HIP_UNSUPPORTED))  // line 65
      case 95 => ("cuDeviceGetUuid", HipCounter("hipDeviceGetUuid", "", CONV_DEVICE, API_DRIVER, 5, 0))  // line 58
      case _ => ("cuDeviceGetUuid_v2", HipCounter("hipDeviceGetUuid", "", CONV_DEVICE, API_DRIVER, 5, 0))  // line 60
    )
    else if i < 101 then (
      match i
      case 97 => ("cuDeviceGraphMemTrim", HipCounter("hipDeviceGraphMemTrim", "", CONV_GRAPH, API_DRIVER, 23, 0))  // line 747
      case 98 => ("cuDevicePrimaryCtxGetState", HipCounter("hipDevicePrimaryCtxGetState", "", CONV_CONTEXT, API_DRIVER, 7, 0))  // line 83
      case 99 => ("cuDevicePrimaryCtxRelease", HipCounter("hipDevicePrimaryCtxRelease", "", CONV_CONTEXT, API_DRIVER, 7, 0))  // line 84
      case _ => ("cuDevicePrimaryCtxRelease_v2", HipCounter("hipDevicePrimaryCtxRelease", "", CONV_CONTEXT, API_DRIVER, 7, 0))  // line 85
    )
    else if i < 105 then (
      match i
      case 101 => ("cuDevicePrimaryCtxReset", HipCounter("hipDevicePrimaryCtxReset", "", CONV_CONTEXT, API_DRIVER, 7, 0))  // line 86
      case 102 => ("cuDevicePrimaryCtxReset_v2", HipCounter("hipDevicePrimaryCtxReset", "", CONV_CONTEXT, API_DRIVER, 7, 0))  // line 87
      case 103 => ("cuDevicePrimaryCtxRetain", HipCounter("hipDevicePrimaryCtxRetain", "", CONV_CONTEXT, API_DRIVER, 7, 0))  // line 88
      case _ => ("cuDevicePrimaryCtxSetFlags", HipCounter("hipDevicePrimaryCtxSetFlags", "", CONV_CONTEXT, API_DRIVER, 7, 0))  // line 89
    )
    else if i < 109 then (
      match i
      case 105 => ("cuDevicePrimaryCtxSetFlags_v2", HipCounter("hipDevicePrimaryCtxSetFlags", "", CONV_CONTEXT, API_DRIVER, 7, 0))  // line 90
      case 106 => ("cuDeviceSetGraphMemAttribute", HipCounter("hipDeviceSetGraphMemAttribute", "", CONV_GRAPH, API_DRIVER, 23, 0))  // line 751
      case 107 => ("cuDeviceSetMemPool", HipCounter("hipDeviceSetMemPool", "", CONV_DEVICE, API_DRIVER, 5, 0))  // line 67
      case _ => ("cuDeviceTotalMem", HipCounter("hipDeviceTotalMem", "", CONV_DEVICE, API_DRIVER, 5, 0))  // line 62
    )
    else if i < 113 then (
      match i
      case 109 => ("cuDeviceTotalMem_v2", HipCounter("hipDeviceTotalMem", "", CONV_DEVICE, API_DRIVER, 5, 0))  // line 63
      case 110 => ("cuDriverGetVersion", HipCounter("hipDriverGetVersion", "", CONV_VERSION, API_DRIVER, 4, 0))  // line 41
      case 111 => ("cuEGLStreamConsumerAcquireFrame", HipCounter("hipEGLStreamConsumerAcquireFrame", "", CONV_EGL, API_DRIVER, 40, HIP_UNSUPPORTED))  // line 1036
      case _ => ("cuEGLStreamConsumerConnect", HipCounter("hipEGLStreamConsumerConnect", "", CONV_EGL, API_DRIVER, 40, HIP_UNSUPPORTED))  // line 1038
    )
    else if i < 117 then (
      match i
      case 113 => ("cuEGLStreamConsumerConnectWithFlags", HipCounter("hipEGLStreamConsumerConnectWithFlags", "", CONV_EGL, API_DRIVER, 40, HIP_UNSUPPORTED))  // line 1040
      case 114 => ("cuEGLStreamConsumerDisconnect", HipCounter("hipEGLStreamConsumerDisconnect", "", CONV_EGL, API_DRIVER, 40, HIP_UNSUPPORTED))  // line 1042
      case 115 => ("cuEGLStreamConsumerReleaseFrame", HipCounter("hipEGLStreamConsumerReleaseFrame", "", CONV_EGL, API_DRIVER, 40, HIP_UNSUPPORTED))  // line 1044
      case _ => ("cuEGLStreamProducerConnect", HipCounter("hipEGLStreamProducerConnect", "", CONV_EGL, API_DRIVER, 40, HIP_UNSUPPORTED))  // line 1046
    )
    else if i < 121 then (
      match i
      case 117 => ("cuEGLStreamProducerDisconnect", HipCounter("hipEGLStreamProducerDisconnect", "", CONV_EGL, API_DRIVER, 40, HIP_UNSUPPORTED))  // line 1048
      case 118 => ("cuEGLStreamProducerPresentFrame", HipCounter("hipEGLStreamProducerPresentFrame", "", CONV_EGL, API_DRIVER, 40, HIP_UNSUPPORTED))  // line 1050
      case 119 => ("cuEGLStreamProducerReturnFrame", HipCounter("hipEGLStreamProducerReturnFrame", "", CONV_EGL, API_DRIVER, 40, HIP_UNSUPPORTED))  // line 1052
      case _ => ("cuEventCreate", HipCounter("hipEventCreateWithFlags", "", CONV_EVENT, API_DRIVER, 18, 0))  // line 478
    )
    else (
      match i
      case 121 => ("cuEventCreateFromEGLSync", HipCounter("hipEventCreateFromEGLSync", "", CONV_EGL, API_DRIVER, 40, HIP_UNSUPPORTED))  // line 1058
      case 122 => ("cuEventDestroy", HipCounter("hipEventDestroy", "", CONV_EVENT, API_DRIVER, 18, 0))  // line 480
      case _ => ("cuEventDestroy_v2", HipCounter("hipEventDestroy", "", CONV_EVENT, API_DRIVER, 18, 0))  // line 481
    )
  }

  /** Rows 62 to 123. */
  function FunctionRows062To123(i: nat): (string, HipCounter)
    requires 62 <= i < 124
  {
    if i < 93 then FunctionRows062To092(i)
    else FunctionRows093To123(i)
  }

  /** Rows 124 to 153. */
  function FunctionRows124To153(i: nat): (string, HipCounter)
    requires 124 <= i < 154
  {
    if i < 128 then (
      match i
      case 124 => ("cuEventElapsedTime", HipCounter("hipEventElapsedTime", "", CONV_EVENT, API_DRIVER, 18, 0))  // line 483
      case 125 => ("cuEventQuery", HipCounter("hipEventQuery", "", CONV_EVENT, API_DRIVER, 18, 0))  // line 485
      case 126 => ("cuEventRecord", HipCounter("hipEventRecord", "", CONV_EVENT, API_DRIVER, 18, 0))  // line 487
      case _ => ("cuEventRecordWithFlags", HipCounter("hipEventRecordWithFlags", "", CONV_EVENT, API_DRIVER, 18, HIP_UNSUPPORTED))  // line 491
    )
    else if i < 132 then (
      match i
      case 128 => ("cuEventSynchronize", HipCounter("hipEventSynchronize", "", CONV_EVENT, API_DRIVER, 18, 0))  // line 489
      case 129 => ("cuExternalMemoryGetMappedBuffer", HipCounter("hipExternalMemoryGetMappedBuffer", "", CONV_EXT_RES, API_DRIVER, 19, 0))  // line 499
      case 130 => ("cuExternalMemoryGetMappedMipmappedArray", HipCounter("hipExternalMemoryGetMappedMipmappedArray", "", CONV_EXT_RES, API_DRIVER, 19, HIP_UNSUPPORTED))  // line 501
      case _ => ("cuFlushGPUDirectRDMAWrites", HipCounter("hipDeviceFlushGPUDirectRDMAWrites", "", CONV_PROFILER, API_DRIVER, 32, HIP_UNSUPPORTED))  // line 892
    )
    else if i < 136 then (
      match i
      case 132 => ("cuFuncGetAttribute", HipCounter("hipFuncGetAttribute", "", CONV_EXECUTION, API_DRIVER, 21, 0))  // line 543
      case 133 => ("cuFuncGetModule", HipCounter("hipFuncGetModule", "", CONV_EXECUTION, API_DRIVER, 21, HIP_UNSUPPORTED))  // line 545
      case 134 => ("cuFuncSetAttribute", HipCounter("hipFuncSetAttribute_", "", CONV_EXECUTION, API_DRIVER, 21, HIP_UNSUPPORTED))  // line 548
      case _ => ("cuFuncSetBlockShape", HipCounter("hipFuncSetBlockShape", "", CONV_EXECUTION, API_DRIVER, 22, HIP_UNSUPPORTED | CUDA_DEPRECATED))  // line 572
    )
    else if i < 140 then (
      match i
      case 136 => ("cuFuncSetCacheConfig", HipCounter("hipFuncSetCacheConfig_", "", CONV_EXECUTION, API_DRIVER, 21, HIP_UNSUPPORTED))  // line 551
      case 137 => ("cuFuncSetSharedMemConfig", HipCounter("hipFuncSetSharedMemConfig_", "", CONV_EXECUTION, API_DRIVER, 21, HIP_UNSUPPORTED))  // line 554
      case 138 => ("cuFuncSetSharedSize", HipCounter("hipFuncSetSharedSize", "", CONV_EXECUTION, API_DRIVER, 22, HIP_UNSUPPORTED | CUDA_DEPRECATED))  // line 574
      case _ => ("cuGLCtxCreate", HipCounter("hipGLCtxCreate", "", CONV_OPENGL, API_DRIVER, 35, HIP_UNSUPPORTED | CUDA_DEPRECATED))  // line 916
    )
    else if i < 144 then (
      match i
      case 140 => ("cuGLGetDevices", HipCounter("hipGLGetDevices", "", CONV_OPENGL, API_DRIVER, 35, 0))  // line 906
      case 141 => ("cuGLInit", HipCounter("hipGLInit", "", CONV_OPENGL, API_DRIVER, 35, HIP_UNSUPPORTED | CUDA_DEPRECATED))  // line 918
      case 142 => ("cuGLMapBufferObject", HipCounter("hipGLMapBufferObject_", "", CONV_OPENGL, API_DRIVER, 35, HIP_UNSUPPORTED | CUDA_DEPRECATED))  // line 921
      case _ => ("cuGLMapBufferObjectAsync", HipCounter("hipGLMapBufferObjectAsync_", "", CONV_OPENGL, API_DRIVER, 35, HIP_UNSUPPORTED | CUDA_DEPRECATED))  // line 924
    )
    else if i < 148 then (
      match i
      case 144 => ("cuGLRegisterBufferObject", HipCounter("hipGLRegisterBufferObject", "", CONV_OPENGL, API_DRIVER, 35, HIP_UNSUPPORTED | CUDA_DEPRECATED))  // line 926
      case 145 => ("cuGLSetBufferObjectMapFlags", HipCounter("hipGLSetBufferObjectMapFlags", "", CONV_OPENGL, API_DRIVER, 35, HIP_UNSUPPORTED | CUDA_DEPRECATED))  // line 928
      case 146 => ("cuGLUnmapBufferObject", HipCounter("hipGLUnmapBufferObject", "", CONV_OPENGL, API_DRIVER, 35, HIP_UNSUPPORTED | CUDA_DEPRECATED))  // line 930
      case _ => ("cuGLUnmapBufferObjectAsync", HipCounter("hipGLUnmapBufferObjectAsync", "", CONV_OPENGL, API_DRIVER, 35, HIP_UNSUPPORTED | CUDA_DEPRECATED))  // line 932
    )
    else if i < 152 then (
      match i
      case 148 => ("cuGLUnregisterBufferObject", HipCounter("hipGLUnregisterBufferObject", "", CONV_OPENGL, API_DRIVER, 35, HIP_UNSUPPORTED | CUDA_DEPRECATED))  // line 934
      case 149 => ("cuGetErrorName", HipCounter("hipDrvGetErrorName", "", CONV_ERROR, API_DRIVER, 2, HIP_EXPERIMENTAL))  // line 30
      case 150 => ("cuGetErrorString", HipCounter("hipDrvGetErrorString", "", CONV_ERROR, API_DRIVER, 2, HIP_EXPERIMENTAL))  // line 33
      case _ => ("cuGetProcAddress", HipCounter("hipGetProcAddress", "", CONV_PROFILER, API_DRIVER, 32, HIP_UNSUPPORTED))  // line 890
    )
    else (
      match i
      case 152 => ("cuGraphAddBatchMemOpNode", HipCounter("hipGraphAddBatchMemOpNode", "", CONV_GRAPH, API_DRIVER, 23, HIP_UNSUPPORTED))  // line 755
      case _ => ("cuGraphAddChildGraphNode", HipCounter("hipGraphAddChildGraphNode", "", CONV_GRAPH, API_DRIVER, 23, 0))  // line 595
    )
  }

  /** Rows 154 to 183. */
  function FunctionRows154To183(i: nat): (string, HipCounter)
    requires 154 <= i < 184
  {
    if i < 158 then (
      match i
      case 154 => ("cuGraphAddDependencies", HipCounter("hipGraphAddDependencies", "", CONV_GRAPH, API_DRIVER, 23, 0))  // line 597
      case 155 => ("cuGraphAddEmptyNode", HipCounter("hipGraphAddEmptyNode", "", CONV_GRAPH, API_DRIVER, 23, 0))  // line 599
      case 156 => ("cuGraphAddEventRecordNode", HipCounter("hipGraphAddEventRecordNode", "", CONV_GRAPH, API_DRIVER, 23, 0))  // line 693
      case _ => ("cuGraphAddEventWaitNode", HipCounter("hipGraphAddEventWaitNode", "", CONV_GRAPH, API_DRIVER, 23, 0))  // line 699
    )
    else if i < 162 then (
      match i
      case 158 => ("cuGraphAddExternalSemaphoresSignalNode", HipCounter("hipGraphAddExternalSemaphoresSignalNode", "", CONV_GRAPH, API_DRIVER, 23, HIP_UNSUPPORTED))  // line 713
      case 159 => ("cuGraphAddExternalSemaphoresWaitNode", HipCounter("hipGraphAddExternalSemaphoresWaitNode", "", CONV_GRAPH, API_DRIVER, 23, HIP_UNSUPPORTED))  // line 719
      case 160 => ("cuGraphAddHostNode", HipCounter("hipGraphAddHostNode", "", CONV_GRAPH, API_DRIVER, 23, 0))  // line 601
      case _ => ("cuGraphAddKernelNode", HipCounter("hipGraphAddKernelNode", "", CONV_GRAPH, API_DRIVER, 23, 0))  // line 603
    )
    else if i < 166 then (
      match i
      case 162 => ("cuGraphAddMemAllocNode", HipCounter("hipGraphAddMemAllocNode", "", CONV_GRAPH, API_DRIVER, 23, HIP_UNSUPPORTED))  // line 739
      case 163 => ("cuGraphAddMemFreeNode", HipCounter("hipGraphAddMemFreeNode", "", CONV_GRAPH, API_DRIVER, 23, HIP_UNSUPPORTED))  // line 743
      case 164 => ("cuGraphAddMemcpyNode", HipCounter("hipGraphAddMemcpyNode", "", CONV_GRAPH, API_DRIVER, 23, HIP_UNSUPPORTED))  // line 608
      case _ => ("cuGraphAddMemsetNode", HipCounter("hipGraphAddMemsetNode", "", CONV_GRAPH, API_DRIVER, 23, HIP_UNSUPPORTED))  // line 613
    )
    else if i < 170 then (
      match i
      case 166 => ("cuGraphBatchMemOpNodeGetParams", HipCounter("hipGraphBatchMemOpNodeGetParams", "", CONV_GRAPH, API_DRIVER, 23, HIP_UNSUPPORTED))  // line 757
      case 167 => ("cuGraphBatchMemOpNodeSetParams", HipCounter("hipGraphBatchMemOpNodeSetParams", "", CONV_GRAPH, API_DRIVER, 23, HIP_UNSUPPORTED))  // line 759
      case 168 => ("cuGraphChildGraphNodeGetGraph", HipCounter("hipGraphChildGraphNodeGetGraph", "", CONV_GRAPH, API_DRIVER, 23, 0))  // line 615
      case _ => ("cuGraphClone", HipCounter("hipGraphClone", "", CONV_GRAPH, API_DRIVER, 23, 0))  // line 617
    )
    else if i < 174 then (
      match i
      case 170 => ("cuGraphCreate", HipCounter("hipGraphCreate", "", CONV_GRAPH, API_DRIVER, 23, 0))  // line 619
      case 171 => ("cuGraphDebugDotPrint", HipCounter("hipGraphDebugDotPrint", "", CONV_GRAPH, API_DRIVER, 23, HIP_UNSUPPORTED))  // line 621
      case 172 => ("cuGraphDestroy", HipCounter("hipGraphDestroy", "", CONV_GRAPH, API_DRIVER, 23, 0))  // line 623
      case _ => ("cuGraphDestroyNode", HipCounter("hipGraphDestroyNode", "", CONV_GRAPH, API_DRIVER, 23, 0))  // line 625
    )
    else if i < 178 then (
      match i
      case 174 => ("cuGraphEventRecordNodeGetEvent", HipCounter("hipGraphEventRecordNodeGetEvent", "", CONV_GRAPH, API_DRIVER, 23, 0))  // line 695
      case 175 => ("cuGraphEventRecordNodeSetEvent", HipCounter("hipGraphEventRecordNodeSetEvent", "", CONV_GRAPH, API_DRIVER, 23, 0))  // line 697
      case 176 => ("cuGraphEventWaitNodeGetEvent", HipCounter("hipGraphEventWaitNodeGetEvent", "", CONV_GRAPH, API_DRIVER, 23, 0))  // line 701
      case _ => ("cuGraphEventWaitNodeSetEvent", HipCounter("hipGraphEventWaitNodeSetEvent", "", CONV_GRAPH, API_DRIVER, 23, 0))  // line 703
    )
    else if i < 182 then (
      match i
      case 178 => ("cuGraphExecBatchMemOpNodeSetParams", HipCounter("hipGraphExecBatchMemOpNodeSetParams", "", CONV_GRAPH, API_DRIVER, 23, HIP_UNSUPPORTED))  // line 761
      case 179 => ("cuGraphExecChildGraphNodeSetParams", HipCounter("hipGraphExecChildGraphNodeSetParams", "", CONV_GRAPH, API_DRIVER, 23, 0))  // line 705
      case 180 => ("cuGraphExecDestroy", HipCounter("hipGraphExecDestroy", "", CONV_GRAPH, API_DRIVER, 23, 0))  // line 627
      case _ => ("cuGraphExecEventRecordNodeSetEvent", HipCounter("hipGraphExecEventRecordNodeSetEvent", "", CONV_GRAPH, API_DRIVER, 23, 0))  // line 707
    )
    else (
      match i
      case 182 => ("cuGraphExecEventWaitNodeSetEvent", HipCounter("hipGraphExecEventWaitNodeSetEvent", "", CONV_GRAPH, API_DRIVER, 23, 0))  // line 709
      case _ => ("cuGraphExecExternalSemaphoresSignalNodeSetParams", HipCounter("hipGraphExecExternalSemaphoresSignalNodeSetParams", "", CONV_GRAPH, API_DRIVER, 23, HIP_UNSUPPORTED))  // line 725
    )
  }

  /** Rows 124 to 183. */
  function FunctionRows124To183(i: nat): (string, HipCounter)
    requires 124 <= i < 184
  {
    if i < 154 then FunctionRows124To153(i)
    else FunctionRows154To183(i)
  }

  /** Rows 184 to 213. */
  function FunctionRows184To213(i: nat): (string, HipCounter)
    requires 184 <= i < 214
  {
    if i < 188 then (
      match i
      case 184 => ("cuGraphExecExternalSemaphoresWaitNodeSetParams", HipCounter("hipGraphExecExternalSemaphoresWaitNodeSetParams", "", CONV_GRAPH, API_DRIVER, 23, HIP_UNSUPPORTED))  // line 727
      case 185 => ("cuGraphExecGetFlags", HipCounter("hipGraphExecGetFlags", "", CONV_GRAPH, API_DRIVER, 23, HIP_UNSUPPORTED))  // line 765
      case 186 => ("cuGraphExecHostNodeSetParams", HipCounter("hipGraphExecHostNodeSetParams", "", CONV_GRAPH, API_DRIVER, 23, 0))  // line 688
      case _ => ("cuGraphExecKernelNodeSetParams", HipCounter("hipGraphExecKernelNodeSetParams", "", CONV_GRAPH, API_DRIVER, 23, 0))  // line 646
    )
    else if i < 192 then (
      match i
      case 188 => ("cuGraphExecMemcpyNodeSetParams", HipCounter("hipGraphExecMemcpyNodeSetParams", "", CONV_GRAPH, API_DRIVER, 23, HIP_UNSUPPORTED))  // line 681
      case 189 => ("cuGraphExecMemsetNodeSetParams", HipCounter("hipGraphExecMemsetNodeSetParams", "", CONV_GRAPH, API_DRIVER, 23, HIP_UNSUPPORTED))  // line 686
      case 190 => ("cuGraphExecUpdate", HipCounter("hipGraphExecUpdate", "", CONV_GRAPH, API_DRIVER, 23, 0))  // line 691
      case _ => ("cuGraphExternalSemaphoresSignalNodeGetParams", HipCounter("hipGraphExternalSemaphoresSignalNodeGetParams", "", CONV_GRAPH, API_DRIVER, 23, HIP_UNSUPPORTED))  // line 715
    )
    else if i < 196 then (
      match i
      case 192 => ("cuGraphExternalSemaphoresSignalNodeSetParams", HipCounter("hipGraphExternalSemaphoresSignalNodeSetParams", "", CONV_GRAPH, API_DRIVER, 23, HIP_UNSUPPORTED))  // line 717
      case 193 => ("cuGraphExternalSemaphoresWaitNodeGetParams", HipCounter("hipGraphExternalSemaphoresWaitNodeGetParams", "", CONV_GRAPH, API_DRIVER, 23, HIP_UNSUPPORTED))  // line 721
      case 194 => ("cuGraphExternalSemaphoresWaitNodeSetParams", HipCounter("hipGraphExternalSemaphoresWaitNodeSetParams", "", CONV_GRAPH, API_DRIVER, 23, HIP_UNSUPPORTED))  // line 723
      case _ => ("cuGraphGetEdges", HipCounter("hipGraphGetEdges", "", CONV_GRAPH, API_DRIVER, 23, 0))  // line 629
    )
    else if i < 200 then (
      match i
      case 196 => ("cuGraphGetNodes", HipCounter("hipGraphGetNodes", "", CONV_GRAPH, API_DRIVER, 23, 0))  // line 631
      case 197 => ("cuGraphGetRootNodes", HipCounter("hipGraphGetRootNodes", "", CONV_GRAPH, API_DRIVER, 23, 0))  // line 633
      case 198 => ("cuGraphHostNodeGetParams", HipCounter("hipGraphHostNodeGetParams", "", CONV_GRAPH, API_DRIVER, 23, 0))  // line 635
      case _ => ("cuGraphHostNodeSetParams", HipCounter("hipGraphHostNodeSetParams", "", CONV_GRAPH, API_DRIVER, 23, 0))  // line 637
    )
    else if i < 204 then (
      match i
      case 200 => ("cuGraphInstantiate", HipCounter("hipGraphInstantiate", "", CONV_GRAPH, API_DRIVER, 23, 0))  // line 639
      case 201 => ("cuGraphInstantiateWithFlags", HipCounter("hipGraphInstantiateWithFlags", "", CONV_GRAPH, API_DRIVER, 23, 0))  // line 753
      case 202 => ("cuGraphInstantiateWithParams", HipCounter("hipGraphInstantiateWithParams", "", CONV_GRAPH, API_DRIVER, 23, HIP_UNSUPPORTED))  // line 763
      case _ => ("cuGraphInstantiate_v2", HipCounter("hipGraphInstantiate", "", CONV_GRAPH, API_DRIVER, 23, 0))  // line 640
    )
    else if i < 208 then (
      match i
      case 204 => ("cuGraphKernelNodeCopyAttributes", HipCounter("hipGraphKernelNodeCopyAttributes", "", CONV_GRAPH, API_DRIVER, 23, HIP_UNSUPPORTED))  // line 642
      case 205 => ("cuGraphKernelNodeGetAttribute", HipCounter("hipGraphKernelNodeGetAttribute", "", CONV_GRAPH, API_DRIVER, 23, 0))  // line 644
      case 206 => ("cuGraphKernelNodeGetParams", HipCounter("hipGraphKernelNodeGetParams", "", CONV_GRAPH, API_DRIVER, 23, 0))  // line 648
      case _ => ("cuGraphKernelNodeSetAttribute", HipCounter("hipGraphKernelNodeSetAttribute", "", CONV_GRAPH, API_DRIVER, 23, 0))  // line 650
    )
    else if i < 212 then (
      match i
      case 208 => ("cuGraphKernelNodeSetParams", HipCounter("hipGraphKernelNodeSetParams", "", CONV_GRAPH, API_DRIVER, 23, 0))  // line 652
      case 209 => ("cuGraphLaunch", HipCounter("hipGraphLaunch", "", CONV_GRAPH, API_DRIVER, 23, 0))  // line 654
      case 210 => ("cuGraphMemAllocNodeGetParams", HipCounter("hipGraphMemAllocNodeGetParams", "", CONV_GRAPH, API_DRIVER, 23, HIP_UNSUPPORTED))  // line 741
      case _ => ("cuGraphMemFreeNodeGetParams", HipCounter("hipGraphMemFreeNodeGetParams", "", CONV_GRAPH, API_DRIVER, 23, HIP_UNSUPPORTED))  // line 745
    )
    else (
      match i
      case 212 => ("cuGraphMemcpyNodeGetParams", HipCounter("hipGraphMemcpyNodeGetParams", "", CONV_GRAPH, API_DRIVER, 23, 0))  // line 656
      case _ => ("cuGraphMemcpyNodeSetParams", HipCounter("hipGraphMemcpyNodeSetParams", "", CONV_GRAPH, API_DRIVER, 23, 0))  // line 658
    )
  }

  /** Rows 214 to 243. */
  function FunctionRows214To243(i: nat): (string, HipCounter)
    requires 214 <= i < 244
  {
    if i < 218 then (
      match i
      case 214 => ("cuGraphMemsetNodeGetParams", HipCounter("hipGraphMemsetNodeGetParams", "", CONV_GRAPH, API_DRIVER, 23, 0))  // line 660
      case 215 => ("cuGraphMemsetNodeSetParams", HipCounter("hipGraphMemsetNodeSetParams", "", CONV_GRAPH, API_DRIVER, 23, 0))  // line 662
      case 216 => ("cuGraphNodeFindInClone", HipCounter("hipGraphNodeFindInClone", "", CONV_GRAPH, API_DRIVER, 23, 0))  // line 664
      case _ => ("cuGraphNodeGetDependencies", HipCounter("hipGraphNodeGetDependencies", "", CONV_GRAPH, API_DRIVER, 23, 0))  // line 666
    )
    else if i < 222 then (
      match i
      case 218 => ("cuGraphNodeGetDependentNodes", HipCounter("hipGraphNodeGetDependentNodes", "", CONV_GRAPH, API_DRIVER, 23, 0))  // line 668
      case 219 => ("cuGraphNodeGetEnabled", HipCounter("hipGraphNodeGetEnabled", "", CONV_GRAPH, API_DRIVER, 23, HIP_UNSUPPORTED))  // line 670
      case 220 => ("cuGraphNodeGetType", HipCounter("hipGraphNodeGetType", "", CONV_GRAPH, API_DRIVER, 23, 0))  // line 672
      case _ => ("cuGraphNodeSetEnabled", HipCounter("hipGraphNodeSetEnabled", "", CONV_GRAPH, API_DRIVER, 23, HIP_UNSUPPORTED))  // line 674
    )
    else if i < 226 then (
      match i
      case 222 => ("cuGraphReleaseUserObject", HipCounter("hipGraphReleaseUserObject", "", CONV_GRAPH, API_DRIVER, 23, 0))  // line 737
      case 223 => ("cuGraphRemoveDependencies", HipCounter("hipGraphRemoveDependencies", "", CONV_GRAPH, API_DRIVER, 23, 0))  // line 676
      case 224 => ("cuGraphRetainUserObject", HipCounter("hipGraphRetainUserObject", "", CONV_GRAPH, API_DRIVER, 23, 0))  // line 735
      case _ => ("cuGraphUpload", HipCounter("hipGraphUpload", "", CONV_GRAPH, API_DRIVER, 23, 0))  // line 711
    )
    else if i < 230 then (
      match i
      case 226 => ("cuGraphicsD3D10RegisterResource", HipCounter("hipGraphicsD3D10RegisterResource", "", CONV_D3D10, API_DRIVER, 37, HIP_UNSUPPORTED))  // line 978
      case 227 => ("cuGraphicsD3D11RegisterResource", HipCounter("hipGraphicsD3D11RegisterResource", "", CONV_D3D11, API_DRIVER, 38, HIP_UNSUPPORTED))  // line 1014
      case 228 => ("cuGraphicsD3D9RegisterResource", HipCounter("hipGraphicsD3D9RegisterResource", "", CONV_D3D9, API_DRIVER, 36, HIP_UNSUPPORTED))  // line 948
      case _ => ("cuGraphicsEGLRegisterImage", HipCounter("hipGraphicsEGLRegisterImage", "", CONV_EGL, API_DRIVER, 40, HIP_UNSUPPORTED))  // line 1054
    )
    else if i < 234 then (
      match i
      case 230 => ("cuGraphicsGLRegisterBuffer", HipCounter("hipGraphicsGLRegisterBuffer", "", CONV_OPENGL, API_DRIVER, 35, 0))  // line 908
      case 231 => ("cuGraphicsGLRegisterImage", HipCounter("hipGraphicsGLRegisterImage", "", CONV_OPENGL, API_DRIVER, 35, 0))  // line 910
      case 232 => ("cuGraphicsMapResources", HipCounter("hipGraphicsMapResources", "", CONV_GRAPHICS, API_DRIVER, 31, 0))  // line 870
      case _ => ("cuGraphicsResourceGetMappedEglFrame", HipCounter("hipGraphicsResourceGetMappedEglFrame", "", CONV_EGL, API_DRIVER, 40, HIP_UNSUPPORTED))  // line 1056
    )
    else if i < 238 then (
      match i
      case 234 => ("cuGraphicsResourceGetMappedMipmappedArray", HipCounter("hipGraphicsResourceGetMappedMipmappedArray", "", CONV_GRAPHICS, API_DRIVER, 31, HIP_UNSUPPORTED))  // line 872
      case 235 => ("cuGraphicsResourceGetMappedPointer", HipCounter("hipGraphicsResourceGetMappedPointer", "", CONV_GRAPHICS, API_DRIVER, 31, 0))  // line 874
      case 236 => ("cuGraphicsResourceGetMappedPointer_v2", HipCounter("hipGraphicsResourceGetMappedPointer", "", CONV_GRAPHICS, API_DRIVER, 31, 0))  // line 876
      case _ => ("cuGraphicsResourceSetMapFlags", HipCounter("hipGraphicsResourceSetMapFlags", "", CONV_GRAPHICS, API_DRIVER, 31, HIP_UNSUPPORTED))  // line 878
    )
    else if i < 242 then (
      match i
      case 238 => ("cuGraphicsResourceSetMapFlags_v2", HipCounter("hipGraphicsResourceSetMapFlags", "", CONV_GRAPHICS, API_DRIVER, 31, HIP_UNSUPPORTED))  // line 880
      case 239 => ("cuGraphicsSubResourceGetMappedArray", HipCounter("hipGraphicsSubResourceGetMappedArray", "", CONV_GRAPHICS, API_DRIVER, 31, 0))  // line 882
      case 240 => ("cuGraphicsUnmapResources", HipCounter("hipGraphicsUnmapResources", "", CONV_GRAPHICS, API_DRIVER, 31, 0))  // line 884
      case _ => ("cuGraphicsUnregisterResource", HipCounter("hipGraphicsUnregisterResource", "", CONV_GRAPHICS, API_DRIVER, 31, 0))  // line 886
    )
    else (
      match i
      case 242 => ("cuGraphicsVDPAURegisterOutputSurface", HipCounter("hipGraphicsVDPAURegisterOutputSurface", "", CONV_VDPAU, API_DRIVER, 39, HIP_UNSUPPORTED))  // line 1026
      case _ => ("cuGraphicsVDPAURegisterVideoSurface", HipCounter("hipGraphicsVDPAURegisterVideoSurface", "", CONV_VDPAU, API_DRIVER, 39, HIP_UNSUPPORTED))  // line 1028
    )
  }

  /** Rows 184 to 243. */
  function FunctionRows184To243(i: nat): (string, HipCounter)
    requires 184 <= i < 244
  {
    if i < 214 then FunctionRows184To213(i)
    else FunctionRows214To243(i)
  }

  /** Rows 244 to 273. */
  function FunctionRows244To273(i: nat): (string, HipCounter)
    requires 244 <= i < 274
  {
    if i < 248 then (
      match i
      case 244 => ("cuImportExternalMemory", HipCounter("hipImportExternalMemory", "", CONV_EXT_RES, API_DRIVER, 19, 0))  // line 503
      case 245 => ("cuImportExternalSemaphore", HipCounter("hipImportExternalSemaphore", "", CONV_EXT_RES, API_DRIVER, 19, 0))  // line 505
      case 246 => ("cuInit", HipCounter("hipInit", "", CONV_INIT, API_DRIVER, 3, 0))  // line 37
      case _ => ("cuIpcCloseMemHandle", HipCounter("hipIpcCloseMemHandle", "", CONV_MEMORY, API_DRIVER, 13, 0))  // line 197
    )
    else if i < 252 then (
      match i
      case 248 => ("cuIpcGetEventHandle", HipCounter("hipIpcGetEventHandle", "", CONV_MEMORY, API_DRIVER, 13, 0))  // line 199
      case 249 => ("cuIpcGetMemHandle", HipCounter("hipIpcGetMemHandle", "", CONV_MEMORY, API_DRIVER, 13, 0))  // line 201
      case 250 => ("cuIpcOpenEventHandle", HipCounter("hipIpcOpenEventHandle", "", CONV_MEMORY, API_DRIVER, 13, 0))  // line 203
      case _ => ("cuIpcOpenMemHandle", HipCounter("hipIpcOpenMemHandle", "", CONV_MEMORY, API_DRIVER, 13, 0))  // line 205
    )
    else if i < 256 then (
      match i
      case 252 => ("cuKernelGetAttribute", HipCounter("hipKernelGetAttribute", "", CONV_LIBRARY, API_DRIVER, 12, HIP_UNSUPPORTED))  // line 173
      case 253 => ("cuKernelGetFunction", HipCounter("hipKernelGetFunction", "", CONV_LIBRARY, API_DRIVER, 12, HIP_UNSUPPORTED))  // line 169
      case 254 => ("cuKernelSetAttribute", HipCounter("hipKernelSetAttribute", "", CONV_LIBRARY, API_DRIVER, 12, HIP_UNSUPPORTED))  // line 174
      case _ => ("cuKernelSetCacheConfig", HipCounter("hipKernelSetCacheConfig", "", CONV_LIBRARY, API_DRIVER, 12, HIP_UNSUPPORTED))  // line 175
    )
    else if i < 260 then (
      match i
      case 256 => ("cuLaunch", HipCounter("hipLaunch", "", CONV_EXECUTION, API_DRIVER, 22, HIP_UNSUPPORTED | CUDA_DEPRECATED))  // line 577
      case 257 => ("cuLaunchCooperativeKernel", HipCounter("hipLaunchCooperativeKernel_", "", CONV_EXECUTION, API_DRIVER, 21, HIP_UNSUPPORTED))  // line 557
      case 258 => ("cuLaunchCooperativeKernelMultiDevice", HipCounter("hipLaunchCooperativeKernelMultiDevice_", "", CONV_EXECUTION, API_DRIVER, 21, HIP_UNSUPPORTED | CUDA_DEPRECATED))  // line 560
      case _ => ("cuLaunchGrid", HipCounter("hipLaunchGrid", "", CONV_EXECUTION, API_DRIVER, 22, HIP_UNSUPPORTED | CUDA_DEPRECATED))  // line 579
    )
    else if i < 264 then (
      match i
      case 260 => ("cuLaunchGridAsync", HipCounter("hipLaunchGridAsync", "", CONV_EXECUTION, API_DRIVER, 22, HIP_UNSUPPORTED | CUDA_DEPRECATED))  // line 581
      case 261 => ("cuLaunchHostFunc", HipCounter("hipLaunchHostFunc", "", CONV_EXECUTION, API_DRIVER, 21, 0))  // line 562
      case 262 => ("cuLaunchKernel", HipCounter("hipModuleLaunchKernel", "", CONV_EXECUTION, API_DRIVER, 21, 0))  // line 565
      case _ => ("cuLaunchKernelEx", HipCounter("hipLaunchKernelEx", "", CONV_EXECUTION, API_DRIVER, 21, HIP_UNSUPPORTED))  // line 568
    )
    else if i < 268 then (
      match i
      case 264 => ("cuLibraryGetGlobal", HipCounter("hipLibraryGetGlobal", "", CONV_LIBRARY, API_DRIVER, 12, HIP_UNSUPPORTED))  // line 170
      case 265 => ("cuLibraryGetKernel", HipCounter("hipLibraryGetKernel", "", CONV_LIBRARY, API_DRIVER, 12, HIP_UNSUPPORTED))  // line 167
      case 266 => ("cuLibraryGetManaged", HipCounter("hipLibraryGetManaged", "", CONV_LIBRARY, API_DRIVER, 12, HIP_UNSUPPORTED))  // line 171
      case _ => ("cuLibraryGetModule", HipCounter("hipLibraryGetModule", "", CONV_LIBRARY, API_DRIVER, 12, HIP_UNSUPPORTED))  // line 168
    )
    else if i < 272 then (
      match i
      case 268 => ("cuLibraryGetUnifiedFunction", HipCounter("hipLibraryGetUnifiedFunction", "", CONV_LIBRARY, API_DRIVER, 12, HIP_UNSUPPORTED))  // line 172
      case 269 => ("cuLibraryLoadData", HipCounter("hipLibraryLoadData", "", CONV_LIBRARY, API_DRIVER, 12, HIP_UNSUPPORTED))  // line 164
      case 270 => ("cuLibraryLoadFromFile", HipCounter("hipLibraryLoadFromFile", "", CONV_LIBRARY, API_DRIVER, 12, HIP_UNSUPPORTED))  // line 165
      case _ => ("cuLibraryUnload", HipCounter("hipLibraryUnload", "", CONV_LIBRARY, API_DRIVER, 12, HIP_UNSUPPORTED))  // line 166
    )
    else (
      match i
      case 272 => ("cuLinkAddData", HipCounter("hiprtcLinkAddData", "", CONV_MODULE, API_DRIVER, 10, 0))  // line 141
      case _ => ("cuLinkAddData_v2", HipCounter("hiprtcLinkAddData", "", CONV_MODULE, API_DRIVER, 10, 0))  // line 142
    )
  }

  /** Rows 274 to 303. */
  function FunctionRows274To303(i: nat): (string, HipCounter)
    requires 274 <= i < 304
  {
    if i < 278 then (
      match i
      case 274 => ("cuLinkAddFile", HipCounter("hiprtcLinkAddFile", "", CONV_MODULE, API_DRIVER, 10, 0))  // line 143
      case 275 => ("cuLinkAddFile_v2", HipCounter("hiprtcLinkAddFile", "", CONV_MODULE, API_DRIVER, 10, 0))  // line 144
      case 276 => ("cuLinkComplete", HipCounter("hiprtcLinkComplete", "", CONV_MODULE, API_DRIVER, 10, 0))  // line 145
      case _ => ("cuLinkCreate", HipCounter("hiprtcLinkCreate", "", CONV_MODULE, API_DRIVER, 10, 0))  // line 146
    )
    else if i < 282 then (
      match i
      case 278 => ("cuLinkCreate_v2", HipCounter("hiprtcLinkCreate", "", CONV_MODULE, API_DRIVER, 10, 0))  // line 147
      case 279 => ("cuLinkDestroy", HipCounter("hiprtcLinkDestroy", "", CONV_MODULE, API_DRIVER, 10, 0))  // line 148
      case 280 => ("cuMemAddressFree", HipCounter("hipMemAddressFree", "", CONV_VIRTUAL_MEMORY, API_DRIVER, 14, 0))  // line 366
      case _ => ("cuMemAddressReserve", HipCounter("hipMemAddressReserve", "", CONV_VIRTUAL_MEMORY, API_DRIVER, 14, 0))  // line 367
    )
    else if i < 286 then (
      match i
      case 282 => ("cuMemAdvise", HipCounter("hipMemAdvise", "", CONV_ADDRESSING, API_DRIVER, 16, 0))  // line 413
      case 283 => ("cuMemAlloc", HipCounter("hipMalloc", "", CONV_MEMORY, API_DRIVER, 13, 0))  // line 207
      case 284 => ("cuMemAllocAsync", HipCounter("hipMallocAsync", "", CONV_STREAM_ORDERED_MEMORY, API_DRIVER, 15, 0))  // line 385
      case _ => ("cuMemAllocFromPoolAsync", HipCounter("hipMallocFromPoolAsync", "", CONV_STREAM_ORDERED_MEMORY, API_DRIVER, 15, 0))  // line 401
    )
    else if i < 290 then (
      match i
      case 286 => ("cuMemAllocHost", HipCounter("hipMemAllocHost", "", CONV_MEMORY, API_DRIVER, 13, 0))  // line 210
      case 287 => ("cuMemAllocHost_v2", HipCounter("hipMemAllocHost", "", CONV_MEMORY, API_DRIVER, 13, 0))  // line 211
      case 288 => ("cuMemAllocManaged", HipCounter("hipMallocManaged", "", CONV_MEMORY, API_DRIVER, 13, 0))  // line 213
      case _ => ("cuMemAllocPitch", HipCounter("hipMemAllocPitch", "", CONV_MEMORY, API_DRIVER, 13, 0))  // line 216
    )
    else if i < 294 then (
      match i
      case 290 => ("cuMemAllocPitch_v2", HipCounter("hipMemAllocPitch", "", CONV_MEMORY, API_DRIVER, 13, 0))  // line 217
      case 291 => ("cuMemAlloc_v2", HipCounter("hipMalloc", "", CONV_MEMORY, API_DRIVER, 13, 0))  // line 208
      case 292 => ("cuMemCreate", HipCounter("hipMemCreate", "", CONV_VIRTUAL_MEMORY, API_DRIVER, 14, 0))  // line 368
      case _ => ("cuMemExportToShareableHandle", HipCounter("hipMemExportToShareableHandle", "", CONV_VIRTUAL_MEMORY, API_DRIVER, 14, 0))  // line 369
    )
    else if i < 298 then (
      match i
      case 294 => ("cuMemFree", HipCounter("hipFree", "", CONV_MEMORY, API_DRIVER, 13, 0))  // line 296
      case 295 => ("cuMemFreeAsync", HipCounter("hipFreeAsync", "", CONV_STREAM_ORDERED_MEMORY, API_DRIVER, 15, 0))  // line 383
      case 296 => ("cuMemFreeHost", HipCounter("hipHostFree", "", CONV_MEMORY, API_DRIVER, 13, 0))  // line 299
      case _ => ("cuMemFree_v2", HipCounter("hipFree", "", CONV_MEMORY, API_DRIVER, 13, 0))  // line 297
    )
    else if i < 302 then (
      match i
      case 298 => ("cuMemGetAccess", HipCounter("hipMemGetAccess", "", CONV_VIRTUAL_MEMORY, API_DRIVER, 14, 0))  // line 370
      case 299 => ("cuMemGetAddressRange", HipCounter("hipMemGetAddressRange", "", CONV_MEMORY, API_DRIVER, 13, 0))  // line 301
      case 300 => ("cuMemGetAddressRange_v2", HipCounter("hipMemGetAddressRange", "", CONV_MEMORY, API_DRIVER, 13, 0))  // line 302
      case _ => ("cuMemGetAllocationGranularity", HipCounter("hipMemGetAllocationGranularity", "", CONV_VIRTUAL_MEMORY, API_DRIVER, 14, 0))  // line 371
    )
    else (
      match i
      case 302 => ("cuMemGetAllocationPropertiesFromHandle", HipCounter("hipMemGetAllocationPropertiesFromHandle", "", CONV_VIRTUAL_MEMORY, API_DRIVER, 14, 0))  // line 372
      case _ => ("cuMemGetHandleForAddressRange", HipCounter("hipMemGetHandleForAddressRange", "", CONV_MEMORY, API_DRIVER, 13, HIP_UNSUPPORTED))  // line 362
    )
  }

  /** Rows 244 to 303. */
  function FunctionRows244To303(i: nat): (string, HipCounter)
    requires 244 <= i < 304
  {
    if i < 274 then FunctionRows244To273(i)
    else FunctionRows274To303(i)
  }

  /** Rows 304 to 333. */
  function FunctionRows304To333(i: nat): (string, HipCounter)
    requires 304 <= i < 334
  {
    if i < 308 then (
      match i
      case 304 => ("cuMemGetInfo", HipCounter("hipMemGetInfo", "", CONV_MEMORY, API_DRIVER, 13, 0))  // line 304
      case 305 => ("cuMemGetInfo_v2", HipCounter("hipMemGetInfo", "", CONV_MEMORY, API_DRIVER, 13, 0))  // line 305
      case 306 => ("cuMemHostAlloc", HipCounter("hipHostAlloc", "", CONV_MEMORY, API_DRIVER, 13, 0))  // line 307
      case _ => ("cuMemHostGetDevicePointer", HipCounter("hipHostGetDevicePointer", "", CONV_MEMORY, API_DRIVER, 13, 0))  // line 309
    )
    else if i < 312 then (
      match i
      case 308 => ("cuMemHostGetDevicePointer_v2", HipCounter("hipHostGetDevicePointer", "", CONV_MEMORY, API_DRIVER, 13, 0))  // line 310
      case 309 => ("cuMemHostGetFlags", HipCounter("hipHostGetFlags", "", CONV_MEMORY, API_DRIVER, 13, 0))  // line 312
      case 310 => ("cuMemHostRegister", HipCounter("hipHostRegister", "", CONV_MEMORY, API_DRIVER, 13, 0))  // line 314
      case _ => ("cuMemHostRegister_v2", HipCounter("hipHostRegister", "", CONV_MEMORY, API_DRIVER, 13, 0))  // line 315
    )
    else if i < 316 then (
      match i
      case 312 => ("cuMemHostUnregister", HipCounter("hipHostUnregister", "", CONV_MEMORY, API_DRIVER, 13, 0))  // line 317
      case 313 => ("cuMemImportFromShareableHandle", HipCounter("hipMemImportFromShareableHandle", "", CONV_VIRTUAL_MEMORY, API_DRIVER, 14, 0))  // line 373
      case 314 => ("cuMemMap", HipCounter("hipMemMap", "", CONV_VIRTUAL_MEMORY, API_DRIVER, 14, 0))  // line 374
      case _ => ("cuMemMapArrayAsync", HipCounter("hipMemMapArrayAsync", "", CONV_VIRTUAL_MEMORY, API_DRIVER, 14, 0))  // line 379
    )
    else if i < 320 then (
      match i
      case 316 => ("cuMemPoolCreate", HipCounter("hipMemPoolCreate", "", CONV_STREAM_ORDERED_MEMORY, API_DRIVER, 15, 0))  // line 397
      case 317 => ("cuMemPoolDestroy", HipCounter("hipMemPoolDestroy", "", CONV_STREAM_ORDERED_MEMORY, API_DRIVER, 15, 0))  // line 399
      case 318 => ("cuMemPoolExportPointer", HipCounter("hipMemPoolExportPointer", "", CONV_STREAM_ORDERED_MEMORY, API_DRIVER, 15, 0))  // line 407
      case _ => ("cuMemPoolExportToShareableHandle", HipCounter("hipMemPoolExportToShareableHandle", "", CONV_STREAM_ORDERED_MEMORY, API_DRIVER, 15, 0))  // line 403
    )
    else if i < 324 then (
      match i
      case 320 => ("cuMemPoolGetAccess", HipCounter("hipMemPoolGetAccess", "", CONV_STREAM_ORDERED_MEMORY, API_DRIVER, 15, 0))  // line 395
      case 321 => ("cuMemPoolGetAttribute", HipCounter("hipMemPoolGetAttribute", "", CONV_STREAM_ORDERED_MEMORY, API_DRIVER, 15, 0))  // line 391
      case 322 => ("cuMemPoolImportFromShareableHandle", HipCounter("hipMemPoolImportFromShareableHandle", "", CONV_STREAM_ORDERED_MEMORY, API_DRIVER, 15, 0))  // line 405
      case _ => ("cuMemPoolImportPointer", HipCounter("hipMemPoolImportPointer", "", CONV_STREAM_ORDERED_MEMORY, API_DRIVER, 15, 0))  // line 409
    )
    else if i < 328 then (
      match i
      case 324 => ("cuMemPoolSetAccess", HipCounter("hipMemPoolSetAccess", "", CONV_STREAM_ORDERED_MEMORY, API_DRIVER, 15, 0))  // line 393
      case 325 => ("cuMemPoolSetAttribute", HipCounter("hipMemPoolSetAttribute", "", CONV_STREAM_ORDERED_MEMORY, API_DRIVER, 15, 0))  // line 389
      case 326 => ("cuMemPoolTrimTo", HipCounter("hipMemPoolTrimTo", "", CONV_STREAM_ORDERED_MEMORY, API_DRIVER, 15, 0))  // line 387
      case _ => ("cuMemPrefetchAsync", HipCounter("hipMemPrefetchAsync", "", CONV_ADDRESSING, API_DRIVER, 16, 0))  // line 415
    )
    else if i < 332 then (
      match i
      case 328 => ("cuMemRangeGetAttribute", HipCounter("hipMemRangeGetAttribute", "", CONV_ADDRESSING, API_DRIVER, 16, 0))  // line 417
      case 329 => ("cuMemRangeGetAttributes", HipCounter("hipMemRangeGetAttributes", "", CONV_ADDRESSING, API_DRIVER, 16, 0))  // line 419
      case 330 => ("cuMemRelease", HipCounter("hipMemRelease", "", CONV_VIRTUAL_MEMORY, API_DRIVER, 14, 0))  // line 375
      case _ => ("cuMemRetainAllocationHandle", HipCounter("hipMemRetainAllocationHandle", "", CONV_VIRTUAL_MEMORY, API_DRIVER, 14, 0))  // line 376
    )
    else (
      match i
      case 332 => ("cuMemSetAccess", HipCounter("hipMemSetAccess", "", CONV_VIRTUAL_MEMORY, API_DRIVER, 14, 0))  // line 377
      case _ => ("cuMemUnmap", HipCounter("hipMemUnmap", "", CONV_VIRTUAL_MEMORY, API_DRIVER, 14, 0))  // line 378
    )
  }

  /** Rows 334 to 363. */
  function FunctionRows334To363(i: nat): (string, HipCounter)
    requires 334 <= i < 364
  {
    if i < 338 then (
      match i
      case 334 => ("cuMemcpy", HipCounter("hipMemcpy_", "", CONV_MEMORY, API_DRIVER, 13, HIP_UNSUPPORTED))  // line 220
      case 335 => ("cuMemcpy2D", HipCounter("hipMemcpyParam2D", "", CONV_MEMORY, API_DRIVER, 13, 0))  // line 223
      case 336 => ("cuMemcpy2DAsync", HipCounter("hipMemcpyParam2DAsync", "", CONV_MEMORY, API_DRIVER, 13, 0))  // line 227
      case _ => ("cuMemcpy2DAsync_v2", HipCounter("hipMemcpyParam2DAsync", "", CONV_MEMORY, API_DRIVER, 13, 0))  // line 228
    )
    else if i < 342 then (
      match i
      case 338 => ("cuMemcpy2DUnaligned", HipCounter("hipDrvMemcpy2DUnaligned", "", CONV_MEMORY, API_DRIVER, 13, 0))  // line 230
      case 339 => ("cuMemcpy2DUnaligned_v2", HipCounter("hipDrvMemcpy2DUnaligned", "", CONV_MEMORY, API_DRIVER, 13, 0))  // line 231
      case 340 => ("cuMemcpy2D_v2", HipCounter("hipMemcpyParam2D", "", CONV_MEMORY, API_DRIVER, 13, 0))  // line 224
      case _ => ("cuMemcpy3D", HipCounter("hipDrvMemcpy3D", "", CONV_MEMORY, API_DRIVER, 13, 0))  // line 234
    )
    else if i < 346 then (
      match i
      case 342 => ("cuMemcpy3DAsync", HipCounter("hipDrvMemcpy3DAsync", "", CONV_MEMORY, API_DRIVER, 13, 0))  // line 238
      case 343 => ("cuMemcpy3DAsync_v2", HipCounter("hipDrvMemcpy3DAsync", "", CONV_MEMORY, API_DRIVER, 13, 0))  // line 239
      case 344 => ("cuMemcpy3DPeer", HipCounter("hipMemcpy3DPeer_", "", CONV_MEMORY, API_DRIVER, 13, HIP_UNSUPPORTED))  // line 242
      case _ => ("cuMemcpy3DPeerAsync", HipCounter("hipMemcpy3DPeerAsync_", "", CONV_MEMORY, API_DRIVER, 13, HIP_UNSUPPORTED))  // line 245
    )
    else if i < 350 then (
      match i
      case 346 => ("cuMemcpy3D_v2", HipCounter("hipDrvMemcpy3D", "", CONV_MEMORY, API_DRIVER, 13, 0))  // line 235
      case 347 => ("cuMemcpyAsync", HipCounter("hipMemcpyAsync_", "", CONV_MEMORY, API_DRIVER, 13, HIP_UNSUPPORTED))  // line 248
      case 348 => ("cuMemcpyAtoA", HipCounter("hipMemcpyAtoA", "", CONV_MEMORY, API_DRIVER, 13, HIP_UNSUPPORTED))  // line 251
      case _ => ("cuMemcpyAtoA_v2", HipCounter("hipMemcpyAtoA", "", CONV_MEMORY, API_DRIVER, 13, HIP_UNSUPPORTED))  // line 252
    )
    else if i < 354 then (
      match i
      case 350 => ("cuMemcpyAtoD", HipCounter("hipMemcpyAtoD", "", CONV_MEMORY, API_DRIVER, 13, HIP_UNSUPPORTED))  // line 254
      case 351 => ("cuMemcpyAtoD_v2", HipCounter("hipMemcpyAtoD", "", CONV_MEMORY, API_DRIVER, 13, HIP_UNSUPPORTED))  // line 255
      case 352 => ("cuMemcpyAtoH", HipCounter("hipMemcpyAtoH", "", CONV_MEMORY, API_DRIVER, 13, 0))  // line 257
      case _ => ("cuMemcpyAtoHAsync", HipCounter("hipMemcpyAtoHAsync", "", CONV_MEMORY, API_DRIVER, 13, HIP_UNSUPPORTED))  // line 260
    )
    else if i < 358 then (
      match i
      case 354 => ("cuMemcpyAtoHAsync_v2", HipCounter("hipMemcpyAtoHAsync", "", CONV_MEMORY, API_DRIVER, 13, HIP_UNSUPPORTED))  // line 261
      case 355 => ("cuMemcpyAtoH_v2", HipCounter("hipMemcpyAtoH", "", CONV_MEMORY, API_DRIVER, 13, 0))  // line 258
      case 356 => ("cuMemcpyDtoA", HipCounter("hipMemcpyDtoA", "", CONV_MEMORY, API_DRIVER, 13, HIP_UNSUPPORTED))  // line 263
      case _ => ("cuMemcpyDtoA_v2", HipCounter("hipMemcpyDtoA", "", CONV_MEMORY, API_DRIVER, 13, HIP_UNSUPPORTED))  // line 264
    )
    else if i < 362 then (
      match i
      case 358 => ("cuMemcpyDtoD", HipCounter("hipMemcpyDtoD", "", CONV_MEMORY, API_DRIVER, 13, 0))  // line 266
      case 359 => ("cuMemcpyDtoDAsync", HipCounter("hipMemcpyDtoDAsync", "", CONV_MEMORY, API_DRIVER, 13, 0))  // line 269
      case 360 => ("cuMemcpyDtoDAsync_v2", HipCounter("hipMemcpyDtoDAsync", "", CONV_MEMORY, API_DRIVER, 13, 0))  // line 270
      case _ => ("cuMemcpyDtoD_v2", HipCounter("hipMemcpyDtoD", "", CONV_MEMORY, API_DRIVER, 13, 0))  // line 267
    )
    else (
      match i
      case 362 => ("cuMemcpyDtoH", HipCounter("hipMemcpyDtoH", "", CONV_MEMORY, API_DRIVER, 13, 0))  // line 272
      case _ => ("cuMemcpyDtoHAsync", HipCounter("hipMemcpyDtoHAsync", "", CONV_MEMORY, API_DRIVER, 13, 0))  // line 275
    )
  }

  /** Rows 304 to 363. */
  function FunctionRows304To363(i: nat): (string, HipCounter)
    requires 304 <= i < 364
  {
    if i < 334 then FunctionRows304To333(i)
    else FunctionRows334To363(i)
  }

  /** Rows 364 to 393. */
  function FunctionRows364To393(i: nat): (string, HipCounter)
    requires 364 <= i < 394
  {
    if i < 368 then (
      match i
      case 364 => ("cuMemcpyDtoHAsync_v2", HipCounter("hipMemcpyDtoHAsync", "", CONV_MEMORY, API_DRIVER, 13, 0))  // line 276
      case 365 => ("cuMemcpyDtoH_v2", HipCounter("hipMemcpyDtoH", "", CONV_MEMORY, API_DRIVER, 13, 0))  // line 273
      case 366 => ("cuMemcpyHtoA", HipCounter("hipMemcpyHtoA", "", CONV_MEMORY, API_DRIVER, 13, 0))  // line 278
      case _ => ("cuMemcpyHtoAAsync", HipCounter("hipMemcpyHtoAAsync", "", CONV_MEMORY, API_DRIVER, 13, HIP_UNSUPPORTED))  // line 281
    )
    else if i < 372 then (
      match i
      case 368 => ("cuMemcpyHtoAAsync_v2", HipCounter("hipMemcpyHtoAAsync", "", CONV_MEMORY, API_DRIVER, 13, HIP_UNSUPPORTED))  // line 282
      case 369 => ("cuMemcpyHtoA_v2", HipCounter("hipMemcpyHtoA", "", CONV_MEMORY, API_DRIVER, 13, 0))  // line 279
      case 370 => ("cuMemcpyHtoD", HipCounter("hipMemcpyHtoD", "", CONV_MEMORY, API_DRIVER, 13, 0))  // line 284
      case _ => ("cuMemcpyHtoDAsync", HipCounter("hipMemcpyHtoDAsync", "", CONV_MEMORY, API_DRIVER, 13, 0))  // line 287
    )
    else if i < 376 then (
      match i
      case 372 => ("cuMemcpyHtoDAsync_v2", HipCounter("hipMemcpyHtoDAsync", "", CONV_MEMORY, API_DRIVER, 13, 0))  // line 288
      case 373 => ("cuMemcpyHtoD_v2", HipCounter("hipMemcpyHtoD", "", CONV_MEMORY, API_DRIVER, 13, 0))  // line 285
      case 374 => ("cuMemcpyPeer", HipCounter("hipMemcpyPeer_", "", CONV_MEMORY, API_DRIVER, 13, HIP_UNSUPPORTED))  // line 291
      case _ => ("cuMemcpyPeerAsync", HipCounter("hipMemcpyPeerAsync_", "", CONV_MEMORY, API_DRIVER, 13, HIP_UNSUPPORTED))  // line 294
    )
    else if i < 380 then (
      match i
      case 376 => ("cuMemsetD16", HipCounter("hipMemsetD16", "", CONV_MEMORY, API_DRIVER, 13, 0))  // line 319
      case 377 => ("cuMemsetD16Async", HipCounter("hipMemsetD16Async", "", CONV_MEMORY, API_DRIVER, 13, 0))  // line 322
      case 378 => ("cuMemsetD16_v2", HipCounter("hipMemsetD16", "", CONV_MEMORY, API_DRIVER, 13, 0))  // line 320
      case _ => ("cuMemsetD2D16", HipCounter("hipMemsetD2D16", "", CONV_MEMORY, API_DRIVER, 13, HIP_UNSUPPORTED))  // line 324
    )
    else if i < 384 then (
      match i
      case 380 => ("cuMemsetD2D16Async", HipCounter("hipMemsetD2D16Async", "", CONV_MEMORY, API_DRIVER, 13, HIP_UNSUPPORTED))  // line 327
      case 381 => ("cuMemsetD2D16_v2", HipCounter("hipMemsetD2D16", "", CONV_MEMORY, API_DRIVER, 13, HIP_UNSUPPORTED))  // line 325
      case 382 => ("cuMemsetD2D32", HipCounter("hipMemsetD2D32", "", CONV_MEMORY, API_DRIVER, 13, HIP_UNSUPPORTED))  // line 329
      case _ => ("cuMemsetD2D32Async", HipCounter("hipMemsetD2D32Async", "", CONV_MEMORY, API_DRIVER, 13, HIP_UNSUPPORTED))  // line 332
    )
    else if i < 388 then (
      match i
      case 384 => ("cuMemsetD2D32_v2", HipCounter("hipMemsetD2D32", "", CONV_MEMORY, API_DRIVER, 13, HIP_UNSUPPORTED))  // line 330
      case 385 => ("cuMemsetD2D8", HipCounter("hipMemsetD2D8", "", CONV_MEMORY, API_DRIVER, 13, HIP_UNSUPPORTED))  // line 334
      case 386 => ("cuMemsetD2D8Async", HipCounter("hipMemsetD2D8Async", "", CONV_MEMORY, API_DRIVER, 13, HIP_UNSUPPORTED))  // line 337
      case _ => ("cuMemsetD2D8_v2", HipCounter("hipMemsetD2D8", "", CONV_MEMORY, API_DRIVER, 13, HIP_UNSUPPORTED))  // line 335
    )
    else if i < 392 then (
      match i
      case 388 => ("cuMemsetD32", HipCounter("hipMemsetD32", "", CONV_MEMORY, API_DRIVER, 13, 0))  // line 339
      case 389 => ("cuMemsetD32Async", HipCounter("hipMemsetD32Async", "", CONV_MEMORY, API_DRIVER, 13, 0))  // line 342
      case 390 => ("cuMemsetD32_v2", HipCounter("hipMemsetD32", "", CONV_MEMORY, API_DRIVER, 13, 0))  // line 340
      case _ => ("cuMemsetD8", HipCounter("hipMemsetD8", "", CONV_MEMORY, API_DRIVER, 13, 0))  // line 344
    )
    else (
      match i
      case 392 => ("cuMemsetD8Async", HipCounter("hipMemsetD8Async", "", CONV_MEMORY, API_DRIVER, 13, 0))  // line 347
      case _ => ("cuMemsetD8_v2", HipCounter("hipMemsetD8", "", CONV_MEMORY, API_DRIVER, 13, 0))  // line 345
    )
  }

  /** Rows 394 to 423. */
  function FunctionRows394To423(i: nat): (string, HipCounter)
    requires 394 <= i < 424
  {
    if i < 398 then (
      match i
      case 394 => ("cuMipmappedArrayCreate", HipCounter("hipMipmappedArrayCreate", "", CONV_MEMORY, API_DRIVER, 13, 0))  // line 350
      case 395 => ("cuMipmappedArrayDestroy", HipCounter("hipMipmappedArrayDestroy", "", CONV_MEMORY, API_DRIVER, 13, 0))  // line 353
      case 396 => ("cuMipmappedArrayGetLevel", HipCounter("hipMipmappedArrayGetLevel", "", CONV_MEMORY, API_DRIVER, 13, 0))  // line 356
      case _ => ("cuMipmappedArrayGetMemoryRequirements", HipCounter("hipMipmappedArrayGetMemoryRequirements", "", CONV_MEMORY, API_DRIVER, 13, HIP_UNSUPPORTED))  // line 189
    )
    else if i < 402 then (
      match i
      case 398 => ("cuModuleGetFunction", HipCounter("hipModuleGetFunction", "", CONV_MODULE, API_DRIVER, 10, 0))  // line 149
      case 399 => ("cuModuleGetGlobal", HipCounter("hipModuleGetGlobal", "", CONV_MODULE, API_DRIVER, 10, 0))  // line 150
      case 400 => ("cuModuleGetGlobal_v2", HipCounter("hipModuleGetGlobal", "", CONV_MODULE, API_DRIVER, 10, 0))  // line 151
      case _ => ("cuModuleGetLoadingMode", HipCounter("hipModuleGetLoadingMode", "", CONV_MODULE, API_DRIVER, 10, HIP_UNSUPPORTED))  // line 157
    )
    else if i < 406 then (
      match i
      case 402 => ("cuModuleGetSurfRef", HipCounter("hipModuleGetSurfRef", "", CONV_MODULE, API_DRIVER, 11, HIP_UNSUPPORTED | CUDA_DEPRECATED))  // line 160
      case 403 => ("cuModuleGetTexRef", HipCounter("hipModuleGetTexRef", "", CONV_MODULE, API_DRIVER, 11, CUDA_DEPRECATED))  // line 161
      case 404 => ("cuModuleLoad", HipCounter("hipModuleLoad", "", CONV_MODULE, API_DRIVER, 10, 0))  // line 152
      case _ => ("cuModuleLoadData", HipCounter("hipModuleLoadData", "", CONV_MODULE, API_DRIVER, 10, 0))  // line 153
    )
    else if i < 410 then (
      match i
      case 406 => ("cuModuleLoadDataEx", HipCounter("hipModuleLoadDataEx", "", CONV_MODULE, API_DRIVER, 10, 0))  // line 154
      case 407 => ("cuModuleLoadFatBinary", HipCounter("hipModuleLoadFatBinary", "", CONV_MODULE, API_DRIVER, 10, HIP_UNSUPPORTED))  // line 155
      case 408 => ("cuModuleUnload", HipCounter("hipModuleUnload", "", CONV_MODULE, API_DRIVER, 10, 0))  // line 156
      case _ => ("cuOccupancyAvailableDynamicSMemPerBlock", HipCounter("hipModuleOccupancyAvailableDynamicSMemPerBlock", "", CONV_OCCUPANCY, API_DRIVER, 24, HIP_UNSUPPORTED))  // line 769
    )
    else if i < 414 then (
      match i
      case 410 => ("cuOccupancyMaxActiveBlocksPerMultiprocessor", HipCounter("hipModuleOccupancyMaxActiveBlocksPerMultiprocessor", "", CONV_OCCUPANCY, API_DRIVER, 24, 0))  // line 771
      case 411 => ("cuOccupancyMaxActiveBlocksPerMultiprocessorWithFlags", HipCounter("hipModuleOccupancyMaxActiveBlocksPerMultiprocessorWithFlags", "", CONV_OCCUPANCY, API_DRIVER, 24, 0))  // line 773
      case 412 => ("cuOccupancyMaxActiveClusters", HipCounter("hipOccupancyMaxActiveClusters", "", CONV_OCCUPANCY, API_DRIVER, 24, HIP_UNSUPPORTED))  // line 781
      case _ => ("cuOccupancyMaxPotentialBlockSize", HipCounter("hipModuleOccupancyMaxPotentialBlockSize", "", CONV_OCCUPANCY, API_DRIVER, 24, 0))  // line 775
    )
    else if i < 418 then (
      match i
      case 414 => ("cuOccupancyMaxPotentialBlockSizeWithFlags", HipCounter("hipModuleOccupancyMaxPotentialBlockSizeWithFlags", "", CONV_OCCUPANCY, API_DRIVER, 24, 0))  // line 777
      case 415 => ("cuOccupancyMaxPotentialClusterSize", HipCounter("hipOccupancyMaxPotentialClusterSize", "", CONV_OCCUPANCY, API_DRIVER, 24, HIP_UNSUPPORTED))  // line 779
      case 416 => ("cuParamSetSize", HipCounter("hipParamSetSize", "", CONV_EXECUTION, API_DRIVER, 22, HIP_UNSUPPORTED | CUDA_DEPRECATED))  // line 587
      case _ => ("cuParamSetTexRef", HipCounter("hipParamSetTexRef", "", CONV_EXECUTION, API_DRIVER, 22, HIP_UNSUPPORTED | CUDA_DEPRECATED))  // line 589
    )
    else if i < 422 then (
      match i
      case 418 => ("cuParamSetf", HipCounter("hipParamSetf", "", CONV_EXECUTION, API_DRIVER, 22, HIP_UNSUPPORTED | CUDA_DEPRECATED))  // line 583
      case 419 => ("cuParamSeti", HipCounter("hipParamSeti", "", CONV_EXECUTION, API_DRIVER, 22, HIP_UNSUPPORTED | CUDA_DEPRECATED))  // line 585
      case 420 => ("cuParamSetv", HipCounter("hipParamSetv", "", CONV_EXECUTION, API_DRIVER, 22, HIP_UNSUPPORTED | CUDA_DEPRECATED))  // line 591
      case _ => ("cuPointerGetAttribute", HipCounter("hipPointerGetAttribute", "", CONV_ADDRESSING, API_DRIVER, 16, 0))  // line 421
    )
    else (
      match i
      case 422 => ("cuPointerGetAttributes", HipCounter("hipDrvPointerGetAttributes", "", CONV_ADDRESSING, API_DRIVER, 16, 0))  // line 424
      case _ => ("cuPointerSetAttribute", HipCounter("hipPointerSetAttribute", "", CONV_ADDRESSING, API_DRIVER, 16, HIP_UNSUPPORTED))  // line 426
    )
  }

  /** Rows 364 to 423. */
  function FunctionRows364To423(i: nat): (string, HipCounter)
    requires 364 <= i < 424
  {
    if i < 394 then FunctionRows364To393(i)
    else FunctionRows394To423(i)
  }

  /** Rows 424 to 453. */
  function FunctionRows424To453(i: nat): (string, HipCounter)
    requires 424 <= i < 454
  {
    if i < 428 then (
      match i
      case 424 => ("cuProfilerInitialize", HipCounter("hipProfilerInitialize", "", CONV_PROFILER, API_DRIVER, 33, HIP_UNSUPPORTED))  // line 896
      case 425 => ("cuProfilerStart", HipCounter("hipProfilerStart", "", CONV_PROFILER, API_DRIVER, 34, 0))  // line 900
      case 426 => ("cuProfilerStop", HipCounter("hipProfilerStop", "", CONV_PROFILER, API_DRIVER, 34, 0))  // line 902
      case _ => ("cuSignalExternalSemaphoresAsync", HipCounter("hipSignalExternalSemaphoresAsync", "", CONV_EXT_RES, API_DRIVER, 19, 0))  // line 507
    )
    else if i < 432 then (
      match i
      case 428 => ("cuStreamAddCallback", HipCounter("hipStreamAddCallback", "", CONV_STREAM, API_DRIVER, 17, 0))  // line 430
      case 429 => ("cuStreamAttachMemAsync", HipCounter("hipStreamAttachMemAsync", "", CONV_STREAM, API_DRIVER, 17, 0))  // line 432
      case 430 => ("cuStreamBatchMemOp", HipCounter("hipStreamBatchMemOp", "", CONV_STREAM_MEMORY, API_DRIVER, 20, HIP_UNSUPPORTED))  // line 513
      case _ => ("cuStreamBatchMemOp_v2", HipCounter("hipStreamBatchMemOp", "", CONV_STREAM_MEMORY, API_DRIVER, 20, HIP_UNSUPPORTED))  // line 514
    )
    else if i < 436 then (
      match i
      case 432 => ("cuStreamBeginCapture", HipCounter("hipStreamBeginCapture", "", CONV_STREAM, API_DRIVER, 17, 0))  // line 434
      case 433 => ("cuStreamBeginCapture_ptsz", HipCounter("hipStreamBeginCapture_ptsz", "", CONV_STREAM, API_DRIVER, 17, HIP_UNSUPPORTED))  // line 436
      case 434 => ("cuStreamBeginCapture_v2", HipCounter("hipStreamBeginCapture", "", CONV_STREAM, API_DRIVER, 17, 0))  // line 435
      case _ => ("cuStreamCopyAttributes", HipCounter("hipStreamCopyAttributes", "", CONV_STREAM, API_DRIVER, 17, HIP_UNSUPPORTED))  // line 438
    )
    else if i < 440 then (
      match i
      case 436 => ("cuStreamCreate", HipCounter("hipStreamCreateWithFlags", "", CONV_STREAM, API_DRIVER, 17, 0))  // line 440
      case 437 => ("cuStreamCreateWithPriority", HipCounter("hipStreamCreateWithPriority", "", CONV_STREAM, API_DRIVER, 17, 0))  // line 442
      case 438 => ("cuStreamDestroy", HipCounter("hipStreamDestroy", "", CONV_STREAM, API_DRIVER, 17, 0))  // line 444
      case _ => ("cuStreamDestroy_v2", HipCounter("hipStreamDestroy", "", CONV_STREAM, API_DRIVER, 17, 0))  // line 445
    )
    else if i < 444 then (
      match i
      case 440 => ("cuStreamEndCapture", HipCounter("hipStreamEndCapture", "", CONV_STREAM, API_DRIVER, 17, 0))  // line 447
      case 441 => ("cuStreamGetAttribute", HipCounter("hipStreamGetAttribute", "", CONV_STREAM, API_DRIVER, 17, HIP_UNSUPPORTED))  // line 449
      case 442 => ("cuStreamGetCaptureInfo", HipCounter("hipStreamGetCaptureInfo", "", CONV_STREAM, API_DRIVER, 17, 0))  // line 451
      case _ => ("cuStreamGetCaptureInfo_v2", HipCounter("hipStreamGetCaptureInfo_v2", "", CONV_STREAM, API_DRIVER, 17, 0))  // line 452
    )
    else if i < 448 then (
      match i
      case 444 => ("cuStreamGetCtx", HipCounter("hipStreamGetContext", "", CONV_STREAM, API_DRIVER, 17, HIP_UNSUPPORTED))  // line 456
      case 445 => ("cuStreamGetFlags", HipCounter("hipStreamGetFlags", "", CONV_STREAM, API_DRIVER, 17, 0))  // line 458
      case 446 => ("cuStreamGetId", HipCounter("hipStreamGetId", "", CONV_STREAM, API_DRIVER, 17, HIP_UNSUPPORTED))  // line 474
      case _ => ("cuStreamGetPriority", HipCounter("hipStreamGetPriority", "", CONV_STREAM, API_DRIVER, 17, 0))  // line 460
    )
    else if i < 452 then (
      match i
      case 448 => ("cuStreamIsCapturing", HipCounter("hipStreamIsCapturing", "", CONV_STREAM, API_DRIVER, 17, 0))  // line 462
      case 449 => ("cuStreamQuery", HipCounter("hipStreamQuery", "", CONV_STREAM, API_DRIVER, 17, 0))  // line 464
      case 450 => ("cuStreamSetAttribute", HipCounter("hipStreamSetAttribute", "", CONV_STREAM, API_DRIVER, 17, HIP_UNSUPPORTED))  // line 466
      case _ => ("cuStreamSynchronize", HipCounter("hipStreamSynchronize", "", CONV_STREAM, API_DRIVER, 17, 0))  // line 468
    )
    else (
      match i
      case 452 => ("cuStreamUpdateCaptureDependencies", HipCounter("hipStreamUpdateCaptureDependencies", "", CONV_STREAM, API_DRIVER, 17, 0))  // line 454
      case _ => ("cuStreamWaitEvent", HipCounter("hipStreamWaitEvent", "", CONV_STREAM, API_DRIVER, 17, 0))  // line 470
    )
  }

  /** Rows 454 to 483. */
  function FunctionRows454To483(i: nat): (string, HipCounter)
    requires 454 <= i < 484
  {
    if i < 458 then (
      match i
      case 454 => ("cuStreamWaitValue32", HipCounter("hipStreamWaitValue32", "", CONV_STREAM_MEMORY, API_DRIVER, 20, 0))  // line 518
      case 455 => ("cuStreamWaitValue32_v2", HipCounter("hipStreamWaitValue32", "", CONV_STREAM_MEMORY, API_DRIVER, 20, 0))  // line 521
      case 456 => ("cuStreamWaitValue64", HipCounter("hipStreamWaitValue64", "", CONV_STREAM_MEMORY, API_DRIVER, 20, 0))  // line 524
      case _ => ("cuStreamWaitValue64_v2", HipCounter("hipStreamWaitValue64", "", CONV_STREAM_MEMORY, API_DRIVER, 20, 0))  // line 527
    )
    else if i < 462 then (
      match i
      case 458 => ("cuStreamWriteValue32", HipCounter("hipStreamWriteValue32", "", CONV_STREAM_MEMORY, API_DRIVER, 20, 0))  // line 530
      case 459 => ("cuStreamWriteValue32_v2", HipCounter("hipStreamWriteValue32", "", CONV_STREAM_MEMORY, API_DRIVER, 20, 0))  // line 533
      case 460 => ("cuStreamWriteValue64", HipCounter("hipStreamWriteValue64", "", CONV_STREAM_MEMORY, API_DRIVER, 20, 0))  // line 536
      case _ => ("cuStreamWriteValue64_v2", HipCounter("hipStreamWriteValue64", "", CONV_STREAM_MEMORY, API_DRIVER, 20, 0))  // line 539
    )
    else if i < 466 then (
      match i
      case 462 => ("cuSurfObjectCreate", HipCounter("hipSurfObjectCreate", "", CONV_TEXTURE, API_DRIVER, 28, HIP_UNSUPPORTED))  // line 841
      case 463 => ("cuSurfObjectDestroy", HipCounter("hipSurfObjectDestroy", "", CONV_TEXTURE, API_DRIVER, 28, HIP_UNSUPPORTED))  // line 843
      case 464 => ("cuSurfObjectGetResourceDesc", HipCounter("hipSurfObjectGetResourceDesc", "", CONV_TEXTURE, API_DRIVER, 28, HIP_UNSUPPORTED))  // line 846
      case _ => ("cuSurfRefGetArray", HipCounter("hipSurfRefGetArray", "", CONV_SURFACE, API_DRIVER, 26, HIP_UNSUPPORTED | CUDA_DEPRECATED))  // line 820
    )
    else if i < 470 then (
      match i
      case 466 => ("cuSurfRefSetArray", HipCounter("hipSurfRefSetArray", "", CONV_SURFACE, API_DRIVER, 26, HIP_UNSUPPORTED | CUDA_DEPRECATED))  // line 821
      case 467 => ("cuTensorMapEncodeIm2col", HipCounter("hipTensorMapEncodeIm2col", "", CONV_TENSOR, API_DRIVER, 29, HIP_UNSUPPORTED))  // line 852
      case 468 => ("cuTensorMapEncodeTiled", HipCounter("hipTensorMapEncodeTiled", "", CONV_TENSOR, API_DRIVER, 29, HIP_UNSUPPORTED))  // line 850
      case _ => ("cuTensorMapReplaceAddress", HipCounter("hipTensorMapReplaceAddress", "", CONV_TENSOR, API_DRIVER, 29, HIP_UNSUPPORTED))  // line 854
    )
    else if i < 474 then (
      match i
      case 470 => ("cuTexObjectCreate", HipCounter("hipTexObjectCreate", "", CONV_TEXTURE, API_DRIVER, 27, 0))  // line 826
      case 471 => ("cuTexObjectDestroy", HipCounter("hipTexObjectDestroy", "", CONV_TEXTURE, API_DRIVER, 27, 0))  // line 828
      case 472 => ("cuTexObjectGetResourceDesc", HipCounter("hipTexObjectGetResourceDesc", "", CONV_TEXTURE, API_DRIVER, 27, 0))  // line 831
      case _ => ("cuTexObjectGetResourceViewDesc", HipCounter("hipTexObjectGetResourceViewDesc", "", CONV_TEXTURE, API_DRIVER, 27, 0))  // line 833
    )
    else if i < 478 then (
      match i
      case 474 => ("cuTexObjectGetTextureDesc", HipCounter("hipTexObjectGetTextureDesc", "", CONV_TEXTURE, API_DRIVER, 27, 0))  // line 836
      case 475 => ("cuTexRefCreate", HipCounter("hipTexRefCreate", "", CONV_TEXTURE, API_DRIVER, 25, HIP_UNSUPPORTED | CUDA_DEPRECATED))  // line 815
      case 476 => ("cuTexRefDestroy", HipCounter("hipTexRefDestroy", "", CONV_TEXTURE, API_DRIVER, 25, HIP_UNSUPPORTED | CUDA_DEPRECATED))  // line 816
      case _ => ("cuTexRefGetAddress", HipCounter("hipTexRefGetAddress", "", CONV_TEXTURE, API_DRIVER, 25, DEPRECATED))  // line 785
    )
    else if i < 482 then (
      match i
      case 478 => ("cuTexRefGetAddressMode", HipCounter("hipTexRefGetAddressMode", "", CONV_TEXTURE, API_DRIVER, 25, DEPRECATED))  // line 787
      case 479 => ("cuTexRefGetAddress_v2", HipCounter("hipTexRefGetAddress", "", CONV_TEXTURE, API_DRIVER, 25, DEPRECATED))  // line 786
      case 480 => ("cuTexRefGetArray", HipCounter("hipTexRefGetArray", "", CONV_TEXTURE, API_DRIVER, 25, CUDA_DEPRECATED | HIP_REMOVED))  // line 788
      case _ => ("cuTexRefGetBorderColor", HipCounter("hipTexRefGetBorderColor", "", CONV_TEXTURE, API_DRIVER, 25, CUDA_DEPRECATED | HIP_UNSUPPORTED))  // line 789
    )
    else (
      match i
      case 482 => ("cuTexRefGetFilterMode", HipCounter("hipTexRefGetFilterMode", "", CONV_TEXTURE, API_DRIVER, 25, DEPRECATED))  // line 790
      case _ => ("cuTexRefGetFlags", HipCounter("hipTexRefGetFlags", "", CONV_TEXTURE, API_DRIVER, 25, DEPRECATED))  // line 791
    )
  }

  /** Rows 484 to 513. */
  function FunctionRows484To513(i: nat): (string, HipCounter)
    requires 484 <= i < 514
  {
    if i < 488 then (
      match i
      case 484 => ("cuTexRefGetFormat", HipCounter("hipTexRefGetFormat", "", CONV_TEXTURE, API_DRIVER, 25, DEPRECATED))  // line 792
      case 485 => ("cuTexRefGetMaxAnisotropy", HipCounter("hipTexRefGetMaxAnisotropy", "", CONV_TEXTURE, API_DRIVER, 25, DEPRECATED))  // line 793
      case 486 => ("cuTexRefGetMipmapFilterMode", HipCounter("hipTexRefGetMipmapFilterMode", "", CONV_TEXTURE, API_DRIVER, 25, DEPRECATED))  // line 794
      case _ => ("cuTexRefGetMipmapLevelBias", HipCounter("hipTexRefGetMipmapLevelBias", "", CONV_TEXTURE, API_DRIVER, 25, DEPRECATED))  // line 795
    )
    else if i < 492 then (
      match i
      case 488 => ("cuTexRefGetMipmapLevelClamp", HipCounter("hipTexRefGetMipmapLevelClamp", "", CONV_TEXTURE, API_DRIVER, 25, DEPRECATED))  // line 796
      case 489 => ("cuTexRefGetMipmappedArray", HipCounter("hipTexRefGetMipMappedArray", "", CONV_TEXTURE, API_DRIVER, 25, DEPRECATED))  // line 798
      case 490 => ("cuTexRefSetAddress", HipCounter("hipTexRefSetAddress", "", CONV_TEXTURE, API_DRIVER, 25, DEPRECATED))  // line 799
      case _ => ("cuTexRefSetAddress2D", HipCounter("hipTexRefSetAddress2D", "", CONV_TEXTURE, API_DRIVER, 25, DEPRECATED))  // line 801
    )
    else if i < 496 then (
      match i
      case 492 => ("cuTexRefSetAddress2D_v2", HipCounter("hipTexRefSetAddress2D", "", CONV_TEXTURE, API_DRIVER, 25, HIP_DEPRECATED))  // line 802
      case 493 => ("cuTexRefSetAddress2D_v3", HipCounter("hipTexRefSetAddress2D", "", CONV_TEXTURE, API_DRIVER, 25, HIP_DEPRECATED))  // line 803
      case 494 => ("cuTexRefSetAddressMode", HipCounter("hipTexRefSetAddressMode", "", CONV_TEXTURE, API_DRIVER, 25, DEPRECATED))  // line 804
      case _ => ("cuTexRefSetAddress_v2", HipCounter("hipTexRefSetAddress", "", CONV_TEXTURE, API_DRIVER, 25, DEPRECATED))  // line 800
    )
    else if i < 500 then (
      match i
      case 496 => ("cuTexRefSetArray", HipCounter("hipTexRefSetArray", "", CONV_TEXTURE, API_DRIVER, 25, DEPRECATED))  // line 805
      case 497 => ("cuTexRefSetBorderColor", HipCounter("hipTexRefSetBorderColor", "", CONV_TEXTURE, API_DRIVER, 25, DEPRECATED))  // line 806
      case 498 => ("cuTexRefSetFilterMode", HipCounter("hipTexRefSetFilterMode", "", CONV_TEXTURE, API_DRIVER, 25, DEPRECATED))  // line 807
      case _ => ("cuTexRefSetFlags", HipCounter("hipTexRefSetFlags", "", CONV_TEXTURE, API_DRIVER, 25, DEPRECATED))  // line 808
    )
    else if i < 504 then (
      match i
      case 500 => ("cuTexRefSetFormat", HipCounter("hipTexRefSetFormat", "", CONV_TEXTURE, API_DRIVER, 25, DEPRECATED))  // line 809
      case 501 => ("cuTexRefSetMaxAnisotropy", HipCounter("hipTexRefSetMaxAnisotropy", "", CONV_TEXTURE, API_DRIVER, 25, DEPRECATED))  // line 810
      case 502 => ("cuTexRefSetMipmapFilterMode", HipCounter("hipTexRefSetMipmapFilterMode", "", CONV_TEXTURE, API_DRIVER, 25, DEPRECATED))  // line 811
      case _ => ("cuTexRefSetMipmapLevelBias", HipCounter("hipTexRefSetMipmapLevelBias", "", CONV_TEXTURE, API_DRIVER, 25, DEPRECATED))  // line 812
    )
    else if i < 508 then (
      match i
      case 504 => ("cuTexRefSetMipmapLevelClamp", HipCounter("hipTexRefSetMipmapLevelClamp", "", CONV_TEXTURE, API_DRIVER, 25, DEPRECATED))  // line 813
      case 505 => ("cuTexRefSetMipmappedArray", HipCounter("hipTexRefSetMipmappedArray", "", CONV_TEXTURE, API_DRIVER, 25, DEPRECATED))  // line 814
      case 506 => ("cuThreadExchangeStreamCaptureMode", HipCounter("hipThreadExchangeStreamCaptureMode", "", CONV_STREAM, API_DRIVER, 17, 0))  // line 472
      case _ => ("cuUserObjectCreate", HipCounter("hipUserObjectCreate", "", CONV_GRAPH, API_DRIVER, 23, 0))  // line 729
    )
    else if i < 512 then (
      match i
      case 508 => ("cuUserObjectRelease", HipCounter("hipUserObjectRelease", "", CONV_GRAPH, API_DRIVER, 23, 0))  // line 733
      case 509 => ("cuUserObjectRetain", HipCounter("hipUserObjectRetain", "", CONV_GRAPH, API_DRIVER, 23, 0))  // line 731
      case 510 => ("cuVDPAUCtxCreate", HipCounter("hipVDPAUCtxCreate", "", CONV_VDPAU, API_DRIVER, 39, HIP_UNSUPPORTED))  // line 1032
      case _ => ("cuVDPAUGetDevice", HipCounter("hipVDPAUGetDevice", "", CONV_VDPAU, API_DRIVER, 39, HIP_UNSUPPORTED))  // line 1030
    )
    else (
      match i
      case 512 => ("cuWGLGetDevice", HipCounter("hipWGLGetDevice", "", CONV_OPENGL, API_DRIVER, 35, HIP_UNSUPPORTED))  // line 912
      case _ => ("cuWaitExternalSemaphoresAsync", HipCounter("hipWaitExternalSemaphoresAsync", "", CONV_EXT_RES, API_DRIVER, 19, 0))  // line 509
    )
  }

  /** Rows 424 to 513. */
  function FunctionRows424To513(i: nat): (string, HipCounter)
    requires 424 <= i < 514
  {
    if i < 454 then FunctionRows424To453(i)
    else if i < 484 then FunctionRows454To483(i)
    else FunctionRows484To513(i)
  }

  /** Row `i` of the table, in key order. */
  function FunctionRow(i: nat): (string, HipCounter)
    requires i < 514
  {
    if i < 62 then FunctionRows000To061(i)
    else if i < 124 then FunctionRows062To123(i)
    else if i < 184 then FunctionRows124To183(i)
    else if i < 244 then FunctionRows184To243(i)
    else if i < 304 then FunctionRows244To303(i)
    else if i < 364 then FunctionRows304To363(i)
    else if i < 424 then FunctionRows364To423(i)
    else FunctionRows424To513(i)
  }

  /** Every row of the table, in key order (the initializers hold the same rows). */
  function FunctionRows(): seq<(string, HipCounter)>
  {
    seq(514, i requires 0 <= i < 514 => FunctionRow(i))
  }

  /** The `std::map` the initializer list builds. */
  function FunctionMap(): map<string, HipCounter>
  {
    ToMap(FunctionRows())
  }
}
