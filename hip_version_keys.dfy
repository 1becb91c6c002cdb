/** The keys of the HIP version table in order: each sorts strictly before the next. */
module HipVersionKeys {
  import opened KeyOrder

  lemma HipVersionKey000BeforeKey001()
    ensures Precedes("hipArray3DCreate", "hipArrayCreate")
  {
    PrecedesAt("hipArray3DCreate", "hipArrayCreate", 8);
  }

  lemma HipVersionKey001BeforeKey002()
    ensures Precedes("hipArrayCreate", "hipArrayDestroy")
  {
    PrecedesAt("hipArrayCreate", "hipArrayDestroy", 8);
  }

  lemma HipVersionKey002BeforeKey003()
    ensures Precedes("hipArrayDestroy", "hipCtxCreate")
  {
    PrecedesAt("hipArrayDestroy", "hipCtxCreate", 3);
  }

  lemma HipVersionKey003BeforeKey004()
    ensures Precedes("hipCtxCreate", "hipCtxDestroy")
  {
    PrecedesAt("hipCtxCreate", "hipCtxDestroy", 6);
  }

  lemma HipVersionKey004BeforeKey005()
    ensures Precedes("hipCtxDestroy", "hipCtxDisablePeerAccess")
  {
    PrecedesAt("hipCtxDestroy", "hipCtxDisablePeerAccess", 7);
  }

  lemma HipVersionKey005BeforeKey006()
    ensures Precedes("hipCtxDisablePeerAccess", "hipCtxEnablePeerAccess")
  {
    PrecedesAt("hipCtxDisablePeerAccess", "hipCtxEnablePeerAccess", 6);
  }

  lemma HipVersionKey006BeforeKey007()
    ensures Precedes("hipCtxEnablePeerAccess", "hipCtxGetApiVersion")
  {
    PrecedesAt("hipCtxEnablePeerAccess", "hipCtxGetApiVersion", 6);
  }

  lemma HipVersionKey007BeforeKey008()
    ensures Precedes("hipCtxGetApiVersion", "hipCtxGetCacheConfig")
  {
    PrecedesAt("hipCtxGetApiVersion", "hipCtxGetCacheConfig", 9);
  }

  lemma HipVersionKey008BeforeKey009()
    ensures Precedes("hipCtxGetCacheConfig", "hipCtxGetCurrent")
  {
    PrecedesAt("hipCtxGetCacheConfig", "hipCtxGetCurrent", 10);
  }

  lemma HipVersionKey009BeforeKey010()
    ensures Precedes("hipCtxGetCurrent", "hipCtxGetDevice")
  {
    PrecedesAt("hipCtxGetCurrent", "hipCtxGetDevice", 9);
  }

  lemma HipVersionKey010BeforeKey011()
    ensures Precedes("hipCtxGetDevice", "hipCtxGetFlags")
  {
    PrecedesAt("hipCtxGetDevice", "hipCtxGetFlags", 9);
  }

  lemma HipVersionKey011BeforeKey012()
    ensures Precedes("hipCtxGetFlags", "hipCtxGetSharedMemConfig")
  {
    PrecedesAt("hipCtxGetFlags", "hipCtxGetSharedMemConfig", 9);
  }

  lemma HipVersionKey012BeforeKey013()
    ensures Precedes("hipCtxGetSharedMemConfig", "hipCtxPopCurrent")
  {
    PrecedesAt("hipCtxGetSharedMemConfig", "hipCtxPopCurrent", 6);
  }

  lemma HipVersionKey013BeforeKey014()
    ensures Precedes("hipCtxPopCurrent", "hipCtxPushCurrent")
  {
    PrecedesAt("hipCtxPopCurrent", "hipCtxPushCurrent", 7);
  }

  lemma HipVersionKey014BeforeKey015()
    ensures Precedes("hipCtxPushCurrent", "hipCtxSetCacheConfig")
  {
    PrecedesAt("hipCtxPushCurrent", "hipCtxSetCacheConfig", 6);
  }

  lemma HipVersionKey015BeforeKey016()
    ensures Precedes("hipCtxSetCacheConfig", "hipCtxSetCurrent")
  {
    PrecedesAt("hipCtxSetCacheConfig", "hipCtxSetCurrent", 10);
  }

  lemma HipVersionKey016BeforeKey017()
    ensures Precedes("hipCtxSetCurrent", "hipCtxSetSharedMemConfig")
  {
    PrecedesAt("hipCtxSetCurrent", "hipCtxSetSharedMemConfig", 9);
  }

  lemma HipVersionKey017BeforeKey018()
    ensures Precedes("hipCtxSetSharedMemConfig", "hipCtxSynchronize")
  {
    PrecedesAt("hipCtxSetSharedMemConfig", "hipCtxSynchronize", 7);
  }

  lemma HipVersionKey018BeforeKey019()
    ensures Precedes("hipCtxSynchronize", "hipDeviceComputeCapability")
  {
    PrecedesAt("hipCtxSynchronize", "hipDeviceComputeCapability", 3);
  }

  lemma HipVersionKey019BeforeKey020()
    ensures Precedes("hipDeviceComputeCapability", "hipDeviceGet")
  {
    PrecedesAt("hipDeviceComputeCapability", "hipDeviceGet", 9);
  }

  lemma HipVersionKey020BeforeKey021()
    ensures Precedes("hipDeviceGet", "hipDeviceGetName")
  {
    PrecedesAt("hipDeviceGet", "hipDeviceGetName", 12);
  }

  lemma HipVersionKey021BeforeKey022()
    ensures Precedes("hipDeviceGetName", "hipDeviceGetStreamPriorityRange")
  {
    PrecedesAt("hipDeviceGetName", "hipDeviceGetStreamPriorityRange", 12);
  }

  lemma HipVersionKey022BeforeKey023()
    ensures Precedes("hipDeviceGetStreamPriorityRange", "hipDeviceGetUuid")
  {
    PrecedesAt("hipDeviceGetStreamPriorityRange", "hipDeviceGetUuid", 12);
  }

  lemma HipVersionKey023BeforeKey024()
    ensures Precedes("hipDeviceGetUuid", "hipDevicePrimaryCtxGetState")
  {
    PrecedesAt("hipDeviceGetUuid", "hipDevicePrimaryCtxGetState", 9);
  }

  lemma HipVersionKey024BeforeKey025()
    ensures Precedes("hipDevicePrimaryCtxGetState", "hipDevicePrimaryCtxRelease")
  {
    PrecedesAt("hipDevicePrimaryCtxGetState", "hipDevicePrimaryCtxRelease", 19);
  }

  lemma HipVersionKey025BeforeKey026()
    ensures Precedes("hipDevicePrimaryCtxRelease", "hipDevicePrimaryCtxReset")
  {
    PrecedesAt("hipDevicePrimaryCtxRelease", "hipDevicePrimaryCtxReset", 21);
  }

  lemma HipVersionKey026BeforeKey027()
    ensures Precedes("hipDevicePrimaryCtxReset", "hipDevicePrimaryCtxRetain")
  {
    PrecedesAt("hipDevicePrimaryCtxReset", "hipDevicePrimaryCtxRetain", 21);
  }

  lemma HipVersionKey027BeforeKey028()
    ensures Precedes("hipDevicePrimaryCtxRetain", "hipDevicePrimaryCtxSetFlags")
  {
    PrecedesAt("hipDevicePrimaryCtxRetain", "hipDevicePrimaryCtxSetFlags", 19);
  }

  lemma HipVersionKey028BeforeKey029()
    ensures Precedes("hipDevicePrimaryCtxSetFlags", "hipDeviceTotalMem")
  {
    PrecedesAt("hipDevicePrimaryCtxSetFlags", "hipDeviceTotalMem", 9);
  }

  lemma HipVersionKey029BeforeKey030()
    ensures Precedes("hipDeviceTotalMem", "hipDriverGetVersion")
  {
    PrecedesAt("hipDeviceTotalMem", "hipDriverGetVersion", 4);
  }

  lemma HipVersionKey030BeforeKey031()
    ensures Precedes("hipDriverGetVersion", "hipDrvGetErrorName")
  {
    PrecedesAt("hipDriverGetVersion", "hipDrvGetErrorName", 5);
  }

  lemma HipVersionKey031BeforeKey032()
    ensures Precedes("hipDrvGetErrorName", "hipDrvGetErrorString")
  {
    PrecedesAt("hipDrvGetErrorName", "hipDrvGetErrorString", 14);
  }

  lemma HipVersionKey032BeforeKey033()
    ensures Precedes("hipDrvGetErrorString", "hipDrvMemcpy2DUnaligned")
  {
    PrecedesAt("hipDrvGetErrorString", "hipDrvMemcpy2DUnaligned", 6);
  }

  lemma HipVersionKey033BeforeKey034()
    ensures Precedes("hipDrvMemcpy2DUnaligned", "hipDrvMemcpy3D")
  {
    PrecedesAt("hipDrvMemcpy2DUnaligned", "hipDrvMemcpy3D", 12);
  }

  lemma HipVersionKey034BeforeKey035()
    ensures Precedes("hipDrvMemcpy3D", "hipDrvMemcpy3DAsync")
  {
    PrecedesAt("hipDrvMemcpy3D", "hipDrvMemcpy3DAsync", 14);
  }

  lemma HipVersionKey035BeforeKey036()
    ensures Precedes("hipDrvMemcpy3DAsync", "hipDrvPointerGetAttributes")
  {
    PrecedesAt("hipDrvMemcpy3DAsync", "hipDrvPointerGetAttributes", 6);
  }

  lemma HipVersionKey036BeforeKey037()
    ensures Precedes("hipDrvPointerGetAttributes", "hipFuncGetAttribute")
  {
    PrecedesAt("hipDrvPointerGetAttributes", "hipFuncGetAttribute", 3);
  }

  lemma HipVersionKey037BeforeKey038()
    ensures Precedes("hipFuncGetAttribute", "hipGraphicsGLRegisterImage")
  {
    PrecedesAt("hipFuncGetAttribute", "hipGraphicsGLRegisterImage", 3);
  }

  lemma HipVersionKey038BeforeKey039()
    ensures Precedes("hipGraphicsGLRegisterImage", "hipGraphicsSubResourceGetMappedArray")
  {
    PrecedesAt("hipGraphicsGLRegisterImage", "hipGraphicsSubResourceGetMappedArray", 11);
  }

  lemma HipVersionKey039BeforeKey040()
    ensures Precedes("hipGraphicsSubResourceGetMappedArray", "hipInit")
  {
    PrecedesAt("hipGraphicsSubResourceGetMappedArray", "hipInit", 3);
  }

  lemma HipVersionKey040BeforeKey041()
    ensures Precedes("hipInit", "hipMemAddressFree")
  {
    PrecedesAt("hipInit", "hipMemAddressFree", 3);
  }

  lemma HipVersionKey041BeforeKey042()
    ensures Precedes("hipMemAddressFree", "hipMemAddressReserve")
  {
    PrecedesAt("hipMemAddressFree", "hipMemAddressReserve", 13);
  }

  lemma HipVersionKey042BeforeKey043()
    ensures Precedes("hipMemAddressReserve", "hipMemAllocHost")
  {
    PrecedesAt("hipMemAddressReserve", "hipMemAllocHost", 7);
  }

  lemma HipVersionKey043BeforeKey044()
    ensures Precedes("hipMemAllocHost", "hipMemAllocPitch")
  {
    PrecedesAt("hipMemAllocHost", "hipMemAllocPitch", 11);
  }

  lemma HipVersionKey044BeforeKey045()
    ensures Precedes("hipMemAllocPitch", "hipMemCreate")
  {
    PrecedesAt("hipMemAllocPitch", "hipMemCreate", 6);
  }

  lemma HipVersionKey045BeforeKey046()
    ensures Precedes("hipMemCreate", "hipMemExportToShareableHandle")
  {
    PrecedesAt("hipMemCreate", "hipMemExportToShareableHandle", 6);
  }

  lemma HipVersionKey046BeforeKey047()
    ensures Precedes("hipMemExportToShareableHandle", "hipMemGetAccess")
  {
    PrecedesAt("hipMemExportToShareableHandle", "hipMemGetAccess", 6);
  }

  lemma HipVersionKey047BeforeKey048()
    ensures Precedes("hipMemGetAccess", "hipMemGetAddressRange")
  {
    PrecedesAt("hipMemGetAccess", "hipMemGetAddressRange", 10);
  }

  lemma HipVersionKey048BeforeKey049()
    ensures Precedes("hipMemGetAddressRange", "hipMemGetAllocationGranularity")
  {
    PrecedesAt("hipMemGetAddressRange", "hipMemGetAllocationGranularity", 10);
  }

  lemma HipVersionKey049BeforeKey050()
    ensures Precedes("hipMemGetAllocationGranularity", "hipMemGetAllocationPropertiesFromHandle")
  {
    PrecedesAt("hipMemGetAllocationGranularity", "hipMemGetAllocationPropertiesFromHandle", 19);
  }

  lemma HipVersionKey050BeforeKey051()
    ensures Precedes("hipMemGetAllocationPropertiesFromHandle", "hipMemImportFromShareableHandle")
  {
    PrecedesAt("hipMemGetAllocationPropertiesFromHandle", "hipMemImportFromShareableHandle", 6);
  }

  lemma HipVersionKey051BeforeKey052()
    ensures Precedes("hipMemImportFromShareableHandle", "hipMemMap")
  {
    PrecedesAt("hipMemImportFromShareableHandle", "hipMemMap", 6);
  }

  lemma HipVersionKey052BeforeKey053()
    ensures Precedes("hipMemMap", "hipMemMapArrayAsync")
  {
    PrecedesAt("hipMemMap", "hipMemMapArrayAsync", 9);
  }

  lemma HipVersionKey053BeforeKey054()
    ensures Precedes("hipMemMapArrayAsync", "hipMemRelease")
  {
    PrecedesAt("hipMemMapArrayAsync", "hipMemRelease", 6);
  }

  lemma HipVersionKey054BeforeKey055()
    ensures Precedes("hipMemRelease", "hipMemRetainAllocationHandle")
  {
    PrecedesAt("hipMemRelease", "hipMemRetainAllocationHandle", 8);
  }

  lemma HipVersionKey055BeforeKey056()
    ensures Precedes("hipMemRetainAllocationHandle", "hipMemSetAccess")
  {
    PrecedesAt("hipMemRetainAllocationHandle", "hipMemSetAccess", 6);
  }

  lemma HipVersionKey056BeforeKey057()
    ensures Precedes("hipMemSetAccess", "hipMemUnmap")
  {
    PrecedesAt("hipMemSetAccess", "hipMemUnmap", 6);
  }

  lemma HipVersionKey057BeforeKey058()
    ensures Precedes("hipMemUnmap", "hipMemcpyAtoH")
  {
    PrecedesAt("hipMemUnmap", "hipMemcpyAtoH", 6);
  }

  lemma HipVersionKey058BeforeKey059()
    ensures Precedes("hipMemcpyAtoH", "hipMemcpyDtoD")
  {
    PrecedesAt("hipMemcpyAtoH", "hipMemcpyDtoD", 9);
  }

  lemma HipVersionKey059BeforeKey060()
    ensures Precedes("hipMemcpyDtoD", "hipMemcpyDtoDAsync")
  {
    PrecedesAt("hipMemcpyDtoD", "hipMemcpyDtoDAsync", 13);
  }

  lemma HipVersionKey060BeforeKey061()
    ensures Precedes("hipMemcpyDtoDAsync", "hipMemcpyDtoH")
  {
    PrecedesAt("hipMemcpyDtoDAsync", "hipMemcpyDtoH", 12);
  }

  lemma HipVersionKey061BeforeKey062()
    ensures Precedes("hipMemcpyDtoH", "hipMemcpyDtoHAsync")
  {
    PrecedesAt("hipMemcpyDtoH", "hipMemcpyDtoHAsync", 13);
  }

  lemma HipVersionKey062BeforeKey063()
    ensures Precedes("hipMemcpyDtoHAsync", "hipMemcpyHtoA")
  {
    PrecedesAt("hipMemcpyDtoHAsync", "hipMemcpyHtoA", 9);
  }

  lemma HipVersionKey063BeforeKey064()
    ensures Precedes("hipMemcpyHtoA", "hipMemcpyHtoD")
  {
    PrecedesAt("hipMemcpyHtoA", "hipMemcpyHtoD", 12);
  }

  lemma HipVersionKey064BeforeKey065()
    ensures Precedes("hipMemcpyHtoD", "hipMemcpyHtoDAsync")
  {
    PrecedesAt("hipMemcpyHtoD", "hipMemcpyHtoDAsync", 13);
  }

  lemma HipVersionKey065BeforeKey066()
    ensures Precedes("hipMemcpyHtoDAsync", "hipMemcpyParam2D")
  {
    PrecedesAt("hipMemcpyHtoDAsync", "hipMemcpyParam2D", 9);
  }

  lemma HipVersionKey066BeforeKey067()
    ensures Precedes("hipMemcpyParam2D", "hipMemcpyParam2DAsync")
  {
    PrecedesAt("hipMemcpyParam2D", "hipMemcpyParam2DAsync", 16);
  }

  lemma HipVersionKey067BeforeKey068()
    ensures Precedes("hipMemcpyParam2DAsync", "hipMemsetD16")
  {
    PrecedesAt("hipMemcpyParam2DAsync", "hipMemsetD16", 6);
  }

  lemma HipVersionKey068BeforeKey069()
    ensures Precedes("hipMemsetD16", "hipMemsetD16Async")
  {
    PrecedesAt("hipMemsetD16", "hipMemsetD16Async", 12);
  }

  lemma HipVersionKey069BeforeKey070()
    ensures Precedes("hipMemsetD16Async", "hipMemsetD32")
  {
    PrecedesAt("hipMemsetD16Async", "hipMemsetD32", 10);
  }

  lemma HipVersionKey070BeforeKey071()
    ensures Precedes("hipMemsetD32", "hipMemsetD32Async")
  {
    PrecedesAt("hipMemsetD32", "hipMemsetD32Async", 12);
  }

  lemma HipVersionKey071BeforeKey072()
    ensures Precedes("hipMemsetD32Async", "hipMemsetD8")
  {
    PrecedesAt("hipMemsetD32Async", "hipMemsetD8", 10);
  }

  lemma HipVersionKey072BeforeKey073()
    ensures Precedes("hipMemsetD8", "hipMemsetD8Async")
  {
    PrecedesAt("hipMemsetD8", "hipMemsetD8Async", 11);
  }

  lemma HipVersionKey073BeforeKey074()
    ensures Precedes("hipMemsetD8Async", "hipMipmappedArrayCreate")
  {
    PrecedesAt("hipMemsetD8Async", "hipMipmappedArrayCreate", 4);
  }

  lemma HipVersionKey074BeforeKey075()
    ensures Precedes("hipMipmappedArrayCreate", "hipMipmappedArrayDestroy")
  {
    PrecedesAt("hipMipmappedArrayCreate", "hipMipmappedArrayDestroy", 17);
  }

  lemma HipVersionKey075BeforeKey076()
    ensures Precedes("hipMipmappedArrayDestroy", "hipMipmappedArrayGetLevel")
  {
    PrecedesAt("hipMipmappedArrayDestroy", "hipMipmappedArrayGetLevel", 17);
  }

  lemma HipVersionKey076BeforeKey077()
    ensures Precedes("hipMipmappedArrayGetLevel", "hipModuleGetFunction")
  {
    PrecedesAt("hipMipmappedArrayGetLevel", "hipModuleGetFunction", 4);
  }

  lemma HipVersionKey077BeforeKey078()
    ensures Precedes("hipModuleGetFunction", "hipModuleGetGlobal")
  {
    PrecedesAt("hipModuleGetFunction", "hipModuleGetGlobal", 12);
  }

  lemma HipVersionKey078BeforeKey079()
    ensures Precedes("hipModuleGetGlobal", "hipModuleGetTexRef")
  {
    PrecedesAt("hipModuleGetGlobal", "hipModuleGetTexRef", 12);
  }

  lemma HipVersionKey079BeforeKey080()
    ensures Precedes("hipModuleGetTexRef", "hipModuleLaunchKernel")
  {
    PrecedesAt("hipModuleGetTexRef", "hipModuleLaunchKernel", 9);
  }

  lemma HipVersionKey080BeforeKey081()
    ensures Precedes("hipModuleLaunchKernel", "hipModuleLoad")
  {
    PrecedesAt("hipModuleLaunchKernel", "hipModuleLoad", 10);
  }

  lemma HipVersionKey081BeforeKey082()
    ensures Precedes("hipModuleLoad", "hipModuleLoadData")
  {
    PrecedesAt("hipModuleLoad", "hipModuleLoadData", 13);
  }

  lemma HipVersionKey082BeforeKey083()
    ensures Precedes("hipModuleLoadData", "hipModuleLoadDataEx")
  {
    PrecedesAt("hipModuleLoadData", "hipModuleLoadDataEx", 17);
  }

  lemma HipVersionKey083BeforeKey084()
    ensures Precedes("hipModuleLoadDataEx", "hipModuleOccupancyMaxActiveBlocksPerMultiprocessor")
  {
    PrecedesAt("hipModuleLoadDataEx", "hipModuleOccupancyMaxActiveBlocksPerMultiprocessor", 9);
  }

  lemma HipVersionKey084BeforeKey085()
    ensures Precedes("hipModuleOccupancyMaxActiveBlocksPerMultiprocessor", "hipModuleOccupancyMaxActiveBlocksPerMultiprocessorWithFlags")
  {
    PrecedesAt("hipModuleOccupancyMaxActiveBlocksPerMultiprocessor", "hipModuleOccupancyMaxActiveBlocksPerMultiprocessorWithFlags", 50);
  }

  lemma HipVersionKey085BeforeKey086()
    ensures Precedes("hipModuleOccupancyMaxActiveBlocksPerMultiprocessorWithFlags", "hipModuleOccupancyMaxPotentialBlockSize")
  {
    PrecedesAt("hipModuleOccupancyMaxActiveBlocksPerMultiprocessorWithFlags", "hipModuleOccupancyMaxPotentialBlockSize", 21);
  }

  lemma HipVersionKey086BeforeKey087()
    ensures Precedes("hipModuleOccupancyMaxPotentialBlockSize", "hipModuleOccupancyMaxPotentialBlockSizeWithFlags")
  {
    PrecedesAt("hipModuleOccupancyMaxPotentialBlockSize", "hipModuleOccupancyMaxPotentialBlockSizeWithFlags", 39);
  }

  lemma HipVersionKey087BeforeKey088()
    ensures Precedes("hipModuleOccupancyMaxPotentialBlockSizeWithFlags", "hipModuleUnload")
  {
    PrecedesAt("hipModuleOccupancyMaxPotentialBlockSizeWithFlags", "hipModuleUnload", 9);
  }

  lemma HipVersionKey088BeforeKey089()
    ensures Precedes("hipModuleUnload", "hipPointerGetAttribute")
  {
    PrecedesAt("hipModuleUnload", "hipPointerGetAttribute", 3);
  }

  lemma HipVersionKey089BeforeKey090()
    ensures Precedes("hipPointerGetAttribute", "hipStreamGetCaptureInfo")
  {
    PrecedesAt("hipPointerGetAttribute", "hipStreamGetCaptureInfo", 3);
  }

  lemma HipVersionKey090BeforeKey091()
    ensures Precedes("hipStreamGetCaptureInfo", "hipStreamGetCaptureInfo_v2")
  {
    PrecedesAt("hipStreamGetCaptureInfo", "hipStreamGetCaptureInfo_v2", 23);
  }

  lemma HipVersionKey091BeforeKey092()
    ensures Precedes("hipStreamGetCaptureInfo_v2", "hipStreamIsCapturing")
  {
    PrecedesAt("hipStreamGetCaptureInfo_v2", "hipStreamIsCapturing", 9);
  }

  lemma HipVersionKey092BeforeKey093()
    ensures Precedes("hipStreamIsCapturing", "hipStreamUpdateCaptureDependencies")
  {
    PrecedesAt("hipStreamIsCapturing", "hipStreamUpdateCaptureDependencies", 9);
  }

  lemma HipVersionKey093BeforeKey094()
    ensures Precedes("hipStreamUpdateCaptureDependencies", "hipStreamWaitValue32")
  {
    PrecedesAt("hipStreamUpdateCaptureDependencies", "hipStreamWaitValue32", 9);
  }

  lemma HipVersionKey094BeforeKey095()
    ensures Precedes("hipStreamWaitValue32", "hipStreamWaitValue64")
  {
    PrecedesAt("hipStreamWaitValue32", "hipStreamWaitValue64", 18);
  }

  lemma HipVersionKey095BeforeKey096()
    ensures Precedes("hipStreamWaitValue64", "hipStreamWriteValue32")
  {
    PrecedesAt("hipStreamWaitValue64", "hipStreamWriteValue32", 10);
  }

  lemma HipVersionKey096BeforeKey097()
    ensures Precedes("hipStreamWriteValue32", "hipStreamWriteValue64")
  {
    PrecedesAt("hipStreamWriteValue32", "hipStreamWriteValue64", 19);
  }

  lemma HipVersionKey097BeforeKey098()
    ensures Precedes("hipStreamWriteValue64", "hipTexObjectCreate")
  {
    PrecedesAt("hipStreamWriteValue64", "hipTexObjectCreate", 3);
  }

  lemma HipVersionKey098BeforeKey099()
    ensures Precedes("hipTexObjectCreate", "hipTexObjectDestroy")
  {
    PrecedesAt("hipTexObjectCreate", "hipTexObjectDestroy", 12);
  }

  lemma HipVersionKey099BeforeKey100()
    ensures Precedes("hipTexObjectDestroy", "hipTexObjectGetResourceDesc")
  {
    PrecedesAt("hipTexObjectDestroy", "hipTexObjectGetResourceDesc", 12);
  }

  lemma HipVersionKey100BeforeKey101()
    ensures Precedes("hipTexObjectGetResourceDesc", "hipTexObjectGetResourceViewDesc")
  {
    PrecedesAt("hipTexObjectGetResourceDesc", "hipTexObjectGetResourceViewDesc", 23);
  }

  lemma HipVersionKey101BeforeKey102()
    ensures Precedes("hipTexObjectGetResourceViewDesc", "hipTexObjectGetTextureDesc")
  {
    PrecedesAt("hipTexObjectGetResourceViewDesc", "hipTexObjectGetTextureDesc", 15);
  }

  lemma HipVersionKey102BeforeKey103()
    ensures Precedes("hipTexObjectGetTextureDesc", "hipTexRefGetAddress")
  {
    PrecedesAt("hipTexObjectGetTextureDesc", "hipTexRefGetAddress", 6);
  }

  lemma HipVersionKey103BeforeKey104()
    ensures Precedes("hipTexRefGetAddress", "hipTexRefGetAddressMode")
  {
    PrecedesAt("hipTexRefGetAddress", "hipTexRefGetAddressMode", 19);
  }

  lemma HipVersionKey104BeforeKey105()
    ensures Precedes("hipTexRefGetAddressMode", "hipTexRefGetArray")
  {
    PrecedesAt("hipTexRefGetAddressMode", "hipTexRefGetArray", 13);
  }

  lemma HipVersionKey105BeforeKey106()
    ensures Precedes("hipTexRefGetArray", "hipTexRefGetFilterMode")
  {
    PrecedesAt("hipTexRefGetArray", "hipTexRefGetFilterMode", 12);
  }

  lemma HipVersionKey106BeforeKey107()
    ensures Precedes("hipTexRefGetFilterMode", "hipTexRefGetFlags")
  {
    PrecedesAt("hipTexRefGetFilterMode", "hipTexRefGetFlags", 13);
  }

  lemma HipVersionKey107BeforeKey108()
    ensures Precedes("hipTexRefGetFlags", "hipTexRefGetFormat")
  {
    PrecedesAt("hipTexRefGetFlags", "hipTexRefGetFormat", 13);
  }

  lemma HipVersionKey108BeforeKey109()
    ensures Precedes("hipTexRefGetFormat", "hipTexRefGetMaxAnisotropy")
  {
    PrecedesAt("hipTexRefGetFormat", "hipTexRefGetMaxAnisotropy", 12);
  }

  lemma HipVersionKey109BeforeKey110()
    ensures Precedes("hipTexRefGetMaxAnisotropy", "hipTexRefGetMipMappedArray")
  {
    PrecedesAt("hipTexRefGetMaxAnisotropy", "hipTexRefGetMipMappedArray", 13);
  }

  lemma HipVersionKey110BeforeKey111()
    ensures Precedes("hipTexRefGetMipMappedArray", "hipTexRefGetMipmapFilterMode")
  {
    PrecedesAt("hipTexRefGetMipMappedArray", "hipTexRefGetMipmapFilterMode", 15);
  }

  lemma HipVersionKey111BeforeKey112()
    ensures Precedes("hipTexRefGetMipmapFilterMode", "hipTexRefGetMipmapLevelBias")
  {
    PrecedesAt("hipTexRefGetMipmapFilterMode", "hipTexRefGetMipmapLevelBias", 18);
  }

  lemma HipVersionKey112BeforeKey113()
    ensures Precedes("hipTexRefGetMipmapLevelBias", "hipTexRefGetMipmapLevelClamp")
  {
    PrecedesAt("hipTexRefGetMipmapLevelBias", "hipTexRefGetMipmapLevelClamp", 23);
  }

  lemma HipVersionKey113BeforeKey114()
    ensures Precedes("hipTexRefGetMipmapLevelClamp", "hipTexRefSetAddress")
  {
    PrecedesAt("hipTexRefGetMipmapLevelClamp", "hipTexRefSetAddress", 9);
  }

  lemma HipVersionKey114BeforeKey115()
    ensures Precedes("hipTexRefSetAddress", "hipTexRefSetAddress2D")
  {
    PrecedesAt("hipTexRefSetAddress", "hipTexRefSetAddress2D", 19);
  }

  lemma HipVersionKey115BeforeKey116()
    ensures Precedes("hipTexRefSetAddress2D", "hipTexRefSetAddressMode")
  {
    PrecedesAt("hipTexRefSetAddress2D", "hipTexRefSetAddressMode", 19);
  }

  lemma HipVersionKey116BeforeKey117()
    ensures Precedes("hipTexRefSetAddressMode", "hipTexRefSetArray")
  {
    PrecedesAt("hipTexRefSetAddressMode", "hipTexRefSetArray", 13);
  }

  lemma HipVersionKey117BeforeKey118()
    ensures Precedes("hipTexRefSetArray", "hipTexRefSetBorderColor")
  {
    PrecedesAt("hipTexRefSetArray", "hipTexRefSetBorderColor", 12);
  }

  lemma HipVersionKey118BeforeKey119()
    ensures Precedes("hipTexRefSetBorderColor", "hipTexRefSetFilterMode")
  {
    PrecedesAt("hipTexRefSetBorderColor", "hipTexRefSetFilterMode", 12);
  }

  lemma HipVersionKey119BeforeKey120()
    ensures Precedes("hipTexRefSetFilterMode", "hipTexRefSetFlags")
  {
    PrecedesAt("hipTexRefSetFilterMode", "hipTexRefSetFlags", 13);
  }

  lemma HipVersionKey120BeforeKey121()
    ensures Precedes("hipTexRefSetFlags", "hipTexRefSetFormat")
  {
    PrecedesAt("hipTexRefSetFlags", "hipTexRefSetFormat", 13);
  }

  lemma HipVersionKey121BeforeKey122()
    ensures Precedes("hipTexRefSetFormat", "hipTexRefSetMaxAnisotropy")
  {
    PrecedesAt("hipTexRefSetFormat", "hipTexRefSetMaxAnisotropy", 12);
  }

  lemma HipVersionKey122BeforeKey123()
    ensures Precedes("hipTexRefSetMaxAnisotropy", "hipTexRefSetMipmapFilterMode")
  {
    PrecedesAt("hipTexRefSetMaxAnisotropy", "hipTexRefSetMipmapFilterMode", 13);
  }

  lemma HipVersionKey123BeforeKey124()
    ensures Precedes("hipTexRefSetMipmapFilterMode", "hipTexRefSetMipmapLevelBias")
  {
    PrecedesAt("hipTexRefSetMipmapFilterMode", "hipTexRefSetMipmapLevelBias", 18);
  }

  lemma HipVersionKey124BeforeKey125()
    ensures Precedes("hipTexRefSetMipmapLevelBias", "hipTexRefSetMipmapLevelClamp")
  {
    PrecedesAt("hipTexRefSetMipmapLevelBias", "hipTexRefSetMipmapLevelClamp", 23);
  }

  lemma HipVersionKey125BeforeKey126()
    ensures Precedes("hipTexRefSetMipmapLevelClamp", "hipTexRefSetMipmappedArray")
  {
    PrecedesAt("hipTexRefSetMipmapLevelClamp", "hipTexRefSetMipmappedArray", 18);
  }

  lemma HipVersionKey126BeforeKey127()
    ensures Precedes("hipTexRefSetMipmappedArray", "hiprtcLinkAddData")
  {
    PrecedesAt("hipTexRefSetMipmappedArray", "hiprtcLinkAddData", 3);
  }

  lemma HipVersionKey127BeforeKey128()
    ensures Precedes("hiprtcLinkAddData", "hiprtcLinkAddFile")
  {
    PrecedesAt("hiprtcLinkAddData", "hiprtcLinkAddFile", 13);
  }

  lemma HipVersionKey128BeforeKey129()
    ensures Precedes("hiprtcLinkAddFile", "hiprtcLinkComplete")
  {
    PrecedesAt("hiprtcLinkAddFile", "hiprtcLinkComplete", 10);
  }

  lemma HipVersionKey129BeforeKey130()
    ensures Precedes("hiprtcLinkComplete", "hiprtcLinkCreate")
  {
    PrecedesAt("hiprtcLinkComplete", "hiprtcLinkCreate", 11);
  }

  lemma HipVersionKey130BeforeKey131()
    ensures Precedes("hiprtcLinkCreate", "hiprtcLinkDestroy")
  {
    PrecedesAt("hiprtcLinkCreate", "hiprtcLinkDestroy", 10);
  }
}
