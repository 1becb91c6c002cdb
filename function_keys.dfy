/** The keys of the function table in order: each sorts strictly before the next. */
module FunctionKeys {
  import opened KeyOrder

  lemma FunctionKey000BeforeKey001()
    ensures Precedes("cuArray3DCreate", "cuArray3DCreate_v2")
  {
    PrecedesAt("cuArray3DCreate", "cuArray3DCreate_v2", 15);
  }

  lemma FunctionKey001BeforeKey002()
    ensures Precedes("cuArray3DCreate_v2", "cuArray3DGetDescriptor")
  {
    PrecedesAt("cuArray3DCreate_v2", "cuArray3DGetDescriptor", 9);
  }

  lemma FunctionKey002BeforeKey003()
    ensures Precedes("cuArray3DGetDescriptor", "cuArray3DGetDescriptor_v2")
  {
    PrecedesAt("cuArray3DGetDescriptor", "cuArray3DGetDescriptor_v2", 22);
  }

  lemma FunctionKey003BeforeKey004()
    ensures Precedes("cuArray3DGetDescriptor_v2", "cuArrayCreate")
  {
    PrecedesAt("cuArray3DGetDescriptor_v2", "cuArrayCreate", 7);
  }

  lemma FunctionKey004BeforeKey005()
    ensures Precedes("cuArrayCreate", "cuArrayCreate_v2")
  {
    PrecedesAt("cuArrayCreate", "cuArrayCreate_v2", 13);
  }

  lemma FunctionKey005BeforeKey006()
    ensures Precedes("cuArrayCreate_v2", "cuArrayDestroy")
  {
    PrecedesAt("cuArrayCreate_v2", "cuArrayDestroy", 7);
  }

  lemma FunctionKey006BeforeKey007()
    ensures Precedes("cuArrayDestroy", "cuArrayGetDescriptor")
  {
    PrecedesAt("cuArrayDestroy", "cuArrayGetDescriptor", 7);
  }

  lemma FunctionKey007BeforeKey008()
    ensures Precedes("cuArrayGetDescriptor", "cuArrayGetDescriptor_v2")
  {
    PrecedesAt("cuArrayGetDescriptor", "cuArrayGetDescriptor_v2", 20);
  }

  lemma FunctionKey008BeforeKey009()
    ensures Precedes("cuArrayGetDescriptor_v2", "cuArrayGetMemoryRequirements")
  {
    PrecedesAt("cuArrayGetDescriptor_v2", "cuArrayGetMemoryRequirements", 10);
  }

  lemma FunctionKey009BeforeKey010()
    ensures Precedes("cuArrayGetMemoryRequirements", "cuArrayGetPlane")
  {
    PrecedesAt("cuArrayGetMemoryRequirements", "cuArrayGetPlane", 10);
  }

  lemma FunctionKey010BeforeKey011()
    ensures Precedes("cuArrayGetPlane", "cuArrayGetSparseProperties")
  {
    PrecedesAt("cuArrayGetPlane", "cuArrayGetSparseProperties", 10);
  }

  lemma FunctionKey011BeforeKey012()
    ensures Precedes("cuArrayGetSparseProperties", "cuCtxAttach")
  {
    PrecedesAt("cuArrayGetSparseProperties", "cuCtxAttach", 2);
  }

  lemma FunctionKey012BeforeKey013()
    ensures Precedes("cuCtxAttach", "cuCtxCreate")
  {
    PrecedesAt("cuCtxAttach", "cuCtxCreate", 5);
  }

  lemma FunctionKey013BeforeKey014()
    ensures Precedes("cuCtxCreate", "cuCtxCreate_v2")
  {
    PrecedesAt("cuCtxCreate", "cuCtxCreate_v2", 11);
  }

  lemma FunctionKey014BeforeKey015()
    ensures Precedes("cuCtxCreate_v2", "cuCtxCreate_v3")
  {
    PrecedesAt("cuCtxCreate_v2", "cuCtxCreate_v3", 13);
  }

  lemma FunctionKey015BeforeKey016()
    ensures Precedes("cuCtxCreate_v3", "cuCtxDestroy")
  {
    PrecedesAt("cuCtxCreate_v3", "cuCtxDestroy", 5);
  }

  lemma FunctionKey016BeforeKey017()
    ensures Precedes("cuCtxDestroy", "cuCtxDestroy_v2")
  {
    PrecedesAt("cuCtxDestroy", "cuCtxDestroy_v2", 12);
  }

  lemma FunctionKey017BeforeKey018()
    ensures Precedes("cuCtxDestroy_v2", "cuCtxDetach")
  {
    PrecedesAt("cuCtxDestroy_v2", "cuCtxDetach", 7);
  }

  lemma FunctionKey018BeforeKey019()
    ensures Precedes("cuCtxDetach", "cuCtxDisablePeerAccess")
  {
    PrecedesAt("cuCtxDetach", "cuCtxDisablePeerAccess", 6);
  }

  lemma FunctionKey019BeforeKey020()
    ensures Precedes("cuCtxDisablePeerAccess", "cuCtxEnablePeerAccess")
  {
    PrecedesAt("cuCtxDisablePeerAccess", "cuCtxEnablePeerAccess", 5);
  }

  lemma FunctionKey020BeforeKey021()
    ensures Precedes("cuCtxEnablePeerAccess", "cuCtxGetApiVersion")
  {
    PrecedesAt("cuCtxEnablePeerAccess", "cuCtxGetApiVersion", 5);
  }

  lemma FunctionKey021BeforeKey022()
    ensures Precedes("cuCtxGetApiVersion", "cuCtxGetCacheConfig")
  {
    PrecedesAt("cuCtxGetApiVersion", "cuCtxGetCacheConfig", 8);
  }

  lemma FunctionKey022BeforeKey023()
    ensures Precedes("cuCtxGetCacheConfig", "cuCtxGetCurrent")
  {
    PrecedesAt("cuCtxGetCacheConfig", "cuCtxGetCurrent", 9);
  }

  lemma FunctionKey023BeforeKey024()
    ensures Precedes("cuCtxGetCurrent", "cuCtxGetDevice")
  {
    PrecedesAt("cuCtxGetCurrent", "cuCtxGetDevice", 8);
  }

  lemma FunctionKey024BeforeKey025()
    ensures Precedes("cuCtxGetDevice", "cuCtxGetExecAffinity")
  {
    PrecedesAt("cuCtxGetDevice", "cuCtxGetExecAffinity", 8);
  }

  lemma FunctionKey025BeforeKey026()
    ensures Precedes("cuCtxGetExecAffinity", "cuCtxGetFlags")
  {
    PrecedesAt("cuCtxGetExecAffinity", "cuCtxGetFlags", 8);
  }

  lemma FunctionKey026BeforeKey027()
    ensures Precedes("cuCtxGetFlags", "cuCtxGetId")
  {
    PrecedesAt("cuCtxGetFlags", "cuCtxGetId", 8);
  }

  lemma FunctionKey027BeforeKey028()
    ensures Precedes("cuCtxGetId", "cuCtxGetLimit")
  {
    PrecedesAt("cuCtxGetId", "cuCtxGetLimit", 8);
  }

  lemma FunctionKey028BeforeKey029()
    ensures Precedes("cuCtxGetLimit", "cuCtxGetSharedMemConfig")
  {
    PrecedesAt("cuCtxGetLimit", "cuCtxGetSharedMemConfig", 8);
  }

  lemma FunctionKey029BeforeKey030()
    ensures Precedes("cuCtxGetSharedMemConfig", "cuCtxGetStreamPriorityRange")
  {
    PrecedesAt("cuCtxGetSharedMemConfig", "cuCtxGetStreamPriorityRange", 9);
  }

  lemma FunctionKey030BeforeKey031()
    ensures Precedes("cuCtxGetStreamPriorityRange", "cuCtxPopCurrent")
  {
    PrecedesAt("cuCtxGetStreamPriorityRange", "cuCtxPopCurrent", 5);
  }

  lemma FunctionKey031BeforeKey032()
    ensures Precedes("cuCtxPopCurrent", "cuCtxPopCurrent_v2")
  {
    PrecedesAt("cuCtxPopCurrent", "cuCtxPopCurrent_v2", 15);
  }

  lemma FunctionKey032BeforeKey033()
    ensures Precedes("cuCtxPopCurrent_v2", "cuCtxPushCurrent")
  {
    PrecedesAt("cuCtxPopCurrent_v2", "cuCtxPushCurrent", 6);
  }

  lemma FunctionKey033BeforeKey034()
    ensures Precedes("cuCtxPushCurrent", "cuCtxPushCurrent_v2")
  {
    PrecedesAt("cuCtxPushCurrent", "cuCtxPushCurrent_v2", 16);
  }

  lemma FunctionKey034BeforeKey035()
    ensures Precedes("cuCtxPushCurrent_v2", "cuCtxResetPersistingL2Cache")
  {
    PrecedesAt("cuCtxPushCurrent_v2", "cuCtxResetPersistingL2Cache", 5);
  }

  lemma FunctionKey035BeforeKey036()
    ensures Precedes("cuCtxResetPersistingL2Cache", "cuCtxSetCacheConfig")
  {
    PrecedesAt("cuCtxResetPersistingL2Cache", "cuCtxSetCacheConfig", 5);
  }

  lemma FunctionKey036BeforeKey037()
    ensures Precedes("cuCtxSetCacheConfig", "cuCtxSetCurrent")
  {
    PrecedesAt("cuCtxSetCacheConfig", "cuCtxSetCurrent", 9);
  }

  lemma FunctionKey037BeforeKey038()
    ensures Precedes("cuCtxSetCurrent", "cuCtxSetLimit")
  {
    PrecedesAt("cuCtxSetCurrent", "cuCtxSetLimit", 8);
  }

  lemma FunctionKey038BeforeKey039()
    ensures Precedes("cuCtxSetLimit", "cuCtxSetSharedMemConfig")
  {
    PrecedesAt("cuCtxSetLimit", "cuCtxSetSharedMemConfig", 8);
  }

  lemma FunctionKey039BeforeKey040()
    ensures Precedes("cuCtxSetSharedMemConfig", "cuCtxSynchronize")
  {
    PrecedesAt("cuCtxSetSharedMemConfig", "cuCtxSynchronize", 6);
  }

  lemma FunctionKey040BeforeKey041()
    ensures Precedes("cuCtxSynchronize", "cuD3D10CtxCreate")
  {
    PrecedesAt("cuCtxSynchronize", "cuD3D10CtxCreate", 2);
  }

  lemma FunctionKey041BeforeKey042()
    ensures Precedes("cuD3D10CtxCreate", "cuD3D10CtxCreateOnDevice")
  {
    PrecedesAt("cuD3D10CtxCreate", "cuD3D10CtxCreateOnDevice", 16);
  }

  lemma FunctionKey042BeforeKey043()
    ensures Precedes("cuD3D10CtxCreateOnDevice", "cuD3D10GetDevice")
  {
    PrecedesAt("cuD3D10CtxCreateOnDevice", "cuD3D10GetDevice", 7);
  }

  lemma FunctionKey043BeforeKey044()
    ensures Precedes("cuD3D10GetDevice", "cuD3D10GetDevices")
  {
    PrecedesAt("cuD3D10GetDevice", "cuD3D10GetDevices", 16);
  }

  lemma FunctionKey044BeforeKey045()
    ensures Precedes("cuD3D10GetDevices", "cuD3D10GetDirect3DDevice")
  {
    PrecedesAt("cuD3D10GetDevices", "cuD3D10GetDirect3DDevice", 11);
  }

  lemma FunctionKey045BeforeKey046()
    ensures Precedes("cuD3D10GetDirect3DDevice", "cuD3D10MapResources")
  {
    PrecedesAt("cuD3D10GetDirect3DDevice", "cuD3D10MapResources", 7);
  }

  lemma FunctionKey046BeforeKey047()
    ensures Precedes("cuD3D10MapResources", "cuD3D10RegisterResource")
  {
    PrecedesAt("cuD3D10MapResources", "cuD3D10RegisterResource", 7);
  }

  lemma FunctionKey047BeforeKey048()
    ensures Precedes("cuD3D10RegisterResource", "cuD3D10ResourceGetMappedArray")
  {
    PrecedesAt("cuD3D10RegisterResource", "cuD3D10ResourceGetMappedArray", 9);
  }

  lemma FunctionKey048BeforeKey049()
    ensures Precedes("cuD3D10ResourceGetMappedArray", "cuD3D10ResourceGetMappedPitch")
  {
    PrecedesAt("cuD3D10ResourceGetMappedArray", "cuD3D10ResourceGetMappedPitch", 24);
  }

  lemma FunctionKey049BeforeKey050()
    ensures Precedes("cuD3D10ResourceGetMappedPitch", "cuD3D10ResourceGetMappedPointer")
  {
    PrecedesAt("cuD3D10ResourceGetMappedPitch", "cuD3D10ResourceGetMappedPointer", 25);
  }

  lemma FunctionKey050BeforeKey051()
    ensures Precedes("cuD3D10ResourceGetMappedPointer", "cuD3D10ResourceGetMappedSize")
  {
    PrecedesAt("cuD3D10ResourceGetMappedPointer", "cuD3D10ResourceGetMappedSize", 24);
  }

  lemma FunctionKey051BeforeKey052()
    ensures Precedes("cuD3D10ResourceGetMappedSize", "cuD3D10ResourceGetSurfaceDimensions")
  {
    PrecedesAt("cuD3D10ResourceGetMappedSize", "cuD3D10ResourceGetSurfaceDimensions", 18);
  }

  lemma FunctionKey052BeforeKey053()
    ensures Precedes("cuD3D10ResourceGetSurfaceDimensions", "cuD3D10ResourceSetMapFlags")
  {
    PrecedesAt("cuD3D10ResourceGetSurfaceDimensions", "cuD3D10ResourceSetMapFlags", 15);
  }

  lemma FunctionKey053BeforeKey054()
    ensures Precedes("cuD3D10ResourceSetMapFlags", "cuD3D10UnmapResources")
  {
    PrecedesAt("cuD3D10ResourceSetMapFlags", "cuD3D10UnmapResources", 7);
  }

  lemma FunctionKey054BeforeKey055()
    ensures Precedes("cuD3D10UnmapResources", "cuD3D10UnregisterResource")
  {
    PrecedesAt("cuD3D10UnmapResources", "cuD3D10UnregisterResource", 9);
  }

  lemma FunctionKey055BeforeKey056()
    ensures Precedes("cuD3D10UnregisterResource", "cuD3D11CtxCreate")
  {
    PrecedesAt("cuD3D10UnregisterResource", "cuD3D11CtxCreate", 6);
  }

  lemma FunctionKey056BeforeKey057()
    ensures Precedes("cuD3D11CtxCreate", "cuD3D11CtxCreateOnDevice")
  {
    PrecedesAt("cuD3D11CtxCreate", "cuD3D11CtxCreateOnDevice", 16);
  }

  lemma FunctionKey057BeforeKey058()
    ensures Precedes("cuD3D11CtxCreateOnDevice", "cuD3D11GetDevice")
  {
    PrecedesAt("cuD3D11CtxCreateOnDevice", "cuD3D11GetDevice", 7);
  }

  lemma FunctionKey058BeforeKey059()
    ensures Precedes("cuD3D11GetDevice", "cuD3D11GetDevices")
  {
    PrecedesAt("cuD3D11GetDevice", "cuD3D11GetDevices", 16);
  }

  lemma FunctionKey059BeforeKey060()
    ensures Precedes("cuD3D11GetDevices", "cuD3D11GetDirect3DDevice")
  {
    PrecedesAt("cuD3D11GetDevices", "cuD3D11GetDirect3DDevice", 11);
  }

  lemma FunctionKey060BeforeKey061()
    ensures Precedes("cuD3D11GetDirect3DDevice", "cuD3D9CtxCreate")
  {
    PrecedesAt("cuD3D11GetDirect3DDevice", "cuD3D9CtxCreate", 5);
  }

  lemma FunctionKey061BeforeKey062()
    ensures Precedes("cuD3D9CtxCreate", "cuD3D9CtxCreateOnDevice")
  {
    PrecedesAt("cuD3D9CtxCreate", "cuD3D9CtxCreateOnDevice", 15);
  }

  lemma FunctionKey062BeforeKey063()
    ensures Precedes("cuD3D9CtxCreateOnDevice", "cuD3D9GetDevice")
  {
    PrecedesAt("cuD3D9CtxCreateOnDevice", "cuD3D9GetDevice", 6);
  }

  lemma FunctionKey063BeforeKey064()
    ensures Precedes("cuD3D9GetDevice", "cuD3D9GetDevices")
  {
    PrecedesAt("cuD3D9GetDevice", "cuD3D9GetDevices", 15);
  }

  lemma FunctionKey064BeforeKey065()
    ensures Precedes("cuD3D9GetDevices", "cuD3D9GetDirect3DDevice")
  {
    PrecedesAt("cuD3D9GetDevices", "cuD3D9GetDirect3DDevice", 10);
  }

  lemma FunctionKey065BeforeKey066()
    ensures Precedes("cuD3D9GetDirect3DDevice", "cuD3D9MapResources")
  {
    PrecedesAt("cuD3D9GetDirect3DDevice", "cuD3D9MapResources", 6);
  }

  lemma FunctionKey066BeforeKey067()
    ensures Precedes("cuD3D9MapResources", "cuD3D9RegisterResource")
  {
    PrecedesAt("cuD3D9MapResources", "cuD3D9RegisterResource", 6);
  }

  lemma FunctionKey067BeforeKey068()
    ensures Precedes("cuD3D9RegisterResource", "cuD3D9ResourceGetMappedArray")
  {
    PrecedesAt("cuD3D9RegisterResource", "cuD3D9ResourceGetMappedArray", 8);
  }

  lemma FunctionKey068BeforeKey069()
    ensures Precedes("cuD3D9ResourceGetMappedArray", "cuD3D9ResourceGetMappedPitch")
  {
    PrecedesAt("cuD3D9ResourceGetMappedArray", "cuD3D9ResourceGetMappedPitch", 23);
  }

  lemma FunctionKey069BeforeKey070()
    ensures Precedes("cuD3D9ResourceGetMappedPitch", "cuD3D9ResourceGetMappedPointer")
  {
    PrecedesAt("cuD3D9ResourceGetMappedPitch", "cuD3D9ResourceGetMappedPointer", 24);
  }

  lemma FunctionKey070BeforeKey071()
    ensures Precedes("cuD3D9ResourceGetMappedPointer", "cuD3D9ResourceGetMappedSize")
  {
    PrecedesAt("cuD3D9ResourceGetMappedPointer", "cuD3D9ResourceGetMappedSize", 23);
  }

  lemma FunctionKey071BeforeKey072()
    ensures Precedes("cuD3D9ResourceGetMappedSize", "cuD3D9ResourceGetSurfaceDimensions")
  {
    PrecedesAt("cuD3D9ResourceGetMappedSize", "cuD3D9ResourceGetSurfaceDimensions", 17);
  }

  lemma FunctionKey072BeforeKey073()
    ensures Precedes("cuD3D9ResourceGetSurfaceDimensions", "cuD3D9ResourceSetMapFlags")
  {
    PrecedesAt("cuD3D9ResourceGetSurfaceDimensions", "cuD3D9ResourceSetMapFlags", 14);
  }

  lemma FunctionKey073BeforeKey074()
    ensures Precedes("cuD3D9ResourceSetMapFlags", "cuD3D9UnmapResources")
  {
    PrecedesAt("cuD3D9ResourceSetMapFlags", "cuD3D9UnmapResources", 6);
  }

  lemma FunctionKey074BeforeKey075()
    ensures Precedes("cuD3D9UnmapResources", "cuD3D9UnregisterResource")
  {
    PrecedesAt("cuD3D9UnmapResources", "cuD3D9UnregisterResource", 8);
  }

  lemma FunctionKey075BeforeKey076()
    ensures Precedes("cuD3D9UnregisterResource", "cuDestroyExternalMemory")
  {
    PrecedesAt("cuD3D9UnregisterResource", "cuDestroyExternalMemory", 3);
  }

  lemma FunctionKey076BeforeKey077()
    ensures Precedes("cuDestroyExternalMemory", "cuDestroyExternalSemaphore")
  {
    PrecedesAt("cuDestroyExternalMemory", "cuDestroyExternalSemaphore", 17);
  }

  lemma FunctionKey077BeforeKey078()
    ensures Precedes("cuDestroyExternalSemaphore", "cuDeviceCanAccessPeer")
  {
    PrecedesAt("cuDestroyExternalSemaphore", "cuDeviceCanAccessPeer", 4);
  }

  lemma FunctionKey078BeforeKey079()
    ensures Precedes("cuDeviceCanAccessPeer", "cuDeviceComputeCapability")
  {
    PrecedesAt("cuDeviceCanAccessPeer", "cuDeviceComputeCapability", 9);
  }

  lemma FunctionKey079BeforeKey080()
    ensures Precedes("cuDeviceComputeCapability", "cuDeviceGet")
  {
    PrecedesAt("cuDeviceComputeCapability", "cuDeviceGet", 8);
  }

  lemma FunctionKey080BeforeKey081()
    ensures Precedes("cuDeviceGet", "cuDeviceGetAttribute")
  {
    PrecedesAt("cuDeviceGet", "cuDeviceGetAttribute", 11);
  }

  lemma FunctionKey081BeforeKey082()
    ensures Precedes("cuDeviceGetAttribute", "cuDeviceGetByPCIBusId")
  {
    PrecedesAt("cuDeviceGetAttribute", "cuDeviceGetByPCIBusId", 11);
  }

  lemma FunctionKey082BeforeKey083()
    ensures Precedes("cuDeviceGetByPCIBusId", "cuDeviceGetCount")
  {
    PrecedesAt("cuDeviceGetByPCIBusId", "cuDeviceGetCount", 11);
  }

  lemma FunctionKey083BeforeKey084()
    ensures Precedes("cuDeviceGetCount", "cuDeviceGetDefaultMemPool")
  {
    PrecedesAt("cuDeviceGetCount", "cuDeviceGetDefaultMemPool", 11);
  }

  lemma FunctionKey084BeforeKey085()
    ensures Precedes("cuDeviceGetDefaultMemPool", "cuDeviceGetExecAffinitySupport")
  {
    PrecedesAt("cuDeviceGetDefaultMemPool", "cuDeviceGetExecAffinitySupport", 11);
  }

  lemma FunctionKey085BeforeKey086()
    ensures Precedes("cuDeviceGetExecAffinitySupport", "cuDeviceGetGraphMemAttribute")
  {
    PrecedesAt("cuDeviceGetExecAffinitySupport", "cuDeviceGetGraphMemAttribute", 11);
  }

  lemma FunctionKey086BeforeKey087()
    ensures Precedes("cuDeviceGetGraphMemAttribute", "cuDeviceGetLuid")
  {
    PrecedesAt("cuDeviceGetGraphMemAttribute", "cuDeviceGetLuid", 11);
  }

  lemma FunctionKey087BeforeKey088()
    ensures Precedes("cuDeviceGetLuid", "cuDeviceGetMemPool")
  {
    PrecedesAt("cuDeviceGetLuid", "cuDeviceGetMemPool", 11);
  }

  lemma FunctionKey088BeforeKey089()
    ensures Precedes("cuDeviceGetMemPool", "cuDeviceGetName")
  {
    PrecedesAt("cuDeviceGetMemPool", "cuDeviceGetName", 11);
  }

  lemma FunctionKey089BeforeKey090()
    ensures Precedes("cuDeviceGetName", "cuDeviceGetNvSciSyncAttributes")
  {
    PrecedesAt("cuDeviceGetName", "cuDeviceGetNvSciSyncAttributes", 12);
  }

  lemma FunctionKey090BeforeKey091()
    ensures Precedes("cuDeviceGetNvSciSyncAttributes", "cuDeviceGetP2PAttribute")
  {
    PrecedesAt("cuDeviceGetNvSciSyncAttributes", "cuDeviceGetP2PAttribute", 11);
  }

  lemma FunctionKey091BeforeKey092()
    ensures Precedes("cuDeviceGetP2PAttribute", "cuDeviceGetPCIBusId")
  {
    PrecedesAt("cuDeviceGetP2PAttribute", "cuDeviceGetPCIBusId", 12);
  }

  lemma FunctionKey092BeforeKey093()
    ensures Precedes("cuDeviceGetPCIBusId", "cuDeviceGetProperties")
  {
    PrecedesAt("cuDeviceGetPCIBusId", "cuDeviceGetProperties", 12);
  }

  lemma FunctionKey093BeforeKey094()
    ensures Precedes("cuDeviceGetProperties", "cuDeviceGetTexture1DLinearMaxWidth")
  {
    PrecedesAt("cuDeviceGetProperties", "cuDeviceGetTexture1DLinearMaxWidth", 11);
  }

  lemma FunctionKey094BeforeKey095()
    ensures Precedes("cuDeviceGetTexture1DLinearMaxWidth", "cuDeviceGetUuid")
  {
    PrecedesAt("cuDeviceGetTexture1DLinearMaxWidth", "cuDeviceGetUuid", 11);
  }

  lemma FunctionKey095BeforeKey096()
    ensures Precedes("cuDeviceGetUuid", "cuDeviceGetUuid_v2")
  {
    PrecedesAt("cuDeviceGetUuid", "cuDeviceGetUuid_v2", 15);
  }

  lemma FunctionKey096BeforeKey097()
    ensures Precedes("cuDeviceGetUuid_v2", "cuDeviceGraphMemTrim")
  {
    PrecedesAt("cuDeviceGetUuid_v2", "cuDeviceGraphMemTrim", 9);
  }

  lemma FunctionKey097BeforeKey098()
    ensures Precedes("cuDeviceGraphMemTrim", "cuDevicePrimaryCtxGetState")
  {
    PrecedesAt("cuDeviceGraphMemTrim", "cuDevicePrimaryCtxGetState", 8);
  }

  lemma FunctionKey098BeforeKey099()
    ensures Precedes("cuDevicePrimaryCtxGetState", "cuDevicePrimaryCtxRelease")
  {
    PrecedesAt("cuDevicePrimaryCtxGetState", "cuDevicePrimaryCtxRelease", 18);
  }

  lemma FunctionKey099BeforeKey100()
    ensures Precedes("cuDevicePrimaryCtxRelease", "cuDevicePrimaryCtxRelease_v2")
  {
    PrecedesAt("cuDevicePrimaryCtxRelease", "cuDevicePrimaryCtxRelease_v2", 25);
  }

  lemma FunctionKey100BeforeKey101()
    ensures Precedes("cuDevicePrimaryCtxRelease_v2", "cuDevicePrimaryCtxReset")
  {
    PrecedesAt("cuDevicePrimaryCtxRelease_v2", "cuDevicePrimaryCtxReset", 20);
  }

  lemma FunctionKey101BeforeKey102()
    ensures Precedes("cuDevicePrimaryCtxReset", "cuDevicePrimaryCtxReset_v2")
  {
    PrecedesAt("cuDevicePrimaryCtxReset", "cuDevicePrimaryCtxReset_v2", 23);
  }

  lemma FunctionKey102BeforeKey103()
    ensures Precedes("cuDevicePrimaryCtxReset_v2", "cuDevicePrimaryCtxRetain")
  {
    PrecedesAt("cuDevicePrimaryCtxReset_v2", "cuDevicePrimaryCtxRetain", 20);
  }

  lemma FunctionKey103BeforeKey104()
    ensures Precedes("cuDevicePrimaryCtxRetain", "cuDevicePrimaryCtxSetFlags")
  {
    PrecedesAt("cuDevicePrimaryCtxRetain", "cuDevicePrimaryCtxSetFlags", 18);
  }

  lemma FunctionKey104BeforeKey105()
    ensures Precedes("cuDevicePrimaryCtxSetFlags", "cuDevicePrimaryCtxSetFlags_v2")
  {
    PrecedesAt("cuDevicePrimaryCtxSetFlags", "cuDevicePrimaryCtxSetFlags_v2", 26);
  }

  lemma FunctionKey105BeforeKey106()
    ensures Precedes("cuDevicePrimaryCtxSetFlags_v2", "cuDeviceSetGraphMemAttribute")
  {
    PrecedesAt("cuDevicePrimaryCtxSetFlags_v2", "cuDeviceSetGraphMemAttribute", 8);
  }

  lemma FunctionKey106BeforeKey107()
    ensures Precedes("cuDeviceSetGraphMemAttribute", "cuDeviceSetMemPool")
  {
    PrecedesAt("cuDeviceSetGraphMemAttribute", "cuDeviceSetMemPool", 11);
  }

  lemma FunctionKey107BeforeKey108()
    ensures Precedes("cuDeviceSetMemPool", "cuDeviceTotalMem")
  {
    PrecedesAt("cuDeviceSetMemPool", "cuDeviceTotalMem", 8);
  }

  lemma FunctionKey108BeforeKey109()
    ensures Precedes("cuDeviceTotalMem", "cuDeviceTotalMem_v2")
  {
    PrecedesAt("cuDeviceTotalMem", "cuDeviceTotalMem_v2", 16);
  }

  lemma FunctionKey109BeforeKey110()
    ensures Precedes("cuDeviceTotalMem_v2", "cuDriverGetVersion")
  {
    PrecedesAt("cuDeviceTotalMem_v2", "cuDriverGetVersion", 3);
  }

  lemma FunctionKey110BeforeKey111()
    ensures Precedes("cuDriverGetVersion", "cuEGLStreamConsumerAcquireFrame")
  {
    PrecedesAt("cuDriverGetVersion", "cuEGLStreamConsumerAcquireFrame", 2);
  }

  lemma FunctionKey111BeforeKey112()
    ensures Precedes("cuEGLStreamConsumerAcquireFrame", "cuEGLStreamConsumerConnect")
  {
    PrecedesAt("cuEGLStreamConsumerAcquireFrame", "cuEGLStreamConsumerConnect", 19);
  }

  lemma FunctionKey112BeforeKey113()
    ensures Precedes("cuEGLStreamConsumerConnect", "cuEGLStreamConsumerConnectWithFlags")
  {
    PrecedesAt("cuEGLStreamConsumerConnect", "cuEGLStreamConsumerConnectWithFlags", 26);
  }

  lemma FunctionKey113BeforeKey114()
    ensures Precedes("cuEGLStreamConsumerConnectWithFlags", "cuEGLStreamConsumerDisconnect")
  {
    PrecedesAt("cuEGLStreamConsumerConnectWithFlags", "cuEGLStreamConsumerDisconnect", 19);
  }

  lemma FunctionKey114BeforeKey115()
    ensures Precedes("cuEGLStreamConsumerDisconnect", "cuEGLStreamConsumerReleaseFrame")
  {
    PrecedesAt("cuEGLStreamConsumerDisconnect", "cuEGLStreamConsumerReleaseFrame", 19);
  }

  lemma FunctionKey115BeforeKey116()
    ensures Precedes("cuEGLStreamConsumerReleaseFrame", "cuEGLStreamProducerConnect")
  {
    PrecedesAt("cuEGLStreamConsumerReleaseFrame", "cuEGLStreamProducerConnect", 11);
  }

  lemma FunctionKey116BeforeKey117()
    ensures Precedes("cuEGLStreamProducerConnect", "cuEGLStreamProducerDisconnect")
  {
    PrecedesAt("cuEGLStreamProducerConnect", "cuEGLStreamProducerDisconnect", 19);
  }

  lemma FunctionKey117BeforeKey118()
    ensures Precedes("cuEGLStreamProducerDisconnect", "cuEGLStreamProducerPresentFrame")
  {
    PrecedesAt("cuEGLStreamProducerDisconnect", "cuEGLStreamProducerPresentFrame", 19);
  }

  lemma FunctionKey118BeforeKey119()
    ensures Precedes("cuEGLStreamProducerPresentFrame", "cuEGLStreamProducerReturnFrame")
  {
    PrecedesAt("cuEGLStreamProducerPresentFrame", "cuEGLStreamProducerReturnFrame", 19);
  }

  lemma FunctionKey119BeforeKey120()
    ensures Precedes("cuEGLStreamProducerReturnFrame", "cuEventCreate")
  {
    PrecedesAt("cuEGLStreamProducerReturnFrame", "cuEventCreate", 3);
  }

  lemma FunctionKey120BeforeKey121()
    ensures Precedes("cuEventCreate", "cuEventCreateFromEGLSync")
  {
    PrecedesAt("cuEventCreate", "cuEventCreateFromEGLSync", 13);
  }

  lemma FunctionKey121BeforeKey122()
    ensures Precedes("cuEventCreateFromEGLSync", "cuEventDestroy")
  {
    PrecedesAt("cuEventCreateFromEGLSync", "cuEventDestroy", 7);
  }

  lemma FunctionKey122BeforeKey123()
    ensures Precedes("cuEventDestroy", "cuEventDestroy_v2")
  {
    PrecedesAt("cuEventDestroy", "cuEventDestroy_v2", 14);
  }

  lemma FunctionKey123BeforeKey124()
    ensures Precedes("cuEventDestroy_v2", "cuEventElapsedTime")
  {
    PrecedesAt("cuEventDestroy_v2", "cuEventElapsedTime", 7);
  }

  lemma FunctionKey124BeforeKey125()
    ensures Precedes("cuEventElapsedTime", "cuEventQuery")
  {
    PrecedesAt("cuEventElapsedTime", "cuEventQuery", 7);
  }

  lemma FunctionKey125BeforeKey126()
    ensures Precedes("cuEventQuery", "cuEventRecord")
  {
    PrecedesAt("cuEventQuery", "cuEventRecord", 7);
  }

  lemma FunctionKey126BeforeKey127()
    ensures Precedes("cuEventRecord", "cuEventRecordWithFlags")
  {
    PrecedesAt("cuEventRecord", "cuEventRecordWithFlags", 13);
  }

  lemma FunctionKey127BeforeKey128()
    ensures Precedes("cuEventRecordWithFlags", "cuEventSynchronize")
  {
    PrecedesAt("cuEventRecordWithFlags", "cuEventSynchronize", 7);
  }

  lemma FunctionKey128BeforeKey129()
    ensures Precedes("cuEventSynchronize", "cuExternalMemoryGetMappedBuffer")
  {
    PrecedesAt("cuEventSynchronize", "cuExternalMemoryGetMappedBuffer", 3);
  }

  lemma FunctionKey129BeforeKey130()
    ensures Precedes("cuExternalMemoryGetMappedBuffer", "cuExternalMemoryGetMappedMipmappedArray")
  {
    PrecedesAt("cuExternalMemoryGetMappedBuffer", "cuExternalMemoryGetMappedMipmappedArray", 25);
  }

  lemma FunctionKey130BeforeKey131()
    ensures Precedes("cuExternalMemoryGetMappedMipmappedArray", "cuFlushGPUDirectRDMAWrites")
  {
    PrecedesAt("cuExternalMemoryGetMappedMipmappedArray", "cuFlushGPUDirectRDMAWrites", 2);
  }

  lemma FunctionKey131BeforeKey132()
    ensures Precedes("cuFlushGPUDirectRDMAWrites", "cuFuncGetAttribute")
  {
    PrecedesAt("cuFlushGPUDirectRDMAWrites", "cuFuncGetAttribute", 3);
  }

  lemma FunctionKey132BeforeKey133()
    ensures Precedes("cuFuncGetAttribute", "cuFuncGetModule")
  {
    PrecedesAt("cuFuncGetAttribute", "cuFuncGetModule", 9);
  }

  lemma FunctionKey133BeforeKey134()
    ensures Precedes("cuFuncGetModule", "cuFuncSetAttribute")
  {
    PrecedesAt("cuFuncGetModule", "cuFuncSetAttribute", 6);
  }

  lemma FunctionKey134BeforeKey135()
    ensures Precedes("cuFuncSetAttribute", "cuFuncSetBlockShape")
  {
    PrecedesAt("cuFuncSetAttribute", "cuFuncSetBlockShape", 9);
  }

  lemma FunctionKey135BeforeKey136()
    ensures Precedes("cuFuncSetBlockShape", "cuFuncSetCacheConfig")
  {
    PrecedesAt("cuFuncSetBlockShape", "cuFuncSetCacheConfig", 9);
  }

  lemma FunctionKey136BeforeKey137()
    ensures Precedes("cuFuncSetCacheConfig", "cuFuncSetSharedMemConfig")
  {
    PrecedesAt("cuFuncSetCacheConfig", "cuFuncSetSharedMemConfig", 9);
  }

  lemma FunctionKey137BeforeKey138()
    ensures Precedes("cuFuncSetSharedMemConfig", "cuFuncSetSharedSize")
  {
    PrecedesAt("cuFuncSetSharedMemConfig", "cuFuncSetSharedSize", 15);
  }

  lemma FunctionKey138BeforeKey139()
    ensures Precedes("cuFuncSetSharedSize", "cuGLCtxCreate")
  {
    PrecedesAt("cuFuncSetSharedSize", "cuGLCtxCreate", 2);
  }

  lemma FunctionKey139BeforeKey140()
    ensures Precedes("cuGLCtxCreate", "cuGLGetDevices")
  {
    PrecedesAt("cuGLCtxCreate", "cuGLGetDevices", 4);
  }

  lemma FunctionKey140BeforeKey141()
    ensures Precedes("cuGLGetDevices", "cuGLInit")
  {
    PrecedesAt("cuGLGetDevices", "cuGLInit", 4);
  }

  lemma FunctionKey141BeforeKey142()
    ensures Precedes("cuGLInit", "cuGLMapBufferObject")
  {
    PrecedesAt("cuGLInit", "cuGLMapBufferObject", 4);
  }

  lemma FunctionKey142BeforeKey143()
    ensures Precedes("cuGLMapBufferObject", "cuGLMapBufferObjectAsync")
  {
    PrecedesAt("cuGLMapBufferObject", "cuGLMapBufferObjectAsync", 19);
  }

  lemma FunctionKey143BeforeKey144()
    ensures Precedes("cuGLMapBufferObjectAsync", "cuGLRegisterBufferObject")
  {
    PrecedesAt("cuGLMapBufferObjectAsync", "cuGLRegisterBufferObject", 4);
  }

  lemma FunctionKey144BeforeKey145()
    ensures Precedes("cuGLRegisterBufferObject", "cuGLSetBufferObjectMapFlags")
  {
    PrecedesAt("cuGLRegisterBufferObject", "cuGLSetBufferObjectMapFlags", 4);
  }

  lemma FunctionKey145BeforeKey146()
    ensures Precedes("cuGLSetBufferObjectMapFlags", "cuGLUnmapBufferObject")
  {
    PrecedesAt("cuGLSetBufferObjectMapFlags", "cuGLUnmapBufferObject", 4);
  }

  lemma FunctionKey146BeforeKey147()
    ensures Precedes("cuGLUnmapBufferObject", "cuGLUnmapBufferObjectAsync")
  {
    PrecedesAt("cuGLUnmapBufferObject", "cuGLUnmapBufferObjectAsync", 21);
  }

  lemma FunctionKey147BeforeKey148()
    ensures Precedes("cuGLUnmapBufferObjectAsync", "cuGLUnregisterBufferObject")
  {
    PrecedesAt("cuGLUnmapBufferObjectAsync", "cuGLUnregisterBufferObject", 6);
  }

  lemma FunctionKey148BeforeKey149()
    ensures Precedes("cuGLUnregisterBufferObject", "cuGetErrorName")
  {
    PrecedesAt("cuGLUnregisterBufferObject", "cuGetErrorName", 3);
  }

  lemma FunctionKey149BeforeKey150()
    ensures Precedes("cuGetErrorName", "cuGetErrorString")
  {
    PrecedesAt("cuGetErrorName", "cuGetErrorString", 10);
  }

  lemma FunctionKey150BeforeKey151()
    ensures Precedes("cuGetErrorString", "cuGetProcAddress")
  {
    PrecedesAt("cuGetErrorString", "cuGetProcAddress", 5);
  }

  lemma FunctionKey151BeforeKey152()
    ensures Precedes("cuGetProcAddress", "cuGraphAddBatchMemOpNode")
  {
    PrecedesAt("cuGetProcAddress", "cuGraphAddBatchMemOpNode", 3);
  }

  lemma FunctionKey152BeforeKey153()
    ensures Precedes("cuGraphAddBatchMemOpNode", "cuGraphAddChildGraphNode")
  {
    PrecedesAt("cuGraphAddBatchMemOpNode", "cuGraphAddChildGraphNode", 10);
  }

  lemma FunctionKey153BeforeKey154()
    ensures Precedes("cuGraphAddChildGraphNode", "cuGraphAddDependencies")
  {
    PrecedesAt("cuGraphAddChildGraphNode", "cuGraphAddDependencies", 10);
  }

  lemma FunctionKey154BeforeKey155()
    ensures Precedes("cuGraphAddDependencies", "cuGraphAddEmptyNode")
  {
    PrecedesAt("cuGraphAddDependencies", "cuGraphAddEmptyNode", 10);
  }

  lemma FunctionKey155BeforeKey156()
    ensures Precedes("cuGraphAddEmptyNode", "cuGraphAddEventRecordNode")
  {
    PrecedesAt("cuGraphAddEmptyNode", "cuGraphAddEventRecordNode", 11);
  }

  lemma FunctionKey156BeforeKey157()
    ensures Precedes("cuGraphAddEventRecordNode", "cuGraphAddEventWaitNode")
  {
    PrecedesAt("cuGraphAddEventRecordNode", "cuGraphAddEventWaitNode", 15);
  }

  lemma FunctionKey157BeforeKey158()
    ensures Precedes("cuGraphAddEventWaitNode", "cuGraphAddExternalSemaphoresSignalNode")
  {
    PrecedesAt("cuGraphAddEventWaitNode", "cuGraphAddExternalSemaphoresSignalNode", 11);
  }

  lemma FunctionKey158BeforeKey159()
    ensures Precedes("cuGraphAddExternalSemaphoresSignalNode", "cuGraphAddExternalSemaphoresWaitNode")
  {
    PrecedesAt("cuGraphAddExternalSemaphoresSignalNode", "cuGraphAddExternalSemaphoresWaitNode", 28);
  }

  lemma FunctionKey159BeforeKey160()
    ensures Precedes("cuGraphAddExternalSemaphoresWaitNode", "cuGraphAddHostNode")
  {
    PrecedesAt("cuGraphAddExternalSemaphoresWaitNode", "cuGraphAddHostNode", 10);
  }

  lemma FunctionKey160BeforeKey161()
    ensures Precedes("cuGraphAddHostNode", "cuGraphAddKernelNode")
  {
    PrecedesAt("cuGraphAddHostNode", "cuGraphAddKernelNode", 10);
  }

  lemma FunctionKey161BeforeKey162()
    ensures Precedes("cuGraphAddKernelNode", "cuGraphAddMemAllocNode")
  {
    PrecedesAt("cuGraphAddKernelNode", "cuGraphAddMemAllocNode", 10);
  }

  lemma FunctionKey162BeforeKey163()
    ensures Precedes("cuGraphAddMemAllocNode", "cuGraphAddMemFreeNode")
  {
    PrecedesAt("cuGraphAddMemAllocNode", "cuGraphAddMemFreeNode", 13);
  }

  lemma FunctionKey163BeforeKey164()
    ensures Precedes("cuGraphAddMemFreeNode", "cuGraphAddMemcpyNode")
  {
    PrecedesAt("cuGraphAddMemFreeNode", "cuGraphAddMemcpyNode", 13);
  }

  lemma FunctionKey164BeforeKey165()
    ensures Precedes("cuGraphAddMemcpyNode", "cuGraphAddMemsetNode")
  {
    PrecedesAt("cuGraphAddMemcpyNode", "cuGraphAddMemsetNode", 13);
  }

  lemma FunctionKey165BeforeKey166()
    ensures Precedes("cuGraphAddMemsetNode", "cuGraphBatchMemOpNodeGetParams")
  {
    PrecedesAt("cuGraphAddMemsetNode", "cuGraphBatchMemOpNodeGetParams", 7);
  }

  lemma FunctionKey166BeforeKey167()
    ensures Precedes("cuGraphBatchMemOpNodeGetParams", "cuGraphBatchMemOpNodeSetParams")
  {
    PrecedesAt("cuGraphBatchMemOpNodeGetParams", "cuGraphBatchMemOpNodeSetParams", 21);
  }

  lemma FunctionKey167BeforeKey168()
    ensures Precedes("cuGraphBatchMemOpNodeSetParams", "cuGraphChildGraphNodeGetGraph")
  {
    PrecedesAt("cuGraphBatchMemOpNodeSetParams", "cuGraphChildGraphNodeGetGraph", 7);
  }

  lemma FunctionKey168BeforeKey169()
    ensures Precedes("cuGraphChildGraphNodeGetGraph", "cuGraphClone")
  {
    PrecedesAt("cuGraphChildGraphNodeGetGraph", "cuGraphClone", 8);
  }

  lemma FunctionKey169BeforeKey170()
    ensures Precedes("cuGraphClone", "cuGraphCreate")
  {
    PrecedesAt("cuGraphClone", "cuGraphCreate", 8);
  }

  lemma FunctionKey170BeforeKey171()
    ensures Precedes("cuGraphCreate", "cuGraphDebugDotPrint")
  {
    PrecedesAt("cuGraphCreate", "cuGraphDebugDotPrint", 7);
  }

  lemma FunctionKey171BeforeKey172()
    ensures Precedes("cuGraphDebugDotPrint", "cuGraphDestroy")
  {
    PrecedesAt("cuGraphDebugDotPrint", "cuGraphDestroy", 9);
  }

  lemma FunctionKey172BeforeKey173()
    ensures Precedes("cuGraphDestroy", "cuGraphDestroyNode")
  {
    PrecedesAt("cuGraphDestroy", "cuGraphDestroyNode", 14);
  }

  lemma FunctionKey173BeforeKey174()
    ensures Precedes("cuGraphDestroyNode", "cuGraphEventRecordNodeGetEvent")
  {
    PrecedesAt("cuGraphDestroyNode", "cuGraphEventRecordNodeGetEvent", 7);
  }

  lemma FunctionKey174BeforeKey175()
    ensures Precedes("cuGraphEventRecordNodeGetEvent", "cuGraphEventRecordNodeSetEvent")
  {
    PrecedesAt("cuGraphEventRecordNodeGetEvent", "cuGraphEventRecordNodeSetEvent", 22);
  }

  lemma FunctionKey175BeforeKey176()
    ensures Precedes("cuGraphEventRecordNodeSetEvent", "cuGraphEventWaitNodeGetEvent")
  {
    PrecedesAt("cuGraphEventRecordNodeSetEvent", "cuGraphEventWaitNodeGetEvent", 12);
  }

  lemma FunctionKey176BeforeKey177()
    ensures Precedes("cuGraphEventWaitNodeGetEvent", "cuGraphEventWaitNodeSetEvent")
  {
    PrecedesAt("cuGraphEventWaitNodeGetEvent", "cuGraphEventWaitNodeSetEvent", 20);
  }

  lemma FunctionKey177BeforeKey178()
    ensures Precedes("cuGraphEventWaitNodeSetEvent", "cuGraphExecBatchMemOpNodeSetParams")
  {
    PrecedesAt("cuGraphEventWaitNodeSetEvent", "cuGraphExecBatchMemOpNodeSetParams", 8);
  }

  lemma FunctionKey178BeforeKey179()
    ensures Precedes("cuGraphExecBatchMemOpNodeSetParams", "cuGraphExecChildGraphNodeSetParams")
  {
    PrecedesAt("cuGraphExecBatchMemOpNodeSetParams", "cuGraphExecChildGraphNodeSetParams", 11);
  }

  lemma FunctionKey179BeforeKey180()
    ensures Precedes("cuGraphExecChildGraphNodeSetParams", "cuGraphExecDestroy")
  {
    PrecedesAt("cuGraphExecChildGraphNodeSetParams", "cuGraphExecDestroy", 11);
  }

  lemma FunctionKey180BeforeKey181()
    ensures Precedes("cuGraphExecDestroy", "cuGraphExecEventRecordNodeSetEvent")
  {
    PrecedesAt("cuGraphExecDestroy", "cuGraphExecEventRecordNodeSetEvent", 11);
  }

  lemma FunctionKey181BeforeKey182()
    ensures Precedes("cuGraphExecEventRecordNodeSetEvent", "cuGraphExecEventWaitNodeSetEvent")
  {
    PrecedesAt("cuGraphExecEventRecordNodeSetEvent", "cuGraphExecEventWaitNodeSetEvent", 16);
  }

  lemma FunctionKey182BeforeKey183()
    ensures Precedes("cuGraphExecEventWaitNodeSetEvent", "cuGraphExecExternalSemaphoresSignalNodeSetParams")
  {
    PrecedesAt("cuGraphExecEventWaitNodeSetEvent", "cuGraphExecExternalSemaphoresSignalNodeSetParams", 12);
  }

  lemma FunctionKey183BeforeKey184()
    ensures Precedes("cuGraphExecExternalSemaphoresSignalNodeSetParams", "cuGraphExecExternalSemaphoresWaitNodeSetParams")
  {
    PrecedesAt("cuGraphExecExternalSemaphoresSignalNodeSetParams", "cuGraphExecExternalSemaphoresWaitNodeSetParams", 29);
  }

  lemma FunctionKey184BeforeKey185()
    ensures Precedes("cuGraphExecExternalSemaphoresWaitNodeSetParams", "cuGraphExecGetFlags")
  {
    PrecedesAt("cuGraphExecExternalSemaphoresWaitNodeSetParams", "cuGraphExecGetFlags", 11);
  }

  lemma FunctionKey185BeforeKey186()
    ensures Precedes("cuGraphExecGetFlags", "cuGraphExecHostNodeSetParams")
  {
    PrecedesAt("cuGraphExecGetFlags", "cuGraphExecHostNodeSetParams", 11);
  }

  lemma FunctionKey186BeforeKey187()
    ensures Precedes("cuGraphExecHostNodeSetParams", "cuGraphExecKernelNodeSetParams")
  {
    PrecedesAt("cuGraphExecHostNodeSetParams", "cuGraphExecKernelNodeSetParams", 11);
  }

  lemma FunctionKey187BeforeKey188()
    ensures Precedes("cuGraphExecKernelNodeSetParams", "cuGraphExecMemcpyNodeSetParams")
  {
    PrecedesAt("cuGraphExecKernelNodeSetParams", "cuGraphExecMemcpyNodeSetParams", 11);
  }

  lemma FunctionKey188BeforeKey189()
    ensures Precedes("cuGraphExecMemcpyNodeSetParams", "cuGraphExecMemsetNodeSetParams")
  {
    PrecedesAt("cuGraphExecMemcpyNodeSetParams", "cuGraphExecMemsetNodeSetParams", 14);
  }

  lemma FunctionKey189BeforeKey190()
    ensures Precedes("cuGraphExecMemsetNodeSetParams", "cuGraphExecUpdate")
  {
    PrecedesAt("cuGraphExecMemsetNodeSetParams", "cuGraphExecUpdate", 11);
  }

  lemma FunctionKey190BeforeKey191()
    ensures Precedes("cuGraphExecUpdate", "cuGraphExternalSemaphoresSignalNodeGetParams")
  {
    PrecedesAt("cuGraphExecUpdate", "cuGraphExternalSemaphoresSignalNodeGetParams", 9);
  }

  lemma FunctionKey191BeforeKey192()
    ensures Precedes("cuGraphExternalSemaphoresSignalNodeGetParams", "cuGraphExternalSemaphoresSignalNodeSetParams")
  {
    PrecedesAt("cuGraphExternalSemaphoresSignalNodeGetParams", "cuGraphExternalSemaphoresSignalNodeSetParams", 35);
  }

  lemma FunctionKey192BeforeKey193()
    ensures Precedes("cuGraphExternalSemaphoresSignalNodeSetParams", "cuGraphExternalSemaphoresWaitNodeGetParams")
  {
    PrecedesAt("cuGraphExternalSemaphoresSignalNodeSetParams", "cuGraphExternalSemaphoresWaitNodeGetParams", 25);
  }

  lemma FunctionKey193BeforeKey194()
    ensures Precedes("cuGraphExternalSemaphoresWaitNodeGetParams", "cuGraphExternalSemaphoresWaitNodeSetParams")
  {
    PrecedesAt("cuGraphExternalSemaphoresWaitNodeGetParams", "cuGraphExternalSemaphoresWaitNodeSetParams", 33);
  }

  lemma FunctionKey194BeforeKey195()
    ensures Precedes("cuGraphExternalSemaphoresWaitNodeSetParams", "cuGraphGetEdges")
  {
    PrecedesAt("cuGraphExternalSemaphoresWaitNodeSetParams", "cuGraphGetEdges", 7);
  }

  lemma FunctionKey195BeforeKey196()
    ensures Precedes("cuGraphGetEdges", "cuGraphGetNodes")
  {
    PrecedesAt("cuGraphGetEdges", "cuGraphGetNodes", 10);
  }

  lemma FunctionKey196BeforeKey197()
    ensures Precedes("cuGraphGetNodes", "cuGraphGetRootNodes")
  {
    PrecedesAt("cuGraphGetNodes", "cuGraphGetRootNodes", 10);
  }

  lemma FunctionKey197BeforeKey198()
    ensures Precedes("cuGraphGetRootNodes", "cuGraphHostNodeGetParams")
  {
    PrecedesAt("cuGraphGetRootNodes", "cuGraphHostNodeGetParams", 7);
  }

  lemma FunctionKey198BeforeKey199()
    ensures Precedes("cuGraphHostNodeGetParams", "cuGraphHostNodeSetParams")
  {
    PrecedesAt("cuGraphHostNodeGetParams", "cuGraphHostNodeSetParams", 15);
  }

  lemma FunctionKey199BeforeKey200()
    ensures Precedes("cuGraphHostNodeSetParams", "cuGraphInstantiate")
  {
    PrecedesAt("cuGraphHostNodeSetParams", "cuGraphInstantiate", 7);
  }

  lemma FunctionKey200BeforeKey201()
    ensures Precedes("cuGraphInstantiate", "cuGraphInstantiateWithFlags")
  {
    PrecedesAt("cuGraphInstantiate", "cuGraphInstantiateWithFlags", 18);
  }

  lemma FunctionKey201BeforeKey202()
    ensures Precedes("cuGraphInstantiateWithFlags", "cuGraphInstantiateWithParams")
  {
    PrecedesAt("cuGraphInstantiateWithFlags", "cuGraphInstantiateWithParams", 22);
  }

  lemma FunctionKey202BeforeKey203()
    ensures Precedes("cuGraphInstantiateWithParams", "cuGraphInstantiate_v2")
  {
    PrecedesAt("cuGraphInstantiateWithParams", "cuGraphInstantiate_v2", 18);
  }

  lemma FunctionKey203BeforeKey204()
    ensures Precedes("cuGraphInstantiate_v2", "cuGraphKernelNodeCopyAttributes")
  {
    PrecedesAt("cuGraphInstantiate_v2", "cuGraphKernelNodeCopyAttributes", 7);
  }

  lemma FunctionKey204BeforeKey205()
    ensures Precedes("cuGraphKernelNodeCopyAttributes", "cuGraphKernelNodeGetAttribute")
  {
    PrecedesAt("cuGraphKernelNodeCopyAttributes", "cuGraphKernelNodeGetAttribute", 17);
  }

  lemma FunctionKey205BeforeKey206()
    ensures Precedes("cuGraphKernelNodeGetAttribute", "cuGraphKernelNodeGetParams")
  {
    PrecedesAt("cuGraphKernelNodeGetAttribute", "cuGraphKernelNodeGetParams", 20);
  }

  lemma FunctionKey206BeforeKey207()
    ensures Precedes("cuGraphKernelNodeGetParams", "cuGraphKernelNodeSetAttribute")
  {
    PrecedesAt("cuGraphKernelNodeGetParams", "cuGraphKernelNodeSetAttribute", 17);
  }

  lemma FunctionKey207BeforeKey208()
    ensures Precedes("cuGraphKernelNodeSetAttribute", "cuGraphKernelNodeSetParams")
  {
    PrecedesAt("cuGraphKernelNodeSetAttribute", "cuGraphKernelNodeSetParams", 20);
  }

  lemma FunctionKey208BeforeKey209()
    ensures Precedes("cuGraphKernelNodeSetParams", "cuGraphLaunch")
  {
    PrecedesAt("cuGraphKernelNodeSetParams", "cuGraphLaunch", 7);
  }

  lemma FunctionKey209BeforeKey210()
    ensures Precedes("cuGraphLaunch", "cuGraphMemAllocNodeGetParams")
  {
    PrecedesAt("cuGraphLaunch", "cuGraphMemAllocNodeGetParams", 7);
  }

  lemma FunctionKey210BeforeKey211()
    ensures Precedes("cuGraphMemAllocNodeGetParams", "cuGraphMemFreeNodeGetParams")
  {
    PrecedesAt("cuGraphMemAllocNodeGetParams", "cuGraphMemFreeNodeGetParams", 10);
  }

  lemma FunctionKey211BeforeKey212()
    ensures Precedes("cuGraphMemFreeNodeGetParams", "cuGraphMemcpyNodeGetParams")
  {
    PrecedesAt("cuGraphMemFreeNodeGetParams", "cuGraphMemcpyNodeGetParams", 10);
  }

  lemma FunctionKey212BeforeKey213()
    ensures Precedes("cuGraphMemcpyNodeGetParams", "cuGraphMemcpyNodeSetParams")
  {
    PrecedesAt("cuGraphMemcpyNodeGetParams", "cuGraphMemcpyNodeSetParams", 17);
  }

  lemma FunctionKey213BeforeKey214()
    ensures Precedes("cuGraphMemcpyNodeSetParams", "cuGraphMemsetNodeGetParams")
  {
    PrecedesAt("cuGraphMemcpyNodeSetParams", "cuGraphMemsetNodeGetParams", 10);
  }

  lemma FunctionKey214BeforeKey215()
    ensures Precedes("cuGraphMemsetNodeGetParams", "cuGraphMemsetNodeSetParams")
  {
    PrecedesAt("cuGraphMemsetNodeGetParams", "cuGraphMemsetNodeSetParams", 17);
  }

  lemma FunctionKey215BeforeKey216()
    ensures Precedes("cuGraphMemsetNodeSetParams", "cuGraphNodeFindInClone")
  {
    PrecedesAt("cuGraphMemsetNodeSetParams", "cuGraphNodeFindInClone", 7);
  }

  lemma FunctionKey216BeforeKey217()
    ensures Precedes("cuGraphNodeFindInClone", "cuGraphNodeGetDependencies")
  {
    PrecedesAt("cuGraphNodeFindInClone", "cuGraphNodeGetDependencies", 11);
  }

  lemma FunctionKey217BeforeKey218()
    ensures Precedes("cuGraphNodeGetDependencies", "cuGraphNodeGetDependentNodes")
  {
    PrecedesAt("cuGraphNodeGetDependencies", "cuGraphNodeGetDependentNodes", 22);
  }

  lemma FunctionKey218BeforeKey219()
    ensures Precedes("cuGraphNodeGetDependentNodes", "cuGraphNodeGetEnabled")
  {
    PrecedesAt("cuGraphNodeGetDependentNodes", "cuGraphNodeGetEnabled", 14);
  }

  lemma FunctionKey219BeforeKey220()
    ensures Precedes("cuGraphNodeGetEnabled", "cuGraphNodeGetType")
  {
    PrecedesAt("cuGraphNodeGetEnabled", "cuGraphNodeGetType", 14);
  }

  lemma FunctionKey220BeforeKey221()
    ensures Precedes("cuGraphNodeGetType", "cuGraphNodeSetEnabled")
  {
    PrecedesAt("cuGraphNodeGetType", "cuGraphNodeSetEnabled", 11);
  }

  lemma FunctionKey221BeforeKey222()
    ensures Precedes("cuGraphNodeSetEnabled", "cuGraphReleaseUserObject")
  {
    PrecedesAt("cuGraphNodeSetEnabled", "cuGraphReleaseUserObject", 7);
  }

  lemma FunctionKey222BeforeKey223()
    ensures Precedes("cuGraphReleaseUserObject", "cuGraphRemoveDependencies")
  {
    PrecedesAt("cuGraphReleaseUserObject", "cuGraphRemoveDependencies", 9);
  }

  lemma FunctionKey223BeforeKey224()
    ensures Precedes("cuGraphRemoveDependencies", "cuGraphRetainUserObject")
  {
    PrecedesAt("cuGraphRemoveDependencies", "cuGraphRetainUserObject", 9);
  }

  lemma FunctionKey224BeforeKey225()
    ensures Precedes("cuGraphRetainUserObject", "cuGraphUpload")
  {
    PrecedesAt("cuGraphRetainUserObject", "cuGraphUpload", 7);
  }

  lemma FunctionKey225BeforeKey226()
    ensures Precedes("cuGraphUpload", "cuGraphicsD3D10RegisterResource")
  {
    PrecedesAt("cuGraphUpload", "cuGraphicsD3D10RegisterResource", 7);
  }

  lemma FunctionKey226BeforeKey227()
    ensures Precedes("cuGraphicsD3D10RegisterResource", "cuGraphicsD3D11RegisterResource")
  {
    PrecedesAt("cuGraphicsD3D10RegisterResource", "cuGraphicsD3D11RegisterResource", 14);
  }

  lemma FunctionKey227BeforeKey228()
    ensures Precedes("cuGraphicsD3D11RegisterResource", "cuGraphicsD3D9RegisterResource")
  {
    PrecedesAt("cuGraphicsD3D11RegisterResource", "cuGraphicsD3D9RegisterResource", 13);
  }

  lemma FunctionKey228BeforeKey229()
    ensures Precedes("cuGraphicsD3D9RegisterResource", "cuGraphicsEGLRegisterImage")
  {
    PrecedesAt("cuGraphicsD3D9RegisterResource", "cuGraphicsEGLRegisterImage", 10);
  }

  lemma FunctionKey229BeforeKey230()
    ensures Precedes("cuGraphicsEGLRegisterImage", "cuGraphicsGLRegisterBuffer")
  {
    PrecedesAt("cuGraphicsEGLRegisterImage", "cuGraphicsGLRegisterBuffer", 10);
  }

  lemma FunctionKey230BeforeKey231()
    ensures Precedes("cuGraphicsGLRegisterBuffer", "cuGraphicsGLRegisterImage")
  {
    PrecedesAt("cuGraphicsGLRegisterBuffer", "cuGraphicsGLRegisterImage", 20);
  }

  lemma FunctionKey231BeforeKey232()
    ensures Precedes("cuGraphicsGLRegisterImage", "cuGraphicsMapResources")
  {
    PrecedesAt("cuGraphicsGLRegisterImage", "cuGraphicsMapResources", 10);
  }

  lemma FunctionKey232BeforeKey233()
    ensures Precedes("cuGraphicsMapResources", "cuGraphicsResourceGetMappedEglFrame")
  {
    PrecedesAt("cuGraphicsMapResources", "cuGraphicsResourceGetMappedEglFrame", 10);
  }

  lemma FunctionKey233BeforeKey234()
    ensures Precedes("cuGraphicsResourceGetMappedEglFrame", "cuGraphicsResourceGetMappedMipmappedArray")
  {
    PrecedesAt("cuGraphicsResourceGetMappedEglFrame", "cuGraphicsResourceGetMappedMipmappedArray", 27);
  }

  lemma FunctionKey234BeforeKey235()
    ensures Precedes("cuGraphicsResourceGetMappedMipmappedArray", "cuGraphicsResourceGetMappedPointer")
  {
    PrecedesAt("cuGraphicsResourceGetMappedMipmappedArray", "cuGraphicsResourceGetMappedPointer", 27);
  }

  lemma FunctionKey235BeforeKey236()
    ensures Precedes("cuGraphicsResourceGetMappedPointer", "cuGraphicsResourceGetMappedPointer_v2")
  {
    PrecedesAt("cuGraphicsResourceGetMappedPointer", "cuGraphicsResourceGetMappedPointer_v2", 34);
  }

  lemma FunctionKey236BeforeKey237()
    ensures Precedes("cuGraphicsResourceGetMappedPointer_v2", "cuGraphicsResourceSetMapFlags")
  {
    PrecedesAt("cuGraphicsResourceGetMappedPointer_v2", "cuGraphicsResourceSetMapFlags", 18);
  }

  lemma FunctionKey237BeforeKey238()
    ensures Precedes("cuGraphicsResourceSetMapFlags", "cuGraphicsResourceSetMapFlags_v2")
  {
    PrecedesAt("cuGraphicsResourceSetMapFlags", "cuGraphicsResourceSetMapFlags_v2", 29);
  }

  lemma FunctionKey238BeforeKey239()
    ensures Precedes("cuGraphicsResourceSetMapFlags_v2", "cuGraphicsSubResourceGetMappedArray")
  {
    PrecedesAt("cuGraphicsResourceSetMapFlags_v2", "cuGraphicsSubResourceGetMappedArray", 10);
  }

  lemma FunctionKey239BeforeKey240()
    ensures Precedes("cuGraphicsSubResourceGetMappedArray", "cuGraphicsUnmapResources")
  {
    PrecedesAt("cuGraphicsSubResourceGetMappedArray", "cuGraphicsUnmapResources", 10);
  }

  lemma FunctionKey240BeforeKey241()
    ensures Precedes("cuGraphicsUnmapResources", "cuGraphicsUnregisterResource")
  {
    PrecedesAt("cuGraphicsUnmapResources", "cuGraphicsUnregisterResource", 12);
  }

  lemma FunctionKey241BeforeKey242()
    ensures Precedes("cuGraphicsUnregisterResource", "cuGraphicsVDPAURegisterOutputSurface")
  {
    PrecedesAt("cuGraphicsUnregisterResource", "cuGraphicsVDPAURegisterOutputSurface", 10);
  }

  lemma FunctionKey242BeforeKey243()
    ensures Precedes("cuGraphicsVDPAURegisterOutputSurface", "cuGraphicsVDPAURegisterVideoSurface")
  {
    PrecedesAt("cuGraphicsVDPAURegisterOutputSurface", "cuGraphicsVDPAURegisterVideoSurface", 23);
  }

  lemma FunctionKey243BeforeKey244()
    ensures Precedes("cuGraphicsVDPAURegisterVideoSurface", "cuImportExternalMemory")
  {
    PrecedesAt("cuGraphicsVDPAURegisterVideoSurface", "cuImportExternalMemory", 2);
  }

  lemma FunctionKey244BeforeKey245()
    ensures Precedes("cuImportExternalMemory", "cuImportExternalSemaphore")
  {
    PrecedesAt("cuImportExternalMemory", "cuImportExternalSemaphore", 16);
  }

  lemma FunctionKey245BeforeKey246()
    ensures Precedes("cuImportExternalSemaphore", "cuInit")
  {
    PrecedesAt("cuImportExternalSemaphore", "cuInit", 3);
  }

  lemma FunctionKey246BeforeKey247()
    ensures Precedes("cuInit", "cuIpcCloseMemHandle")
  {
    PrecedesAt("cuInit", "cuIpcCloseMemHandle", 3);
  }

  lemma FunctionKey247BeforeKey248()
    ensures Precedes("cuIpcCloseMemHandle", "cuIpcGetEventHandle")
  {
    PrecedesAt("cuIpcCloseMemHandle", "cuIpcGetEventHandle", 5);
  }

  lemma FunctionKey248BeforeKey249()
    ensures Precedes("cuIpcGetEventHandle", "cuIpcGetMemHandle")
  {
    PrecedesAt("cuIpcGetEventHandle", "cuIpcGetMemHandle", 8);
  }

  lemma FunctionKey249BeforeKey250()
    ensures Precedes("cuIpcGetMemHandle", "cuIpcOpenEventHandle")
  {
    PrecedesAt("cuIpcGetMemHandle", "cuIpcOpenEventHandle", 5);
  }

  lemma FunctionKey250BeforeKey251()
    ensures Precedes("cuIpcOpenEventHandle", "cuIpcOpenMemHandle")
  {
    PrecedesAt("cuIpcOpenEventHandle", "cuIpcOpenMemHandle", 9);
  }

  lemma FunctionKey251BeforeKey252()
    ensures Precedes("cuIpcOpenMemHandle", "cuKernelGetAttribute")
  {
    PrecedesAt("cuIpcOpenMemHandle", "cuKernelGetAttribute", 2);
  }

  lemma FunctionKey252BeforeKey253()
    ensures Precedes("cuKernelGetAttribute", "cuKernelGetFunction")
  {
    PrecedesAt("cuKernelGetAttribute", "cuKernelGetFunction", 11);
  }

  lemma FunctionKey253BeforeKey254()
    ensures Precedes("cuKernelGetFunction", "cuKernelSetAttribute")
  {
    PrecedesAt("cuKernelGetFunction", "cuKernelSetAttribute", 8);
  }

  lemma FunctionKey254BeforeKey255()
    ensures Precedes("cuKernelSetAttribute", "cuKernelSetCacheConfig")
  {
    PrecedesAt("cuKernelSetAttribute", "cuKernelSetCacheConfig", 11);
  }

  lemma FunctionKey255BeforeKey256()
    ensures Precedes("cuKernelSetCacheConfig", "cuLaunch")
  {
    PrecedesAt("cuKernelSetCacheConfig", "cuLaunch", 2);
  }

  lemma FunctionKey256BeforeKey257()
    ensures Precedes("cuLaunch", "cuLaunchCooperativeKernel")
  {
    PrecedesAt("cuLaunch", "cuLaunchCooperativeKernel", 8);
  }

  lemma FunctionKey257BeforeKey258()
    ensures Precedes("cuLaunchCooperativeKernel", "cuLaunchCooperativeKernelMultiDevice")
  {
    PrecedesAt("cuLaunchCooperativeKernel", "cuLaunchCooperativeKernelMultiDevice", 25);
  }

  lemma FunctionKey258BeforeKey259()
    ensures Precedes("cuLaunchCooperativeKernelMultiDevice", "cuLaunchGrid")
  {
    PrecedesAt("cuLaunchCooperativeKernelMultiDevice", "cuLaunchGrid", 8);
  }

  lemma FunctionKey259BeforeKey260()
    ensures Precedes("cuLaunchGrid", "cuLaunchGridAsync")
  {
    PrecedesAt("cuLaunchGrid", "cuLaunchGridAsync", 12);
  }

  lemma FunctionKey260BeforeKey261()
    ensures Precedes("cuLaunchGridAsync", "cuLaunchHostFunc")
  {
    PrecedesAt("cuLaunchGridAsync", "cuLaunchHostFunc", 8);
  }

  lemma FunctionKey261BeforeKey262()
    ensures Precedes("cuLaunchHostFunc", "cuLaunchKernel")
  {
    PrecedesAt("cuLaunchHostFunc", "cuLaunchKernel", 8);
  }

  lemma FunctionKey262BeforeKey263()
    ensures Precedes("cuLaunchKernel", "cuLaunchKernelEx")
  {
    PrecedesAt("cuLaunchKernel", "cuLaunchKernelEx", 14);
  }

  lemma FunctionKey263BeforeKey264()
    ensures Precedes("cuLaunchKernelEx", "cuLibraryGetGlobal")
  {
    PrecedesAt("cuLaunchKernelEx", "cuLibraryGetGlobal", 3);
  }

  lemma FunctionKey264BeforeKey265()
    ensures Precedes("cuLibraryGetGlobal", "cuLibraryGetKernel")
  {
    PrecedesAt("cuLibraryGetGlobal", "cuLibraryGetKernel", 12);
  }

  lemma FunctionKey265BeforeKey266()
    ensures Precedes("cuLibraryGetKernel", "cuLibraryGetManaged")
  {
    PrecedesAt("cuLibraryGetKernel", "cuLibraryGetManaged", 12);
  }

  lemma FunctionKey266BeforeKey267()
    ensures Precedes("cuLibraryGetManaged", "cuLibraryGetModule")
  {
    PrecedesAt("cuLibraryGetManaged", "cuLibraryGetModule", 13);
  }

  lemma FunctionKey267BeforeKey268()
    ensures Precedes("cuLibraryGetModule", "cuLibraryGetUnifiedFunction")
  {
    PrecedesAt("cuLibraryGetModule", "cuLibraryGetUnifiedFunction", 12);
  }

  lemma FunctionKey268BeforeKey269()
    ensures Precedes("cuLibraryGetUnifiedFunction", "cuLibraryLoadData")
  {
    PrecedesAt("cuLibraryGetUnifiedFunction", "cuLibraryLoadData", 9);
  }

  lemma FunctionKey269BeforeKey270()
    ensures Precedes("cuLibraryLoadData", "cuLibraryLoadFromFile")
  {
    PrecedesAt("cuLibraryLoadData", "cuLibraryLoadFromFile", 13);
  }

  lemma FunctionKey270BeforeKey271()
    ensures Precedes("cuLibraryLoadFromFile", "cuLibraryUnload")
  {
    PrecedesAt("cuLibraryLoadFromFile", "cuLibraryUnload", 9);
  }

  lemma FunctionKey271BeforeKey272()
    ensures Precedes("cuLibraryUnload", "cuLinkAddData")
  {
    PrecedesAt("cuLibraryUnload", "cuLinkAddData", 4);
  }

  lemma FunctionKey272BeforeKey273()
    ensures Precedes("cuLinkAddData", "cuLinkAddData_v2")
  {
    PrecedesAt("cuLinkAddData", "cuLinkAddData_v2", 13);
  }

  lemma FunctionKey273BeforeKey274()
    ensures Precedes("cuLinkAddData_v2", "cuLinkAddFile")
  {
    PrecedesAt("cuLinkAddData_v2", "cuLinkAddFile", 9);
  }

  lemma FunctionKey274BeforeKey275()
    ensures Precedes("cuLinkAddFile", "cuLinkAddFile_v2")
  {
    PrecedesAt("cuLinkAddFile", "cuLinkAddFile_v2", 13);
  }

  lemma FunctionKey275BeforeKey276()
    ensures Precedes("cuLinkAddFile_v2", "cuLinkComplete")
  {
    PrecedesAt("cuLinkAddFile_v2", "cuLinkComplete", 6);
  }

  lemma FunctionKey276BeforeKey277()
    ensures Precedes("cuLinkComplete", "cuLinkCreate")
  {
    PrecedesAt("cuLinkComplete", "cuLinkCreate", 7);
  }

  lemma FunctionKey277BeforeKey278()
    ensures Precedes("cuLinkCreate", "cuLinkCreate_v2")
  {
    PrecedesAt("cuLinkCreate", "cuLinkCreate_v2", 12);
  }

  lemma FunctionKey278BeforeKey279()
    ensures Precedes("cuLinkCreate_v2", "cuLinkDestroy")
  {
    PrecedesAt("cuLinkCreate_v2", "cuLinkDestroy", 6);
  }

  lemma FunctionKey279BeforeKey280()
    ensures Precedes("cuLinkDestroy", "cuMemAddressFree")
  {
    PrecedesAt("cuLinkDestroy", "cuMemAddressFree", 2);
  }

  lemma FunctionKey280BeforeKey281()
    ensures Precedes("cuMemAddressFree", "cuMemAddressReserve")
  {
    PrecedesAt("cuMemAddressFree", "cuMemAddressReserve", 12);
  }

  lemma FunctionKey281BeforeKey282()
    ensures Precedes("cuMemAddressReserve", "cuMemAdvise")
  {
    PrecedesAt("cuMemAddressReserve", "cuMemAdvise", 7);
  }

  lemma FunctionKey282BeforeKey283()
    ensures Precedes("cuMemAdvise", "cuMemAlloc")
  {
    PrecedesAt("cuMemAdvise", "cuMemAlloc", 6);
  }

  lemma FunctionKey283BeforeKey284()
    ensures Precedes("cuMemAlloc", "cuMemAllocAsync")
  {
    PrecedesAt("cuMemAlloc", "cuMemAllocAsync", 10);
  }

  lemma FunctionKey284BeforeKey285()
    ensures Precedes("cuMemAllocAsync", "cuMemAllocFromPoolAsync")
  {
    PrecedesAt("cuMemAllocAsync", "cuMemAllocFromPoolAsync", 10);
  }

  lemma FunctionKey285BeforeKey286()
    ensures Precedes("cuMemAllocFromPoolAsync", "cuMemAllocHost")
  {
    PrecedesAt("cuMemAllocFromPoolAsync", "cuMemAllocHost", 10);
  }

  lemma FunctionKey286BeforeKey287()
    ensures Precedes("cuMemAllocHost", "cuMemAllocHost_v2")
  {
    PrecedesAt("cuMemAllocHost", "cuMemAllocHost_v2", 14);
  }

  lemma FunctionKey287BeforeKey288()
    ensures Precedes("cuMemAllocHost_v2", "cuMemAllocManaged")
  {
    PrecedesAt("cuMemAllocHost_v2", "cuMemAllocManaged", 10);
  }

  lemma FunctionKey288BeforeKey289()
    ensures Precedes("cuMemAllocManaged", "cuMemAllocPitch")
  {
    PrecedesAt("cuMemAllocManaged", "cuMemAllocPitch", 10);
  }

  lemma FunctionKey289BeforeKey290()
    ensures Precedes("cuMemAllocPitch", "cuMemAllocPitch_v2")
  {
    PrecedesAt("cuMemAllocPitch", "cuMemAllocPitch_v2", 15);
  }

  lemma FunctionKey290BeforeKey291()
    ensures Precedes("cuMemAllocPitch_v2", "cuMemAlloc_v2")
  {
    PrecedesAt("cuMemAllocPitch_v2", "cuMemAlloc_v2", 10);
  }

  lemma FunctionKey291BeforeKey292()
    ensures Precedes("cuMemAlloc_v2", "cuMemCreate")
  {
    PrecedesAt("cuMemAlloc_v2", "cuMemCreate", 5);
  }

  lemma FunctionKey292BeforeKey293()
    ensures Precedes("cuMemCreate", "cuMemExportToShareableHandle")
  {
    PrecedesAt("cuMemCreate", "cuMemExportToShareableHandle", 5);
  }

  lemma FunctionKey293BeforeKey294()
    ensures Precedes("cuMemExportToShareableHandle", "cuMemFree")
  {
    PrecedesAt("cuMemExportToShareableHandle", "cuMemFree", 5);
  }

  lemma FunctionKey294BeforeKey295()
    ensures Precedes("cuMemFree", "cuMemFreeAsync")
  {
    PrecedesAt("cuMemFree", "cuMemFreeAsync", 9);
  }

  lemma FunctionKey295BeforeKey296()
    ensures Precedes("cuMemFreeAsync", "cuMemFreeHost")
  {
    PrecedesAt("cuMemFreeAsync", "cuMemFreeHost", 9);
  }

  lemma FunctionKey296BeforeKey297()
    ensures Precedes("cuMemFreeHost", "cuMemFree_v2")
  {
    PrecedesAt("cuMemFreeHost", "cuMemFree_v2", 9);
  }

  lemma FunctionKey297BeforeKey298()
    ensures Precedes("cuMemFree_v2", "cuMemGetAccess")
  {
    PrecedesAt("cuMemFree_v2", "cuMemGetAccess", 5);
  }

  lemma FunctionKey298BeforeKey299()
    ensures Precedes("cuMemGetAccess", "cuMemGetAddressRange")
  {
    PrecedesAt("cuMemGetAccess", "cuMemGetAddressRange", 9);
  }

  lemma FunctionKey299BeforeKey300()
    ensures Precedes("cuMemGetAddressRange", "cuMemGetAddressRange_v2")
  {
    PrecedesAt("cuMemGetAddressRange", "cuMemGetAddressRange_v2", 20);
  }

  lemma FunctionKey300BeforeKey301()
    ensures Precedes("cuMemGetAddressRange_v2", "cuMemGetAllocationGranularity")
  {
    PrecedesAt("cuMemGetAddressRange_v2", "cuMemGetAllocationGranularity", 9);
  }

  lemma FunctionKey301BeforeKey302()
    ensures Precedes("cuMemGetAllocationGranularity", "cuMemGetAllocationPropertiesFromHandle")
  {
    PrecedesAt("cuMemGetAllocationGranularity", "cuMemGetAllocationPropertiesFromHandle", 18);
  }

  lemma FunctionKey302BeforeKey303()
    ensures Precedes("cuMemGetAllocationPropertiesFromHandle", "cuMemGetHandleForAddressRange")
  {
    PrecedesAt("cuMemGetAllocationPropertiesFromHandle", "cuMemGetHandleForAddressRange", 8);
  }

  lemma FunctionKey303BeforeKey304()
    ensures Precedes("cuMemGetHandleForAddressRange", "cuMemGetInfo")
  {
    PrecedesAt("cuMemGetHandleForAddressRange", "cuMemGetInfo", 8);
  }

  lemma FunctionKey304BeforeKey305()
    ensures Precedes("cuMemGetInfo", "cuMemGetInfo_v2")
  {
    PrecedesAt("cuMemGetInfo", "cuMemGetInfo_v2", 12);
  }

  lemma FunctionKey305BeforeKey306()
    ensures Precedes("cuMemGetInfo_v2", "cuMemHostAlloc")
  {
    PrecedesAt("cuMemGetInfo_v2", "cuMemHostAlloc", 5);
  }

  lemma FunctionKey306BeforeKey307()
    ensures Precedes("cuMemHostAlloc", "cuMemHostGetDevicePointer")
  {
    PrecedesAt("cuMemHostAlloc", "cuMemHostGetDevicePointer", 9);
  }

  lemma FunctionKey307BeforeKey308()
    ensures Precedes("cuMemHostGetDevicePointer", "cuMemHostGetDevicePointer_v2")
  {
    PrecedesAt("cuMemHostGetDevicePointer", "cuMemHostGetDevicePointer_v2", 25);
  }

  lemma FunctionKey308BeforeKey309()
    ensures Precedes("cuMemHostGetDevicePointer_v2", "cuMemHostGetFlags")
  {
    PrecedesAt("cuMemHostGetDevicePointer_v2", "cuMemHostGetFlags", 12);
  }

  lemma FunctionKey309BeforeKey310()
    ensures Precedes("cuMemHostGetFlags", "cuMemHostRegister")
  {
    PrecedesAt("cuMemHostGetFlags", "cuMemHostRegister", 9);
  }

  lemma FunctionKey310BeforeKey311()
    ensures Precedes("cuMemHostRegister", "cuMemHostRegister_v2")
  {
    PrecedesAt("cuMemHostRegister", "cuMemHostRegister_v2", 17);
  }

  lemma FunctionKey311BeforeKey312()
    ensures Precedes("cuMemHostRegister_v2", "cuMemHostUnregister")
  {
    PrecedesAt("cuMemHostRegister_v2", "cuMemHostUnregister", 9);
  }

  lemma FunctionKey312BeforeKey313()
    ensures Precedes("cuMemHostUnregister", "cuMemImportFromShareableHandle")
  {
    PrecedesAt("cuMemHostUnregister", "cuMemImportFromShareableHandle", 5);
  }

  lemma FunctionKey313BeforeKey314()
    ensures Precedes("cuMemImportFromShareableHandle", "cuMemMap")
  {
    PrecedesAt("cuMemImportFromShareableHandle", "cuMemMap", 5);
  }

  lemma FunctionKey314BeforeKey315()
    ensures Precedes("cuMemMap", "cuMemMapArrayAsync")
  {
    PrecedesAt("cuMemMap", "cuMemMapArrayAsync", 8);
  }

  lemma FunctionKey315BeforeKey316()
    ensures Precedes("cuMemMapArrayAsync", "cuMemPoolCreate")
  {
    PrecedesAt("cuMemMapArrayAsync", "cuMemPoolCreate", 5);
  }

  lemma FunctionKey316BeforeKey317()
    ensures Precedes("cuMemPoolCreate", "cuMemPoolDestroy")
  {
    PrecedesAt("cuMemPoolCreate", "cuMemPoolDestroy", 9);
  }

  lemma FunctionKey317BeforeKey318()
    ensures Precedes("cuMemPoolDestroy", "cuMemPoolExportPointer")
  {
    PrecedesAt("cuMemPoolDestroy", "cuMemPoolExportPointer", 9);
  }

  lemma FunctionKey318BeforeKey319()
    ensures Precedes("cuMemPoolExportPointer", "cuMemPoolExportToShareableHandle")
  {
    PrecedesAt("cuMemPoolExportPointer", "cuMemPoolExportToShareableHandle", 15);
  }

  lemma FunctionKey319BeforeKey320()
    ensures Precedes("cuMemPoolExportToShareableHandle", "cuMemPoolGetAccess")
  {
    PrecedesAt("cuMemPoolExportToShareableHandle", "cuMemPoolGetAccess", 9);
  }

  lemma FunctionKey320BeforeKey321()
    ensures Precedes("cuMemPoolGetAccess", "cuMemPoolGetAttribute")
  {
    PrecedesAt("cuMemPoolGetAccess", "cuMemPoolGetAttribute", 13);
  }

  lemma FunctionKey321BeforeKey322()
    ensures Precedes("cuMemPoolGetAttribute", "cuMemPoolImportFromShareableHandle")
  {
    PrecedesAt("cuMemPoolGetAttribute", "cuMemPoolImportFromShareableHandle", 9);
  }

  lemma FunctionKey322BeforeKey323()
    ensures Precedes("cuMemPoolImportFromShareableHandle", "cuMemPoolImportPointer")
  {
    PrecedesAt("cuMemPoolImportFromShareableHandle", "cuMemPoolImportPointer", 15);
  }

  lemma FunctionKey323BeforeKey324()
    ensures Precedes("cuMemPoolImportPointer", "cuMemPoolSetAccess")
  {
    PrecedesAt("cuMemPoolImportPointer", "cuMemPoolSetAccess", 9);
  }

  lemma FunctionKey324BeforeKey325()
    ensures Precedes("cuMemPoolSetAccess", "cuMemPoolSetAttribute")
  {
    PrecedesAt("cuMemPoolSetAccess", "cuMemPoolSetAttribute", 13);
  }

  lemma FunctionKey325BeforeKey326()
    ensures Precedes("cuMemPoolSetAttribute", "cuMemPoolTrimTo")
  {
    PrecedesAt("cuMemPoolSetAttribute", "cuMemPoolTrimTo", 9);
  }

  lemma FunctionKey326BeforeKey327()
    ensures Precedes("cuMemPoolTrimTo", "cuMemPrefetchAsync")
  {
    PrecedesAt("cuMemPoolTrimTo", "cuMemPrefetchAsync", 6);
  }

  lemma FunctionKey327BeforeKey328()
    ensures Precedes("cuMemPrefetchAsync", "cuMemRangeGetAttribute")
  {
    PrecedesAt("cuMemPrefetchAsync", "cuMemRangeGetAttribute", 5);
  }

  lemma FunctionKey328BeforeKey329()
    ensures Precedes("cuMemRangeGetAttribute", "cuMemRangeGetAttributes")
  {
    PrecedesAt("cuMemRangeGetAttribute", "cuMemRangeGetAttributes", 22);
  }

  lemma FunctionKey329BeforeKey330()
    ensures Precedes("cuMemRangeGetAttributes", "cuMemRelease")
  {
    PrecedesAt("cuMemRangeGetAttributes", "cuMemRelease", 6);
  }

  lemma FunctionKey330BeforeKey331()
    ensures Precedes("cuMemRelease", "cuMemRetainAllocationHandle")
  {
    PrecedesAt("cuMemRelease", "cuMemRetainAllocationHandle", 7);
  }

  lemma FunctionKey331BeforeKey332()
    ensures Precedes("cuMemRetainAllocationHandle", "cuMemSetAccess")
  {
    PrecedesAt("cuMemRetainAllocationHandle", "cuMemSetAccess", 5);
  }

  lemma FunctionKey332BeforeKey333()
    ensures Precedes("cuMemSetAccess", "cuMemUnmap")
  {
    PrecedesAt("cuMemSetAccess", "cuMemUnmap", 5);
  }

  lemma FunctionKey333BeforeKey334()
    ensures Precedes("cuMemUnmap", "cuMemcpy")
  {
    PrecedesAt("cuMemUnmap", "cuMemcpy", 5);
  }

  lemma FunctionKey334BeforeKey335()
    ensures Precedes("cuMemcpy", "cuMemcpy2D")
  {
    PrecedesAt("cuMemcpy", "cuMemcpy2D", 8);
  }

  lemma FunctionKey335BeforeKey336()
    ensures Precedes("cuMemcpy2D", "cuMemcpy2DAsync")
  {
    PrecedesAt("cuMemcpy2D", "cuMemcpy2DAsync", 10);
  }

  lemma FunctionKey336BeforeKey337()
    ensures Precedes("cuMemcpy2DAsync", "cuMemcpy2DAsync_v2")
  {
    PrecedesAt("cuMemcpy2DAsync", "cuMemcpy2DAsync_v2", 15);
  }

  lemma FunctionKey337BeforeKey338()
    ensures Precedes("cuMemcpy2DAsync_v2", "cuMemcpy2DUnaligned")
  {
    PrecedesAt("cuMemcpy2DAsync_v2", "cuMemcpy2DUnaligned", 10);
  }

  lemma FunctionKey338BeforeKey339()
    ensures Precedes("cuMemcpy2DUnaligned", "cuMemcpy2DUnaligned_v2")
  {
    PrecedesAt("cuMemcpy2DUnaligned", "cuMemcpy2DUnaligned_v2", 19);
  }

  lemma FunctionKey339BeforeKey340()
    ensures Precedes("cuMemcpy2DUnaligned_v2", "cuMemcpy2D_v2")
  {
    PrecedesAt("cuMemcpy2DUnaligned_v2", "cuMemcpy2D_v2", 10);
  }

  lemma FunctionKey340BeforeKey341()
    ensures Precedes("cuMemcpy2D_v2", "cuMemcpy3D")
  {
    PrecedesAt("cuMemcpy2D_v2", "cuMemcpy3D", 8);
  }

  lemma FunctionKey341BeforeKey342()
    ensures Precedes("cuMemcpy3D", "cuMemcpy3DAsync")
  {
    PrecedesAt("cuMemcpy3D", "cuMemcpy3DAsync", 10);
  }

  lemma FunctionKey342BeforeKey343()
    ensures Precedes("cuMemcpy3DAsync", "cuMemcpy3DAsync_v2")
  {
    PrecedesAt("cuMemcpy3DAsync", "cuMemcpy3DAsync_v2", 15);
  }

  lemma FunctionKey343BeforeKey344()
    ensures Precedes("cuMemcpy3DAsync_v2", "cuMemcpy3DPeer")
  {
    PrecedesAt("cuMemcpy3DAsync_v2", "cuMemcpy3DPeer", 10);
  }

  lemma FunctionKey344BeforeKey345()
    ensures Precedes("cuMemcpy3DPeer", "cuMemcpy3DPeerAsync")
  {
    PrecedesAt("cuMemcpy3DPeer", "cuMemcpy3DPeerAsync", 14);
  }

  lemma FunctionKey345BeforeKey346()
    ensures Precedes("cuMemcpy3DPeerAsync", "cuMemcpy3D_v2")
  {
    PrecedesAt("cuMemcpy3DPeerAsync", "cuMemcpy3D_v2", 10);
  }

  lemma FunctionKey346BeforeKey347()
    ensures Precedes("cuMemcpy3D_v2", "cuMemcpyAsync")
  {
    PrecedesAt("cuMemcpy3D_v2", "cuMemcpyAsync", 8);
  }

  lemma FunctionKey347BeforeKey348()
    ensures Precedes("cuMemcpyAsync", "cuMemcpyAtoA")
  {
    PrecedesAt("cuMemcpyAsync", "cuMemcpyAtoA", 9);
  }

  lemma FunctionKey348BeforeKey349()
    ensures Precedes("cuMemcpyAtoA", "cuMemcpyAtoA_v2")
  {
    PrecedesAt("cuMemcpyAtoA", "cuMemcpyAtoA_v2", 12);
  }

  lemma FunctionKey349BeforeKey350()
    ensures Precedes("cuMemcpyAtoA_v2", "cuMemcpyAtoD")
  {
    PrecedesAt("cuMemcpyAtoA_v2", "cuMemcpyAtoD", 11);
  }

  lemma FunctionKey350BeforeKey351()
    ensures Precedes("cuMemcpyAtoD", "cuMemcpyAtoD_v2")
  {
    PrecedesAt("cuMemcpyAtoD", "cuMemcpyAtoD_v2", 12);
  }

  lemma FunctionKey351BeforeKey352()
    ensures Precedes("cuMemcpyAtoD_v2", "cuMemcpyAtoH")
  {
    PrecedesAt("cuMemcpyAtoD_v2", "cuMemcpyAtoH", 11);
  }

  lemma FunctionKey352BeforeKey353()
    ensures Precedes("cuMemcpyAtoH", "cuMemcpyAtoHAsync")
  {
    PrecedesAt("cuMemcpyAtoH", "cuMemcpyAtoHAsync", 12);
  }

  lemma FunctionKey353BeforeKey354()
    ensures Precedes("cuMemcpyAtoHAsync", "cuMemcpyAtoHAsync_v2")
  {
    PrecedesAt("cuMemcpyAtoHAsync", "cuMemcpyAtoHAsync_v2", 17);
  }

  lemma FunctionKey354BeforeKey355()
    ensures Precedes("cuMemcpyAtoHAsync_v2", "cuMemcpyAtoH_v2")
  {
    PrecedesAt("cuMemcpyAtoHAsync_v2", "cuMemcpyAtoH_v2", 12);
  }

  lemma FunctionKey355BeforeKey356()
    ensures Precedes("cuMemcpyAtoH_v2", "cuMemcpyDtoA")
  {
    PrecedesAt("cuMemcpyAtoH_v2", "cuMemcpyDtoA", 8);
  }

  lemma FunctionKey356BeforeKey357()
    ensures Precedes("cuMemcpyDtoA", "cuMemcpyDtoA_v2")
  {
    PrecedesAt("cuMemcpyDtoA", "cuMemcpyDtoA_v2", 12);
  }

  lemma FunctionKey357BeforeKey358()
    ensures Precedes("cuMemcpyDtoA_v2", "cuMemcpyDtoD")
  {
    PrecedesAt("cuMemcpyDtoA_v2", "cuMemcpyDtoD", 11);
  }

  lemma FunctionKey358BeforeKey359()
    ensures Precedes("cuMemcpyDtoD", "cuMemcpyDtoDAsync")
  {
    PrecedesAt("cuMemcpyDtoD", "cuMemcpyDtoDAsync", 12);
  }

  lemma FunctionKey359BeforeKey360()
    ensures Precedes("cuMemcpyDtoDAsync", "cuMemcpyDtoDAsync_v2")
  {
    PrecedesAt("cuMemcpyDtoDAsync", "cuMemcpyDtoDAsync_v2", 17);
  }

  lemma FunctionKey360BeforeKey361()
    ensures Precedes("cuMemcpyDtoDAsync_v2", "cuMemcpyDtoD_v2")
  {
    PrecedesAt("cuMemcpyDtoDAsync_v2", "cuMemcpyDtoD_v2", 12);
  }

  lemma FunctionKey361BeforeKey362()
    ensures Precedes("cuMemcpyDtoD_v2", "cuMemcpyDtoH")
  {
    PrecedesAt("cuMemcpyDtoD_v2", "cuMemcpyDtoH", 11);
  }

  lemma FunctionKey362BeforeKey363()
    ensures Precedes("cuMemcpyDtoH", "cuMemcpyDtoHAsync")
  {
    PrecedesAt("cuMemcpyDtoH", "cuMemcpyDtoHAsync", 12);
  }

  lemma FunctionKey363BeforeKey364()
    ensures Precedes("cuMemcpyDtoHAsync", "cuMemcpyDtoHAsync_v2")
  {
    PrecedesAt("cuMemcpyDtoHAsync", "cuMemcpyDtoHAsync_v2", 17);
  }

  lemma FunctionKey364BeforeKey365()
    ensures Precedes("cuMemcpyDtoHAsync_v2", "cuMemcpyDtoH_v2")
  {
    PrecedesAt("cuMemcpyDtoHAsync_v2", "cuMemcpyDtoH_v2", 12);
  }

  lemma FunctionKey365BeforeKey366()
    ensures Precedes("cuMemcpyDtoH_v2", "cuMemcpyHtoA")
  {
    PrecedesAt("cuMemcpyDtoH_v2", "cuMemcpyHtoA", 8);
  }

  lemma FunctionKey366BeforeKey367()
    ensures Precedes("cuMemcpyHtoA", "cuMemcpyHtoAAsync")
  {
    PrecedesAt("cuMemcpyHtoA", "cuMemcpyHtoAAsync", 12);
  }

  lemma FunctionKey367BeforeKey368()
    ensures Precedes("cuMemcpyHtoAAsync", "cuMemcpyHtoAAsync_v2")
  {
    PrecedesAt("cuMemcpyHtoAAsync", "cuMemcpyHtoAAsync_v2", 17);
  }

  lemma FunctionKey368BeforeKey369()
    ensures Precedes("cuMemcpyHtoAAsync_v2", "cuMemcpyHtoA_v2")
  {
    PrecedesAt("cuMemcpyHtoAAsync_v2", "cuMemcpyHtoA_v2", 12);
  }

  lemma FunctionKey369BeforeKey370()
    ensures Precedes("cuMemcpyHtoA_v2", "cuMemcpyHtoD")
  {
    PrecedesAt("cuMemcpyHtoA_v2", "cuMemcpyHtoD", 11);
  }

  lemma FunctionKey370BeforeKey371()
    ensures Precedes("cuMemcpyHtoD", "cuMemcpyHtoDAsync")
  {
    PrecedesAt("cuMemcpyHtoD", "cuMemcpyHtoDAsync", 12);
  }

  lemma FunctionKey371BeforeKey372()
    ensures Precedes("cuMemcpyHtoDAsync", "cuMemcpyHtoDAsync_v2")
  {
    PrecedesAt("cuMemcpyHtoDAsync", "cuMemcpyHtoDAsync_v2", 17);
  }

  lemma FunctionKey372BeforeKey373()
    ensures Precedes("cuMemcpyHtoDAsync_v2", "cuMemcpyHtoD_v2")
  {
    PrecedesAt("cuMemcpyHtoDAsync_v2", "cuMemcpyHtoD_v2", 12);
  }

  lemma FunctionKey373BeforeKey374()
    ensures Precedes("cuMemcpyHtoD_v2", "cuMemcpyPeer")
  {
    PrecedesAt("cuMemcpyHtoD_v2", "cuMemcpyPeer", 8);
  }

  lemma FunctionKey374BeforeKey375()
    ensures Precedes("cuMemcpyPeer", "cuMemcpyPeerAsync")
  {
    PrecedesAt("cuMemcpyPeer", "cuMemcpyPeerAsync", 12);
  }

  lemma FunctionKey375BeforeKey376()
    ensures Precedes("cuMemcpyPeerAsync", "cuMemsetD16")
  {
    PrecedesAt("cuMemcpyPeerAsync", "cuMemsetD16", 5);
  }

  lemma FunctionKey376BeforeKey377()
    ensures Precedes("cuMemsetD16", "cuMemsetD16Async")
  {
    PrecedesAt("cuMemsetD16", "cuMemsetD16Async", 11);
  }

  lemma FunctionKey377BeforeKey378()
    ensures Precedes("cuMemsetD16Async", "cuMemsetD16_v2")
  {
    PrecedesAt("cuMemsetD16Async", "cuMemsetD16_v2", 11);
  }

  lemma FunctionKey378BeforeKey379()
    ensures Precedes("cuMemsetD16_v2", "cuMemsetD2D16")
  {
    PrecedesAt("cuMemsetD16_v2", "cuMemsetD2D16", 9);
  }

  lemma FunctionKey379BeforeKey380()
    ensures Precedes("cuMemsetD2D16", "cuMemsetD2D16Async")
  {
    PrecedesAt("cuMemsetD2D16", "cuMemsetD2D16Async", 13);
  }

  lemma FunctionKey380BeforeKey381()
    ensures Precedes("cuMemsetD2D16Async", "cuMemsetD2D16_v2")
  {
    PrecedesAt("cuMemsetD2D16Async", "cuMemsetD2D16_v2", 13);
  }

  lemma FunctionKey381BeforeKey382()
    ensures Precedes("cuMemsetD2D16_v2", "cuMemsetD2D32")
  {
    PrecedesAt("cuMemsetD2D16_v2", "cuMemsetD2D32", 11);
  }

  lemma FunctionKey382BeforeKey383()
    ensures Precedes("cuMemsetD2D32", "cuMemsetD2D32Async")
  {
    PrecedesAt("cuMemsetD2D32", "cuMemsetD2D32Async", 13);
  }

  lemma FunctionKey383BeforeKey384()
    ensures Precedes("cuMemsetD2D32Async", "cuMemsetD2D32_v2")
  {
    PrecedesAt("cuMemsetD2D32Async", "cuMemsetD2D32_v2", 13);
  }

  lemma FunctionKey384BeforeKey385()
    ensures Precedes("cuMemsetD2D32_v2", "cuMemsetD2D8")
  {
    PrecedesAt("cuMemsetD2D32_v2", "cuMemsetD2D8", 11);
  }

  lemma FunctionKey385BeforeKey386()
    ensures Precedes("cuMemsetD2D8", "cuMemsetD2D8Async")
  {
    PrecedesAt("cuMemsetD2D8", "cuMemsetD2D8Async", 12);
  }

  lemma FunctionKey386BeforeKey387()
    ensures Precedes("cuMemsetD2D8Async", "cuMemsetD2D8_v2")
  {
    PrecedesAt("cuMemsetD2D8Async", "cuMemsetD2D8_v2", 12);
  }

  lemma FunctionKey387BeforeKey388()
    ensures Precedes("cuMemsetD2D8_v2", "cuMemsetD32")
  {
    PrecedesAt("cuMemsetD2D8_v2", "cuMemsetD32", 9);
  }

  lemma FunctionKey388BeforeKey389()
    ensures Precedes("cuMemsetD32", "cuMemsetD32Async")
  {
    PrecedesAt("cuMemsetD32", "cuMemsetD32Async", 11);
  }

  lemma FunctionKey389BeforeKey390()
    ensures Precedes("cuMemsetD32Async", "cuMemsetD32_v2")
  {
    PrecedesAt("cuMemsetD32Async", "cuMemsetD32_v2", 11);
  }

  lemma FunctionKey390BeforeKey391()
    ensures Precedes("cuMemsetD32_v2", "cuMemsetD8")
  {
    PrecedesAt("cuMemsetD32_v2", "cuMemsetD8", 9);
  }

  lemma FunctionKey391BeforeKey392()
    ensures Precedes("cuMemsetD8", "cuMemsetD8Async")
  {
    PrecedesAt("cuMemsetD8", "cuMemsetD8Async", 10);
  }

  lemma FunctionKey392BeforeKey393()
    ensures Precedes("cuMemsetD8Async", "cuMemsetD8_v2")
  {
    PrecedesAt("cuMemsetD8Async", "cuMemsetD8_v2", 10);
  }

  lemma FunctionKey393BeforeKey394()
    ensures Precedes("cuMemsetD8_v2", "cuMipmappedArrayCreate")
  {
    PrecedesAt("cuMemsetD8_v2", "cuMipmappedArrayCreate", 3);
  }

  lemma FunctionKey394BeforeKey395()
    ensures Precedes("cuMipmappedArrayCreate", "cuMipmappedArrayDestroy")
  {
    PrecedesAt("cuMipmappedArrayCreate", "cuMipmappedArrayDestroy", 16);
  }

  lemma FunctionKey395BeforeKey396()
    ensures Precedes("cuMipmappedArrayDestroy", "cuMipmappedArrayGetLevel")
  {
    PrecedesAt("cuMipmappedArrayDestroy", "cuMipmappedArrayGetLevel", 16);
  }

  lemma FunctionKey396BeforeKey397()
    ensures Precedes("cuMipmappedArrayGetLevel", "cuMipmappedArrayGetMemoryRequirements")
  {
    PrecedesAt("cuMipmappedArrayGetLevel", "cuMipmappedArrayGetMemoryRequirements", 19);
  }

  lemma FunctionKey397BeforeKey398()
    ensures Precedes("cuMipmappedArrayGetMemoryRequirements", "cuModuleGetFunction")
  {
    PrecedesAt("cuMipmappedArrayGetMemoryRequirements", "cuModuleGetFunction", 3);
  }

  lemma FunctionKey398BeforeKey399()
    ensures Precedes("cuModuleGetFunction", "cuModuleGetGlobal")
  {
    PrecedesAt("cuModuleGetFunction", "cuModuleGetGlobal", 11);
  }

  lemma FunctionKey399BeforeKey400()
    ensures Precedes("cuModuleGetGlobal", "cuModuleGetGlobal_v2")
  {
    PrecedesAt("cuModuleGetGlobal", "cuModuleGetGlobal_v2", 17);
  }

  lemma FunctionKey400BeforeKey401()
    ensures Precedes("cuModuleGetGlobal_v2", "cuModuleGetLoadingMode")
  {
    PrecedesAt("cuModuleGetGlobal_v2", "cuModuleGetLoadingMode", 11);
  }

  lemma FunctionKey401BeforeKey402()
    ensures Precedes("cuModuleGetLoadingMode", "cuModuleGetSurfRef")
  {
    PrecedesAt("cuModuleGetLoadingMode", "cuModuleGetSurfRef", 11);
  }

  lemma FunctionKey402BeforeKey403()
    ensures Precedes("cuModuleGetSurfRef", "cuModuleGetTexRef")
  {
    PrecedesAt("cuModuleGetSurfRef", "cuModuleGetTexRef", 11);
  }

  lemma FunctionKey403BeforeKey404()
    ensures Precedes("cuModuleGetTexRef", "cuModuleLoad")
  {
    PrecedesAt("cuModuleGetTexRef", "cuModuleLoad", 8);
  }

  lemma FunctionKey404BeforeKey405()
    ensures Precedes("cuModuleLoad", "cuModuleLoadData")
  {
    PrecedesAt("cuModuleLoad", "cuModuleLoadData", 12);
  }

  lemma FunctionKey405BeforeKey406()
    ensures Precedes("cuModuleLoadData", "cuModuleLoadDataEx")
  {
    PrecedesAt("cuModuleLoadData", "cuModuleLoadDataEx", 16);
  }

  lemma FunctionKey406BeforeKey407()
    ensures Precedes("cuModuleLoadDataEx", "cuModuleLoadFatBinary")
  {
    PrecedesAt("cuModuleLoadDataEx", "cuModuleLoadFatBinary", 12);
  }

  lemma FunctionKey407BeforeKey408()
    ensures Precedes("cuModuleLoadFatBinary", "cuModuleUnload")
  {
    PrecedesAt("cuModuleLoadFatBinary", "cuModuleUnload", 8);
  }

  lemma FunctionKey408BeforeKey409()
    ensures Precedes("cuModuleUnload", "cuOccupancyAvailableDynamicSMemPerBlock")
  {
    PrecedesAt("cuModuleUnload", "cuOccupancyAvailableDynamicSMemPerBlock", 2);
  }

  lemma FunctionKey409BeforeKey410()
    ensures Precedes("cuOccupancyAvailableDynamicSMemPerBlock", "cuOccupancyMaxActiveBlocksPerMultiprocessor")
  {
    PrecedesAt("cuOccupancyAvailableDynamicSMemPerBlock", "cuOccupancyMaxActiveBlocksPerMultiprocessor", 11);
  }

  lemma FunctionKey410BeforeKey411()
    ensures Precedes("cuOccupancyMaxActiveBlocksPerMultiprocessor", "cuOccupancyMaxActiveBlocksPerMultiprocessorWithFlags")
  {
    PrecedesAt("cuOccupancyMaxActiveBlocksPerMultiprocessor", "cuOccupancyMaxActiveBlocksPerMultiprocessorWithFlags", 43);
  }

  lemma FunctionKey411BeforeKey412()
    ensures Precedes("cuOccupancyMaxActiveBlocksPerMultiprocessorWithFlags", "cuOccupancyMaxActiveClusters")
  {
    PrecedesAt("cuOccupancyMaxActiveBlocksPerMultiprocessorWithFlags", "cuOccupancyMaxActiveClusters", 20);
  }

  lemma FunctionKey412BeforeKey413()
    ensures Precedes("cuOccupancyMaxActiveClusters", "cuOccupancyMaxPotentialBlockSize")
  {
    PrecedesAt("cuOccupancyMaxActiveClusters", "cuOccupancyMaxPotentialBlockSize", 14);
  }

  lemma FunctionKey413BeforeKey414()
    ensures Precedes("cuOccupancyMaxPotentialBlockSize", "cuOccupancyMaxPotentialBlockSizeWithFlags")
  {
    PrecedesAt("cuOccupancyMaxPotentialBlockSize", "cuOccupancyMaxPotentialBlockSizeWithFlags", 32);
  }

  lemma FunctionKey414BeforeKey415()
    ensures Precedes("cuOccupancyMaxPotentialBlockSizeWithFlags", "cuOccupancyMaxPotentialClusterSize")
  {
    PrecedesAt("cuOccupancyMaxPotentialBlockSizeWithFlags", "cuOccupancyMaxPotentialClusterSize", 23);
  }

  lemma FunctionKey415BeforeKey416()
    ensures Precedes("cuOccupancyMaxPotentialClusterSize", "cuParamSetSize")
  {
    PrecedesAt("cuOccupancyMaxPotentialClusterSize", "cuParamSetSize", 2);
  }

  lemma FunctionKey416BeforeKey417()
    ensures Precedes("cuParamSetSize", "cuParamSetTexRef")
  {
    PrecedesAt("cuParamSetSize", "cuParamSetTexRef", 10);
  }

  lemma FunctionKey417BeforeKey418()
    ensures Precedes("cuParamSetTexRef", "cuParamSetf")
  {
    PrecedesAt("cuParamSetTexRef", "cuParamSetf", 10);
  }

  lemma FunctionKey418BeforeKey419()
    ensures Precedes("cuParamSetf", "cuParamSeti")
  {
    PrecedesAt("cuParamSetf", "cuParamSeti", 10);
  }

  lemma FunctionKey419BeforeKey420()
    ensures Precedes("cuParamSeti", "cuParamSetv")
  {
    PrecedesAt("cuParamSeti", "cuParamSetv", 10);
  }

  lemma FunctionKey420BeforeKey421()
    ensures Precedes("cuParamSetv", "cuPointerGetAttribute")
  {
    PrecedesAt("cuParamSetv", "cuPointerGetAttribute", 3);
  }

  lemma FunctionKey421BeforeKey422()
    ensures Precedes("cuPointerGetAttribute", "cuPointerGetAttributes")
  {
    PrecedesAt("cuPointerGetAttribute", "cuPointerGetAttributes", 21);
  }

  lemma FunctionKey422BeforeKey423()
    ensures Precedes("cuPointerGetAttributes", "cuPointerSetAttribute")
  {
    PrecedesAt("cuPointerGetAttributes", "cuPointerSetAttribute", 9);
  }

  lemma FunctionKey423BeforeKey424()
    ensures Precedes("cuPointerSetAttribute", "cuProfilerInitialize")
  {
    PrecedesAt("cuPointerSetAttribute", "cuProfilerInitialize", 3);
  }

  lemma FunctionKey424BeforeKey425()
    ensures Precedes("cuProfilerInitialize", "cuProfilerStart")
  {
    PrecedesAt("cuProfilerInitialize", "cuProfilerStart", 10);
  }

  lemma FunctionKey425BeforeKey426()
    ensures Precedes("cuProfilerStart", "cuProfilerStop")
  {
    PrecedesAt("cuProfilerStart", "cuProfilerStop", 12);
  }

  lemma FunctionKey426BeforeKey427()
    ensures Precedes("cuProfilerStop", "cuSignalExternalSemaphoresAsync")
  {
    PrecedesAt("cuProfilerStop", "cuSignalExternalSemaphoresAsync", 2);
  }

  lemma FunctionKey427BeforeKey428()
    ensures Precedes("cuSignalExternalSemaphoresAsync", "cuStreamAddCallback")
  {
    PrecedesAt("cuSignalExternalSemaphoresAsync", "cuStreamAddCallback", 3);
  }

  lemma FunctionKey428BeforeKey429()
    ensures Precedes("cuStreamAddCallback", "cuStreamAttachMemAsync")
  {
    PrecedesAt("cuStreamAddCallback", "cuStreamAttachMemAsync", 9);
  }

  lemma FunctionKey429BeforeKey430()
    ensures Precedes("cuStreamAttachMemAsync", "cuStreamBatchMemOp")
  {
    PrecedesAt("cuStreamAttachMemAsync", "cuStreamBatchMemOp", 8);
  }

  lemma FunctionKey430BeforeKey431()
    ensures Precedes("cuStreamBatchMemOp", "cuStreamBatchMemOp_v2")
  {
    PrecedesAt("cuStreamBatchMemOp", "cuStreamBatchMemOp_v2", 18);
  }

  lemma FunctionKey431BeforeKey432()
    ensures Precedes("cuStreamBatchMemOp_v2", "cuStreamBeginCapture")
  {
    PrecedesAt("cuStreamBatchMemOp_v2", "cuStreamBeginCapture", 9);
  }

  lemma FunctionKey432BeforeKey433()
    ensures Precedes("cuStreamBeginCapture", "cuStreamBeginCapture_ptsz")
  {
    PrecedesAt("cuStreamBeginCapture", "cuStreamBeginCapture_ptsz", 20);
  }

  lemma FunctionKey433BeforeKey434()
    ensures Precedes("cuStreamBeginCapture_ptsz", "cuStreamBeginCapture_v2")
  {
    PrecedesAt("cuStreamBeginCapture_ptsz", "cuStreamBeginCapture_v2", 21);
  }

  lemma FunctionKey434BeforeKey435()
    ensures Precedes("cuStreamBeginCapture_v2", "cuStreamCopyAttributes")
  {
    PrecedesAt("cuStreamBeginCapture_v2", "cuStreamCopyAttributes", 8);
  }

  lemma FunctionKey435BeforeKey436()
    ensures Precedes("cuStreamCopyAttributes", "cuStreamCreate")
  {
    PrecedesAt("cuStreamCopyAttributes", "cuStreamCreate", 9);
  }

  lemma FunctionKey436BeforeKey437()
    ensures Precedes("cuStreamCreate", "cuStreamCreateWithPriority")
  {
    PrecedesAt("cuStreamCreate", "cuStreamCreateWithPriority", 14);
  }

  lemma FunctionKey437BeforeKey438()
    ensures Precedes("cuStreamCreateWithPriority", "cuStreamDestroy")
  {
    PrecedesAt("cuStreamCreateWithPriority", "cuStreamDestroy", 8);
  }

  lemma FunctionKey438BeforeKey439()
    ensures Precedes("cuStreamDestroy", "cuStreamDestroy_v2")
  {
    PrecedesAt("cuStreamDestroy", "cuStreamDestroy_v2", 15);
  }

  lemma FunctionKey439BeforeKey440()
    ensures Precedes("cuStreamDestroy_v2", "cuStreamEndCapture")
  {
    PrecedesAt("cuStreamDestroy_v2", "cuStreamEndCapture", 8);
  }

  lemma FunctionKey440BeforeKey441()
    ensures Precedes("cuStreamEndCapture", "cuStreamGetAttribute")
  {
    PrecedesAt("cuStreamEndCapture", "cuStreamGetAttribute", 8);
  }

  lemma FunctionKey441BeforeKey442()
    ensures Precedes("cuStreamGetAttribute", "cuStreamGetCaptureInfo")
  {
    PrecedesAt("cuStreamGetAttribute", "cuStreamGetCaptureInfo", 11);
  }

  lemma FunctionKey442BeforeKey443()
    ensures Precedes("cuStreamGetCaptureInfo", "cuStreamGetCaptureInfo_v2")
  {
    PrecedesAt("cuStreamGetCaptureInfo", "cuStreamGetCaptureInfo_v2", 22);
  }

  lemma FunctionKey443BeforeKey444()
    ensures Precedes("cuStreamGetCaptureInfo_v2", "cuStreamGetCtx")
  {
    PrecedesAt("cuStreamGetCaptureInfo_v2", "cuStreamGetCtx", 12);
  }

  lemma FunctionKey444BeforeKey445()
    ensures Precedes("cuStreamGetCtx", "cuStreamGetFlags")
  {
    PrecedesAt("cuStreamGetCtx", "cuStreamGetFlags", 11);
  }

  lemma FunctionKey445BeforeKey446()
    ensures Precedes("cuStreamGetFlags", "cuStreamGetId")
  {
    PrecedesAt("cuStreamGetFlags", "cuStreamGetId", 11);
  }

  lemma FunctionKey446BeforeKey447()
    ensures Precedes("cuStreamGetId", "cuStreamGetPriority")
  {
    PrecedesAt("cuStreamGetId", "cuStreamGetPriority", 11);
  }

  lemma FunctionKey447BeforeKey448()
    ensures Precedes("cuStreamGetPriority", "cuStreamIsCapturing")
  {
    PrecedesAt("cuStreamGetPriority", "cuStreamIsCapturing", 8);
  }

  lemma FunctionKey448BeforeKey449()
    ensures Precedes("cuStreamIsCapturing", "cuStreamQuery")
  {
    PrecedesAt("cuStreamIsCapturing", "cuStreamQuery", 8);
  }

  lemma FunctionKey449BeforeKey450()
    ensures Precedes("cuStreamQuery", "cuStreamSetAttribute")
  {
    PrecedesAt("cuStreamQuery", "cuStreamSetAttribute", 8);
  }

  lemma FunctionKey450BeforeKey451()
    ensures Precedes("cuStreamSetAttribute", "cuStreamSynchronize")
  {
    PrecedesAt("cuStreamSetAttribute", "cuStreamSynchronize", 9);
  }

  lemma FunctionKey451BeforeKey452()
    ensures Precedes("cuStreamSynchronize", "cuStreamUpdateCaptureDependencies")
  {
    PrecedesAt("cuStreamSynchronize", "cuStreamUpdateCaptureDependencies", 8);
  }

  lemma FunctionKey452BeforeKey453()
    ensures Precedes("cuStreamUpdateCaptureDependencies", "cuStreamWaitEvent")
  {
    PrecedesAt("cuStreamUpdateCaptureDependencies", "cuStreamWaitEvent", 8);
  }

  lemma FunctionKey453BeforeKey454()
    ensures Precedes("cuStreamWaitEvent", "cuStreamWaitValue32")
  {
    PrecedesAt("cuStreamWaitEvent", "cuStreamWaitValue32", 12);
  }

  lemma FunctionKey454BeforeKey455()
    ensures Precedes("cuStreamWaitValue32", "cuStreamWaitValue32_v2")
  {
    PrecedesAt("cuStreamWaitValue32", "cuStreamWaitValue32_v2", 19);
  }

  lemma FunctionKey455BeforeKey456()
    ensures Precedes("cuStreamWaitValue32_v2", "cuStreamWaitValue64")
  {
    PrecedesAt("cuStreamWaitValue32_v2", "cuStreamWaitValue64", 17);
  }

  lemma FunctionKey456BeforeKey457()
    ensures Precedes("cuStreamWaitValue64", "cuStreamWaitValue64_v2")
  {
    PrecedesAt("cuStreamWaitValue64", "cuStreamWaitValue64_v2", 19);
  }

  lemma FunctionKey457BeforeKey458()
    ensures Precedes("cuStreamWaitValue64_v2", "cuStreamWriteValue32")
  {
    PrecedesAt("cuStreamWaitValue64_v2", "cuStreamWriteValue32", 9);
  }

  lemma FunctionKey458BeforeKey459()
    ensures Precedes("cuStreamWriteValue32", "cuStreamWriteValue32_v2")
  {
    PrecedesAt("cuStreamWriteValue32", "cuStreamWriteValue32_v2", 20);
  }

  lemma FunctionKey459BeforeKey460()
    ensures Precedes("cuStreamWriteValue32_v2", "cuStreamWriteValue64")
  {
    PrecedesAt("cuStreamWriteValue32_v2", "cuStreamWriteValue64", 18);
  }

  lemma FunctionKey460BeforeKey461()
    ensures Precedes("cuStreamWriteValue64", "cuStreamWriteValue64_v2")
  {
    PrecedesAt("cuStreamWriteValue64", "cuStreamWriteValue64_v2", 20);
  }

  lemma FunctionKey461BeforeKey462()
    ensures Precedes("cuStreamWriteValue64_v2", "cuSurfObjectCreate")
  {
    PrecedesAt("cuStreamWriteValue64_v2", "cuSurfObjectCreate", 3);
  }

  lemma FunctionKey462BeforeKey463()
    ensures Precedes("cuSurfObjectCreate", "cuSurfObjectDestroy")
  {
    PrecedesAt("cuSurfObjectCreate", "cuSurfObjectDestroy", 12);
  }

  lemma FunctionKey463BeforeKey464()
    ensures Precedes("cuSurfObjectDestroy", "cuSurfObjectGetResourceDesc")
  {
    PrecedesAt("cuSurfObjectDestroy", "cuSurfObjectGetResourceDesc", 12);
  }

  lemma FunctionKey464BeforeKey465()
    ensures Precedes("cuSurfObjectGetResourceDesc", "cuSurfRefGetArray")
  {
    PrecedesAt("cuSurfObjectGetResourceDesc", "cuSurfRefGetArray", 6);
  }

  lemma FunctionKey465BeforeKey466()
    ensures Precedes("cuSurfRefGetArray", "cuSurfRefSetArray")
  {
    PrecedesAt("cuSurfRefGetArray", "cuSurfRefSetArray", 9);
  }

  lemma FunctionKey466BeforeKey467()
    ensures Precedes("cuSurfRefSetArray", "cuTensorMapEncodeIm2col")
  {
    PrecedesAt("cuSurfRefSetArray", "cuTensorMapEncodeIm2col", 2);
  }

  lemma FunctionKey467BeforeKey468()
    ensures Precedes("cuTensorMapEncodeIm2col", "cuTensorMapEncodeTiled")
  {
    PrecedesAt("cuTensorMapEncodeIm2col", "cuTensorMapEncodeTiled", 17);
  }

  lemma FunctionKey468BeforeKey469()
    ensures Precedes("cuTensorMapEncodeTiled", "cuTensorMapReplaceAddress")
  {
    PrecedesAt("cuTensorMapEncodeTiled", "cuTensorMapReplaceAddress", 11);
  }

  lemma FunctionKey469BeforeKey470()
    ensures Precedes("cuTensorMapReplaceAddress", "cuTexObjectCreate")
  {
    PrecedesAt("cuTensorMapReplaceAddress", "cuTexObjectCreate", 4);
  }

  lemma FunctionKey470BeforeKey471()
    ensures Precedes("cuTexObjectCreate", "cuTexObjectDestroy")
  {
    PrecedesAt("cuTexObjectCreate", "cuTexObjectDestroy", 11);
  }

  lemma FunctionKey471BeforeKey472()
    ensures Precedes("cuTexObjectDestroy", "cuTexObjectGetResourceDesc")
  {
    PrecedesAt("cuTexObjectDestroy", "cuTexObjectGetResourceDesc", 11);
  }

  lemma FunctionKey472BeforeKey473()
    ensures Precedes("cuTexObjectGetResourceDesc", "cuTexObjectGetResourceViewDesc")
  {
    PrecedesAt("cuTexObjectGetResourceDesc", "cuTexObjectGetResourceViewDesc", 22);
  }

  lemma FunctionKey473BeforeKey474()
    ensures Precedes("cuTexObjectGetResourceViewDesc", "cuTexObjectGetTextureDesc")
  {
    PrecedesAt("cuTexObjectGetResourceViewDesc", "cuTexObjectGetTextureDesc", 14);
  }

  lemma FunctionKey474BeforeKey475()
    ensures Precedes("cuTexObjectGetTextureDesc", "cuTexRefCreate")
  {
    PrecedesAt("cuTexObjectGetTextureDesc", "cuTexRefCreate", 5);
  }

  lemma FunctionKey475BeforeKey476()
    ensures Precedes("cuTexRefCreate", "cuTexRefDestroy")
  {
    PrecedesAt("cuTexRefCreate", "cuTexRefDestroy", 8);
  }

  lemma FunctionKey476BeforeKey477()
    ensures Precedes("cuTexRefDestroy", "cuTexRefGetAddress")
  {
    PrecedesAt("cuTexRefDestroy", "cuTexRefGetAddress", 8);
  }

  lemma FunctionKey477BeforeKey478()
    ensures Precedes("cuTexRefGetAddress", "cuTexRefGetAddressMode")
  {
    PrecedesAt("cuTexRefGetAddress", "cuTexRefGetAddressMode", 18);
  }

  lemma FunctionKey478BeforeKey479()
    ensures Precedes("cuTexRefGetAddressMode", "cuTexRefGetAddress_v2")
  {
    PrecedesAt("cuTexRefGetAddressMode", "cuTexRefGetAddress_v2", 18);
  }

  lemma FunctionKey479BeforeKey480()
    ensures Precedes("cuTexRefGetAddress_v2", "cuTexRefGetArray")
  {
    PrecedesAt("cuTexRefGetAddress_v2", "cuTexRefGetArray", 12);
  }

  lemma FunctionKey480BeforeKey481()
    ensures Precedes("cuTexRefGetArray", "cuTexRefGetBorderColor")
  {
    PrecedesAt("cuTexRefGetArray", "cuTexRefGetBorderColor", 11);
  }

  lemma FunctionKey481BeforeKey482()
    ensures Precedes("cuTexRefGetBorderColor", "cuTexRefGetFilterMode")
  {
    PrecedesAt("cuTexRefGetBorderColor", "cuTexRefGetFilterMode", 11);
  }

  lemma FunctionKey482BeforeKey483()
    ensures Precedes("cuTexRefGetFilterMode", "cuTexRefGetFlags")
  {
    PrecedesAt("cuTexRefGetFilterMode", "cuTexRefGetFlags", 12);
  }

  lemma FunctionKey483BeforeKey484()
    ensures Precedes("cuTexRefGetFlags", "cuTexRefGetFormat")
  {
    PrecedesAt("cuTexRefGetFlags", "cuTexRefGetFormat", 12);
  }

  lemma FunctionKey484BeforeKey485()
    ensures Precedes("cuTexRefGetFormat", "cuTexRefGetMaxAnisotropy")
  {
    PrecedesAt("cuTexRefGetFormat", "cuTexRefGetMaxAnisotropy", 11);
  }

  lemma FunctionKey485BeforeKey486()
    ensures Precedes("cuTexRefGetMaxAnisotropy", "cuTexRefGetMipmapFilterMode")
  {
    PrecedesAt("cuTexRefGetMaxAnisotropy", "cuTexRefGetMipmapFilterMode", 12);
  }

  lemma FunctionKey486BeforeKey487()
    ensures Precedes("cuTexRefGetMipmapFilterMode", "cuTexRefGetMipmapLevelBias")
  {
    PrecedesAt("cuTexRefGetMipmapFilterMode", "cuTexRefGetMipmapLevelBias", 17);
  }

  lemma FunctionKey487BeforeKey488()
    ensures Precedes("cuTexRefGetMipmapLevelBias", "cuTexRefGetMipmapLevelClamp")
  {
    PrecedesAt("cuTexRefGetMipmapLevelBias", "cuTexRefGetMipmapLevelClamp", 22);
  }

  lemma FunctionKey488BeforeKey489()
    ensures Precedes("cuTexRefGetMipmapLevelClamp", "cuTexRefGetMipmappedArray")
  {
    PrecedesAt("cuTexRefGetMipmapLevelClamp", "cuTexRefGetMipmappedArray", 17);
  }

  lemma FunctionKey489BeforeKey490()
    ensures Precedes("cuTexRefGetMipmappedArray", "cuTexRefSetAddress")
  {
    PrecedesAt("cuTexRefGetMipmappedArray", "cuTexRefSetAddress", 8);
  }

  lemma FunctionKey490BeforeKey491()
    ensures Precedes("cuTexRefSetAddress", "cuTexRefSetAddress2D")
  {
    PrecedesAt("cuTexRefSetAddress", "cuTexRefSetAddress2D", 18);
  }

  lemma FunctionKey491BeforeKey492()
    ensures Precedes("cuTexRefSetAddress2D", "cuTexRefSetAddress2D_v2")
  {
    PrecedesAt("cuTexRefSetAddress2D", "cuTexRefSetAddress2D_v2", 20);
  }

  lemma FunctionKey492BeforeKey493()
    ensures Precedes("cuTexRefSetAddress2D_v2", "cuTexRefSetAddress2D_v3")
  {
    PrecedesAt("cuTexRefSetAddress2D_v2", "cuTexRefSetAddress2D_v3", 22);
  }

  lemma FunctionKey493BeforeKey494()
    ensures Precedes("cuTexRefSetAddress2D_v3", "cuTexRefSetAddressMode")
  {
    PrecedesAt("cuTexRefSetAddress2D_v3", "cuTexRefSetAddressMode", 18);
  }

  lemma FunctionKey494BeforeKey495()
    ensures Precedes("cuTexRefSetAddressMode", "cuTexRefSetAddress_v2")
  {
    PrecedesAt("cuTexRefSetAddressMode", "cuTexRefSetAddress_v2", 18);
  }

  lemma FunctionKey495BeforeKey496()
    ensures Precedes("cuTexRefSetAddress_v2", "cuTexRefSetArray")
  {
    PrecedesAt("cuTexRefSetAddress_v2", "cuTexRefSetArray", 12);
  }

  lemma FunctionKey496BeforeKey497()
    ensures Precedes("cuTexRefSetArray", "cuTexRefSetBorderColor")
  {
    PrecedesAt("cuTexRefSetArray", "cuTexRefSetBorderColor", 11);
  }

  lemma FunctionKey497BeforeKey498()
    ensures Precedes("cuTexRefSetBorderColor", "cuTexRefSetFilterMode")
  {
    PrecedesAt("cuTexRefSetBorderColor", "cuTexRefSetFilterMode", 11);
  }

  lemma FunctionKey498BeforeKey499()
    ensures Precedes("cuTexRefSetFilterMode", "cuTexRefSetFlags")
  {
    PrecedesAt("cuTexRefSetFilterMode", "cuTexRefSetFlags", 12);
  }

  lemma FunctionKey499BeforeKey500()
    ensures Precedes("cuTexRefSetFlags", "cuTexRefSetFormat")
  {
    PrecedesAt("cuTexRefSetFlags", "cuTexRefSetFormat", 12);
  }

  lemma FunctionKey500BeforeKey501()
    ensures Precedes("cuTexRefSetFormat", "cuTexRefSetMaxAnisotropy")
  {
    PrecedesAt("cuTexRefSetFormat", "cuTexRefSetMaxAnisotropy", 11);
  }

  lemma FunctionKey501BeforeKey502()
    ensures Precedes("cuTexRefSetMaxAnisotropy", "cuTexRefSetMipmapFilterMode")
  {
    PrecedesAt("cuTexRefSetMaxAnisotropy", "cuTexRefSetMipmapFilterMode", 12);
  }

  lemma FunctionKey502BeforeKey503()
    ensures Precedes("cuTexRefSetMipmapFilterMode", "cuTexRefSetMipmapLevelBias")
  {
    PrecedesAt("cuTexRefSetMipmapFilterMode", "cuTexRefSetMipmapLevelBias", 17);
  }

  lemma FunctionKey503BeforeKey504()
    ensures Precedes("cuTexRefSetMipmapLevelBias", "cuTexRefSetMipmapLevelClamp")
  {
    PrecedesAt("cuTexRefSetMipmapLevelBias", "cuTexRefSetMipmapLevelClamp", 22);
  }

  lemma FunctionKey504BeforeKey505()
    ensures Precedes("cuTexRefSetMipmapLevelClamp", "cuTexRefSetMipmappedArray")
  {
    PrecedesAt("cuTexRefSetMipmapLevelClamp", "cuTexRefSetMipmappedArray", 17);
  }

  lemma FunctionKey505BeforeKey506()
    ensures Precedes("cuTexRefSetMipmappedArray", "cuThreadExchangeStreamCaptureMode")
  {
    PrecedesAt("cuTexRefSetMipmappedArray", "cuThreadExchangeStreamCaptureMode", 3);
  }

  lemma FunctionKey506BeforeKey507()
    ensures Precedes("cuThreadExchangeStreamCaptureMode", "cuUserObjectCreate")
  {
    PrecedesAt("cuThreadExchangeStreamCaptureMode", "cuUserObjectCreate", 2);
  }

  lemma FunctionKey507BeforeKey508()
    ensures Precedes("cuUserObjectCreate", "cuUserObjectRelease")
  {
    PrecedesAt("cuUserObjectCreate", "cuUserObjectRelease", 12);
  }

  lemma FunctionKey508BeforeKey509()
    ensures Precedes("cuUserObjectRelease", "cuUserObjectRetain")
  {
    PrecedesAt("cuUserObjectRelease", "cuUserObjectRetain", 14);
  }

  lemma FunctionKey509BeforeKey510()
    ensures Precedes("cuUserObjectRetain", "cuVDPAUCtxCreate")
  {
    PrecedesAt("cuUserObjectRetain", "cuVDPAUCtxCreate", 2);
  }

  lemma FunctionKey510BeforeKey511()
    ensures Precedes("cuVDPAUCtxCreate", "cuVDPAUGetDevice")
  {
    PrecedesAt("cuVDPAUCtxCreate", "cuVDPAUGetDevice", 7);
  }

  lemma FunctionKey511BeforeKey512()
    ensures Precedes("cuVDPAUGetDevice", "cuWGLGetDevice")
  {
    PrecedesAt("cuVDPAUGetDevice", "cuWGLGetDevice", 2);
  }

  lemma FunctionKey512BeforeKey513()
    ensures Precedes("cuWGLGetDevice", "cuWaitExternalSemaphoresAsync")
  {
    PrecedesAt("cuWGLGetDevice", "cuWaitExternalSemaphoresAsync", 3);
  }
}
