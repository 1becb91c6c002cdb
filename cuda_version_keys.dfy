/** The keys of the CUDA version table in order: each sorts strictly before the next. */
module CudaVersionKeys {
  import opened KeyOrder

  lemma CudaVersionKey000BeforeKey001()
    ensures Precedes("cuArrayGetMemoryRequirements", "cuArrayGetPlane")
  {
    PrecedesAt("cuArrayGetMemoryRequirements", "cuArrayGetPlane", 10);
  }

  lemma CudaVersionKey001BeforeKey002()
    ensures Precedes("cuArrayGetPlane", "cuArrayGetSparseProperties")
  {
    PrecedesAt("cuArrayGetPlane", "cuArrayGetSparseProperties", 10);
  }

  lemma CudaVersionKey002BeforeKey003()
    ensures Precedes("cuArrayGetSparseProperties", "cuCtxCreate_v3")
  {
    PrecedesAt("cuArrayGetSparseProperties", "cuCtxCreate_v3", 2);
  }

  lemma CudaVersionKey003BeforeKey004()
    ensures Precedes("cuCtxCreate_v3", "cuCtxGetExecAffinity")
  {
    PrecedesAt("cuCtxCreate_v3", "cuCtxGetExecAffinity", 5);
  }

  lemma CudaVersionKey004BeforeKey005()
    ensures Precedes("cuCtxGetExecAffinity", "cuCtxGetId")
  {
    PrecedesAt("cuCtxGetExecAffinity", "cuCtxGetId", 8);
  }

  lemma CudaVersionKey005BeforeKey006()
    ensures Precedes("cuCtxGetId", "cuCtxResetPersistingL2Cache")
  {
    PrecedesAt("cuCtxGetId", "cuCtxResetPersistingL2Cache", 5);
  }

  lemma CudaVersionKey006BeforeKey007()
    ensures Precedes("cuCtxResetPersistingL2Cache", "cuD3D10CtxCreate")
  {
    PrecedesAt("cuCtxResetPersistingL2Cache", "cuD3D10CtxCreate", 2);
  }

  lemma CudaVersionKey007BeforeKey008()
    ensures Precedes("cuD3D10CtxCreate", "cuD3D10CtxCreateOnDevice")
  {
    PrecedesAt("cuD3D10CtxCreate", "cuD3D10CtxCreateOnDevice", 16);
  }

  lemma CudaVersionKey008BeforeKey009()
    ensures Precedes("cuD3D10CtxCreateOnDevice", "cuD3D10GetDirect3DDevice")
  {
    PrecedesAt("cuD3D10CtxCreateOnDevice", "cuD3D10GetDirect3DDevice", 7);
  }

  lemma CudaVersionKey009BeforeKey010()
    ensures Precedes("cuD3D10GetDirect3DDevice", "cuD3D10MapResources")
  {
    PrecedesAt("cuD3D10GetDirect3DDevice", "cuD3D10MapResources", 7);
  }

  lemma CudaVersionKey010BeforeKey011()
    ensures Precedes("cuD3D10MapResources", "cuD3D10RegisterResource")
  {
    PrecedesAt("cuD3D10MapResources", "cuD3D10RegisterResource", 7);
  }

  lemma CudaVersionKey011BeforeKey012()
    ensures Precedes("cuD3D10RegisterResource", "cuD3D10ResourceGetMappedArray")
  {
    PrecedesAt("cuD3D10RegisterResource", "cuD3D10ResourceGetMappedArray", 9);
  }

  lemma CudaVersionKey012BeforeKey013()
    ensures Precedes("cuD3D10ResourceGetMappedArray", "cuD3D10ResourceGetMappedPitch")
  {
    PrecedesAt("cuD3D10ResourceGetMappedArray", "cuD3D10ResourceGetMappedPitch", 24);
  }

  lemma CudaVersionKey013BeforeKey014()
    ensures Precedes("cuD3D10ResourceGetMappedPitch", "cuD3D10ResourceGetMappedPointer")
  {
    PrecedesAt("cuD3D10ResourceGetMappedPitch", "cuD3D10ResourceGetMappedPointer", 25);
  }

  lemma CudaVersionKey014BeforeKey015()
    ensures Precedes("cuD3D10ResourceGetMappedPointer", "cuD3D10ResourceGetMappedSize")
  {
    PrecedesAt("cuD3D10ResourceGetMappedPointer", "cuD3D10ResourceGetMappedSize", 24);
  }

  lemma CudaVersionKey015BeforeKey016()
    ensures Precedes("cuD3D10ResourceGetMappedSize", "cuD3D10ResourceGetSurfaceDimensions")
  {
    PrecedesAt("cuD3D10ResourceGetMappedSize", "cuD3D10ResourceGetSurfaceDimensions", 18);
  }

  lemma CudaVersionKey016BeforeKey017()
    ensures Precedes("cuD3D10ResourceGetSurfaceDimensions", "cuD3D10ResourceSetMapFlags")
  {
    PrecedesAt("cuD3D10ResourceGetSurfaceDimensions", "cuD3D10ResourceSetMapFlags", 15);
  }

  lemma CudaVersionKey017BeforeKey018()
    ensures Precedes("cuD3D10ResourceSetMapFlags", "cuD3D10UnmapResources")
  {
    PrecedesAt("cuD3D10ResourceSetMapFlags", "cuD3D10UnmapResources", 7);
  }

  lemma CudaVersionKey018BeforeKey019()
    ensures Precedes("cuD3D10UnmapResources", "cuD3D10UnregisterResource")
  {
    PrecedesAt("cuD3D10UnmapResources", "cuD3D10UnregisterResource", 9);
  }

  lemma CudaVersionKey019BeforeKey020()
    ensures Precedes("cuD3D10UnregisterResource", "cuD3D11CtxCreate")
  {
    PrecedesAt("cuD3D10UnregisterResource", "cuD3D11CtxCreate", 6);
  }

  lemma CudaVersionKey020BeforeKey021()
    ensures Precedes("cuD3D11CtxCreate", "cuD3D11CtxCreateOnDevice")
  {
    PrecedesAt("cuD3D11CtxCreate", "cuD3D11CtxCreateOnDevice", 16);
  }

  lemma CudaVersionKey021BeforeKey022()
    ensures Precedes("cuD3D11CtxCreateOnDevice", "cuD3D11GetDirect3DDevice")
  {
    PrecedesAt("cuD3D11CtxCreateOnDevice", "cuD3D11GetDirect3DDevice", 7);
  }

  lemma CudaVersionKey022BeforeKey023()
    ensures Precedes("cuD3D11GetDirect3DDevice", "cuD3D9MapResources")
  {
    PrecedesAt("cuD3D11GetDirect3DDevice", "cuD3D9MapResources", 5);
  }

  lemma CudaVersionKey023BeforeKey024()
    ensures Precedes("cuD3D9MapResources", "cuD3D9RegisterResource")
  {
    PrecedesAt("cuD3D9MapResources", "cuD3D9RegisterResource", 6);
  }

  lemma CudaVersionKey024BeforeKey025()
    ensures Precedes("cuD3D9RegisterResource", "cuD3D9ResourceGetMappedArray")
  {
    PrecedesAt("cuD3D9RegisterResource", "cuD3D9ResourceGetMappedArray", 8);
  }

  lemma CudaVersionKey025BeforeKey026()
    ensures Precedes("cuD3D9ResourceGetMappedArray", "cuD3D9ResourceGetMappedPitch")
  {
    PrecedesAt("cuD3D9ResourceGetMappedArray", "cuD3D9ResourceGetMappedPitch", 23);
  }

  lemma CudaVersionKey026BeforeKey027()
    ensures Precedes("cuD3D9ResourceGetMappedPitch", "cuD3D9ResourceGetMappedPointer")
  {
    PrecedesAt("cuD3D9ResourceGetMappedPitch", "cuD3D9ResourceGetMappedPointer", 24);
  }

  lemma CudaVersionKey027BeforeKey028()
    ensures Precedes("cuD3D9ResourceGetMappedPointer", "cuD3D9ResourceGetMappedSize")
  {
    PrecedesAt("cuD3D9ResourceGetMappedPointer", "cuD3D9ResourceGetMappedSize", 23);
  }

  lemma CudaVersionKey028BeforeKey029()
    ensures Precedes("cuD3D9ResourceGetMappedSize", "cuD3D9ResourceGetSurfaceDimensions")
  {
    PrecedesAt("cuD3D9ResourceGetMappedSize", "cuD3D9ResourceGetSurfaceDimensions", 17);
  }

  lemma CudaVersionKey029BeforeKey030()
    ensures Precedes("cuD3D9ResourceGetSurfaceDimensions", "cuD3D9ResourceSetMapFlags")
  {
    PrecedesAt("cuD3D9ResourceGetSurfaceDimensions", "cuD3D9ResourceSetMapFlags", 14);
  }

  lemma CudaVersionKey030BeforeKey031()
    ensures Precedes("cuD3D9ResourceSetMapFlags", "cuD3D9UnmapResources")
  {
    PrecedesAt("cuD3D9ResourceSetMapFlags", "cuD3D9UnmapResources", 6);
  }

  lemma CudaVersionKey031BeforeKey032()
    ensures Precedes("cuD3D9UnmapResources", "cuD3D9UnregisterResource")
  {
    PrecedesAt("cuD3D9UnmapResources", "cuD3D9UnregisterResource", 8);
  }

  lemma CudaVersionKey032BeforeKey033()
    ensures Precedes("cuD3D9UnregisterResource", "cuDestroyExternalMemory")
  {
    PrecedesAt("cuD3D9UnregisterResource", "cuDestroyExternalMemory", 3);
  }

  lemma CudaVersionKey033BeforeKey034()
    ensures Precedes("cuDestroyExternalMemory", "cuDestroyExternalSemaphore")
  {
    PrecedesAt("cuDestroyExternalMemory", "cuDestroyExternalSemaphore", 17);
  }

  lemma CudaVersionKey034BeforeKey035()
    ensures Precedes("cuDestroyExternalSemaphore", "cuDeviceComputeCapability")
  {
    PrecedesAt("cuDestroyExternalSemaphore", "cuDeviceComputeCapability", 4);
  }

  lemma CudaVersionKey035BeforeKey036()
    ensures Precedes("cuDeviceComputeCapability", "cuDeviceGetDefaultMemPool")
  {
    PrecedesAt("cuDeviceComputeCapability", "cuDeviceGetDefaultMemPool", 8);
  }

  lemma CudaVersionKey036BeforeKey037()
    ensures Precedes("cuDeviceGetDefaultMemPool", "cuDeviceGetExecAffinitySupport")
  {
    PrecedesAt("cuDeviceGetDefaultMemPool", "cuDeviceGetExecAffinitySupport", 11);
  }

  lemma CudaVersionKey037BeforeKey038()
    ensures Precedes("cuDeviceGetExecAffinitySupport", "cuDeviceGetGraphMemAttribute")
  {
    PrecedesAt("cuDeviceGetExecAffinitySupport", "cuDeviceGetGraphMemAttribute", 11);
  }

  lemma CudaVersionKey038BeforeKey039()
    ensures Precedes("cuDeviceGetGraphMemAttribute", "cuDeviceGetLuid")
  {
    PrecedesAt("cuDeviceGetGraphMemAttribute", "cuDeviceGetLuid", 11);
  }

  lemma CudaVersionKey039BeforeKey040()
    ensures Precedes("cuDeviceGetLuid", "cuDeviceGetMemPool")
  {
    PrecedesAt("cuDeviceGetLuid", "cuDeviceGetMemPool", 11);
  }

  lemma CudaVersionKey040BeforeKey041()
    ensures Precedes("cuDeviceGetMemPool", "cuDeviceGetNvSciSyncAttributes")
  {
    PrecedesAt("cuDeviceGetMemPool", "cuDeviceGetNvSciSyncAttributes", 11);
  }

  lemma CudaVersionKey041BeforeKey042()
    ensures Precedes("cuDeviceGetNvSciSyncAttributes", "cuDeviceGetP2PAttribute")
  {
    PrecedesAt("cuDeviceGetNvSciSyncAttributes", "cuDeviceGetP2PAttribute", 11);
  }

  lemma CudaVersionKey042BeforeKey043()
    ensures Precedes("cuDeviceGetP2PAttribute", "cuDeviceGetProperties")
  {
    PrecedesAt("cuDeviceGetP2PAttribute", "cuDeviceGetProperties", 12);
  }

  lemma CudaVersionKey043BeforeKey044()
    ensures Precedes("cuDeviceGetProperties", "cuDeviceGetTexture1DLinearMaxWidth")
  {
    PrecedesAt("cuDeviceGetProperties", "cuDeviceGetTexture1DLinearMaxWidth", 11);
  }

  lemma CudaVersionKey044BeforeKey045()
    ensures Precedes("cuDeviceGetTexture1DLinearMaxWidth", "cuDeviceGetUuid")
  {
    PrecedesAt("cuDeviceGetTexture1DLinearMaxWidth", "cuDeviceGetUuid", 11);
  }

  lemma CudaVersionKey045BeforeKey046()
    ensures Precedes("cuDeviceGetUuid", "cuDeviceGetUuid_v2")
  {
    PrecedesAt("cuDeviceGetUuid", "cuDeviceGetUuid_v2", 15);
  }

  lemma CudaVersionKey046BeforeKey047()
    ensures Precedes("cuDeviceGetUuid_v2", "cuDeviceGraphMemTrim")
  {
    PrecedesAt("cuDeviceGetUuid_v2", "cuDeviceGraphMemTrim", 9);
  }

  lemma CudaVersionKey047BeforeKey048()
    ensures Precedes("cuDeviceGraphMemTrim", "cuDevicePrimaryCtxRelease_v2")
  {
    PrecedesAt("cuDeviceGraphMemTrim", "cuDevicePrimaryCtxRelease_v2", 8);
  }

  lemma CudaVersionKey048BeforeKey049()
    ensures Precedes("cuDevicePrimaryCtxRelease_v2", "cuDevicePrimaryCtxReset_v2")
  {
    PrecedesAt("cuDevicePrimaryCtxRelease_v2", "cuDevicePrimaryCtxReset_v2", 20);
  }

  lemma CudaVersionKey049BeforeKey050()
    ensures Precedes("cuDevicePrimaryCtxReset_v2", "cuDevicePrimaryCtxSetFlags_v2")
  {
    PrecedesAt("cuDevicePrimaryCtxReset_v2", "cuDevicePrimaryCtxSetFlags_v2", 18);
  }

  lemma CudaVersionKey050BeforeKey051()
    ensures Precedes("cuDevicePrimaryCtxSetFlags_v2", "cuDeviceSetGraphMemAttribute")
  {
    PrecedesAt("cuDevicePrimaryCtxSetFlags_v2", "cuDeviceSetGraphMemAttribute", 8);
  }

  lemma CudaVersionKey051BeforeKey052()
    ensures Precedes("cuDeviceSetGraphMemAttribute", "cuDeviceSetMemPool")
  {
    PrecedesAt("cuDeviceSetGraphMemAttribute", "cuDeviceSetMemPool", 11);
  }

  lemma CudaVersionKey052BeforeKey053()
    ensures Precedes("cuDeviceSetMemPool", "cuEGLStreamConsumerAcquireFrame")
  {
    PrecedesAt("cuDeviceSetMemPool", "cuEGLStreamConsumerAcquireFrame", 2);
  }

  lemma CudaVersionKey053BeforeKey054()
    ensures Precedes("cuEGLStreamConsumerAcquireFrame", "cuEGLStreamConsumerConnect")
  {
    PrecedesAt("cuEGLStreamConsumerAcquireFrame", "cuEGLStreamConsumerConnect", 19);
  }

  lemma CudaVersionKey054BeforeKey055()
    ensures Precedes("cuEGLStreamConsumerConnect", "cuEGLStreamConsumerConnectWithFlags")
  {
    PrecedesAt("cuEGLStreamConsumerConnect", "cuEGLStreamConsumerConnectWithFlags", 26);
  }

  lemma CudaVersionKey055BeforeKey056()
    ensures Precedes("cuEGLStreamConsumerConnectWithFlags", "cuEGLStreamConsumerDisconnect")
  {
    PrecedesAt("cuEGLStreamConsumerConnectWithFlags", "cuEGLStreamConsumerDisconnect", 19);
  }

  lemma CudaVersionKey056BeforeKey057()
    ensures Precedes("cuEGLStreamConsumerDisconnect", "cuEGLStreamConsumerReleaseFrame")
  {
    PrecedesAt("cuEGLStreamConsumerDisconnect", "cuEGLStreamConsumerReleaseFrame", 19);
  }

  lemma CudaVersionKey057BeforeKey058()
    ensures Precedes("cuEGLStreamConsumerReleaseFrame", "cuEGLStreamProducerConnect")
  {
    PrecedesAt("cuEGLStreamConsumerReleaseFrame", "cuEGLStreamProducerConnect", 11);
  }

  lemma CudaVersionKey058BeforeKey059()
    ensures Precedes("cuEGLStreamProducerConnect", "cuEGLStreamProducerDisconnect")
  {
    PrecedesAt("cuEGLStreamProducerConnect", "cuEGLStreamProducerDisconnect", 19);
  }

  lemma CudaVersionKey059BeforeKey060()
    ensures Precedes("cuEGLStreamProducerDisconnect", "cuEGLStreamProducerPresentFrame")
  {
    PrecedesAt("cuEGLStreamProducerDisconnect", "cuEGLStreamProducerPresentFrame", 19);
  }

  lemma CudaVersionKey060BeforeKey061()
    ensures Precedes("cuEGLStreamProducerPresentFrame", "cuEGLStreamProducerReturnFrame")
  {
    PrecedesAt("cuEGLStreamProducerPresentFrame", "cuEGLStreamProducerReturnFrame", 19);
  }

  lemma CudaVersionKey061BeforeKey062()
    ensures Precedes("cuEGLStreamProducerReturnFrame", "cuEventCreateFromEGLSync")
  {
    PrecedesAt("cuEGLStreamProducerReturnFrame", "cuEventCreateFromEGLSync", 3);
  }

  lemma CudaVersionKey062BeforeKey063()
    ensures Precedes("cuEventCreateFromEGLSync", "cuEventRecordWithFlags")
  {
    PrecedesAt("cuEventCreateFromEGLSync", "cuEventRecordWithFlags", 7);
  }

  lemma CudaVersionKey063BeforeKey064()
    ensures Precedes("cuEventRecordWithFlags", "cuExternalMemoryGetMappedBuffer")
  {
    PrecedesAt("cuEventRecordWithFlags", "cuExternalMemoryGetMappedBuffer", 3);
  }

  lemma CudaVersionKey064BeforeKey065()
    ensures Precedes("cuExternalMemoryGetMappedBuffer", "cuExternalMemoryGetMappedMipmappedArray")
  {
    PrecedesAt("cuExternalMemoryGetMappedBuffer", "cuExternalMemoryGetMappedMipmappedArray", 25);
  }

  lemma CudaVersionKey065BeforeKey066()
    ensures Precedes("cuExternalMemoryGetMappedMipmappedArray", "cuFlushGPUDirectRDMAWrites")
  {
    PrecedesAt("cuExternalMemoryGetMappedMipmappedArray", "cuFlushGPUDirectRDMAWrites", 2);
  }

  lemma CudaVersionKey066BeforeKey067()
    ensures Precedes("cuFlushGPUDirectRDMAWrites", "cuFuncGetModule")
  {
    PrecedesAt("cuFlushGPUDirectRDMAWrites", "cuFuncGetModule", 3);
  }

  lemma CudaVersionKey067BeforeKey068()
    ensures Precedes("cuFuncGetModule", "cuFuncSetAttribute")
  {
    PrecedesAt("cuFuncGetModule", "cuFuncSetAttribute", 6);
  }

  lemma CudaVersionKey068BeforeKey069()
    ensures Precedes("cuFuncSetAttribute", "cuFuncSetBlockShape")
  {
    PrecedesAt("cuFuncSetAttribute", "cuFuncSetBlockShape", 9);
  }

  lemma CudaVersionKey069BeforeKey070()
    ensures Precedes("cuFuncSetBlockShape", "cuFuncSetSharedSize")
  {
    PrecedesAt("cuFuncSetBlockShape", "cuFuncSetSharedSize", 9);
  }

  lemma CudaVersionKey070BeforeKey071()
    ensures Precedes("cuFuncSetSharedSize", "cuGLCtxCreate")
  {
    PrecedesAt("cuFuncSetSharedSize", "cuGLCtxCreate", 2);
  }

  lemma CudaVersionKey071BeforeKey072()
    ensures Precedes("cuGLCtxCreate", "cuGLInit")
  {
    PrecedesAt("cuGLCtxCreate", "cuGLInit", 4);
  }

  lemma CudaVersionKey072BeforeKey073()
    ensures Precedes("cuGLInit", "cuGLMapBufferObject")
  {
    PrecedesAt("cuGLInit", "cuGLMapBufferObject", 4);
  }

  lemma CudaVersionKey073BeforeKey074()
    ensures Precedes("cuGLMapBufferObject", "cuGLMapBufferObjectAsync")
  {
    PrecedesAt("cuGLMapBufferObject", "cuGLMapBufferObjectAsync", 19);
  }

  lemma CudaVersionKey074BeforeKey075()
    ensures Precedes("cuGLMapBufferObjectAsync", "cuGLRegisterBufferObject")
  {
    PrecedesAt("cuGLMapBufferObjectAsync", "cuGLRegisterBufferObject", 4);
  }

  lemma CudaVersionKey075BeforeKey076()
    ensures Precedes("cuGLRegisterBufferObject", "cuGLSetBufferObjectMapFlags")
  {
    PrecedesAt("cuGLRegisterBufferObject", "cuGLSetBufferObjectMapFlags", 4);
  }

  lemma CudaVersionKey076BeforeKey077()
    ensures Precedes("cuGLSetBufferObjectMapFlags", "cuGLUnmapBufferObject")
  {
    PrecedesAt("cuGLSetBufferObjectMapFlags", "cuGLUnmapBufferObject", 4);
  }

  lemma CudaVersionKey077BeforeKey078()
    ensures Precedes("cuGLUnmapBufferObject", "cuGLUnmapBufferObjectAsync")
  {
    PrecedesAt("cuGLUnmapBufferObject", "cuGLUnmapBufferObjectAsync", 21);
  }

  lemma CudaVersionKey078BeforeKey079()
    ensures Precedes("cuGLUnmapBufferObjectAsync", "cuGLUnregisterBufferObject")
  {
    PrecedesAt("cuGLUnmapBufferObjectAsync", "cuGLUnregisterBufferObject", 6);
  }

  lemma CudaVersionKey079BeforeKey080()
    ensures Precedes("cuGLUnregisterBufferObject", "cuGetProcAddress")
  {
    PrecedesAt("cuGLUnregisterBufferObject", "cuGetProcAddress", 3);
  }

  lemma CudaVersionKey080BeforeKey081()
    ensures Precedes("cuGetProcAddress", "cuGraphAddBatchMemOpNode")
  {
    PrecedesAt("cuGetProcAddress", "cuGraphAddBatchMemOpNode", 3);
  }

  lemma CudaVersionKey081BeforeKey082()
    ensures Precedes("cuGraphAddBatchMemOpNode", "cuGraphAddChildGraphNode")
  {
    PrecedesAt("cuGraphAddBatchMemOpNode", "cuGraphAddChildGraphNode", 10);
  }

  lemma CudaVersionKey082BeforeKey083()
    ensures Precedes("cuGraphAddChildGraphNode", "cuGraphAddDependencies")
  {
    PrecedesAt("cuGraphAddChildGraphNode", "cuGraphAddDependencies", 10);
  }

  lemma CudaVersionKey083BeforeKey084()
    ensures Precedes("cuGraphAddDependencies", "cuGraphAddEmptyNode")
  {
    PrecedesAt("cuGraphAddDependencies", "cuGraphAddEmptyNode", 10);
  }

  lemma CudaVersionKey084BeforeKey085()
    ensures Precedes("cuGraphAddEmptyNode", "cuGraphAddEventRecordNode")
  {
    PrecedesAt("cuGraphAddEmptyNode", "cuGraphAddEventRecordNode", 11);
  }

  lemma CudaVersionKey085BeforeKey086()
    ensures Precedes("cuGraphAddEventRecordNode", "cuGraphAddEventWaitNode")
  {
    PrecedesAt("cuGraphAddEventRecordNode", "cuGraphAddEventWaitNode", 15);
  }

  lemma CudaVersionKey086BeforeKey087()
    ensures Precedes("cuGraphAddEventWaitNode", "cuGraphAddExternalSemaphoresSignalNode")
  {
    PrecedesAt("cuGraphAddEventWaitNode", "cuGraphAddExternalSemaphoresSignalNode", 11);
  }

  lemma CudaVersionKey087BeforeKey088()
    ensures Precedes("cuGraphAddExternalSemaphoresSignalNode", "cuGraphAddExternalSemaphoresWaitNode")
  {
    PrecedesAt("cuGraphAddExternalSemaphoresSignalNode", "cuGraphAddExternalSemaphoresWaitNode", 28);
  }

  lemma CudaVersionKey088BeforeKey089()
    ensures Precedes("cuGraphAddExternalSemaphoresWaitNode", "cuGraphAddHostNode")
  {
    PrecedesAt("cuGraphAddExternalSemaphoresWaitNode", "cuGraphAddHostNode", 10);
  }

  lemma CudaVersionKey089BeforeKey090()
    ensures Precedes("cuGraphAddHostNode", "cuGraphAddKernelNode")
  {
    PrecedesAt("cuGraphAddHostNode", "cuGraphAddKernelNode", 10);
  }

  lemma CudaVersionKey090BeforeKey091()
    ensures Precedes("cuGraphAddKernelNode", "cuGraphAddMemAllocNode")
  {
    PrecedesAt("cuGraphAddKernelNode", "cuGraphAddMemAllocNode", 10);
  }

  lemma CudaVersionKey091BeforeKey092()
    ensures Precedes("cuGraphAddMemAllocNode", "cuGraphAddMemFreeNode")
  {
    PrecedesAt("cuGraphAddMemAllocNode", "cuGraphAddMemFreeNode", 13);
  }

  lemma CudaVersionKey092BeforeKey093()
    ensures Precedes("cuGraphAddMemFreeNode", "cuGraphAddMemcpyNode")
  {
    PrecedesAt("cuGraphAddMemFreeNode", "cuGraphAddMemcpyNode", 13);
  }

  lemma CudaVersionKey093BeforeKey094()
    ensures Precedes("cuGraphAddMemcpyNode", "cuGraphAddMemsetNode")
  {
    PrecedesAt("cuGraphAddMemcpyNode", "cuGraphAddMemsetNode", 13);
  }

  lemma CudaVersionKey094BeforeKey095()
    ensures Precedes("cuGraphAddMemsetNode", "cuGraphBatchMemOpNodeGetParams")
  {
    PrecedesAt("cuGraphAddMemsetNode", "cuGraphBatchMemOpNodeGetParams", 7);
  }

  lemma CudaVersionKey095BeforeKey096()
    ensures Precedes("cuGraphBatchMemOpNodeGetParams", "cuGraphBatchMemOpNodeSetParams")
  {
    PrecedesAt("cuGraphBatchMemOpNodeGetParams", "cuGraphBatchMemOpNodeSetParams", 21);
  }

  lemma CudaVersionKey096BeforeKey097()
    ensures Precedes("cuGraphBatchMemOpNodeSetParams", "cuGraphChildGraphNodeGetGraph")
  {
    PrecedesAt("cuGraphBatchMemOpNodeSetParams", "cuGraphChildGraphNodeGetGraph", 7);
  }

  lemma CudaVersionKey097BeforeKey098()
    ensures Precedes("cuGraphChildGraphNodeGetGraph", "cuGraphClone")
  {
    PrecedesAt("cuGraphChildGraphNodeGetGraph", "cuGraphClone", 8);
  }

  lemma CudaVersionKey098BeforeKey099()
    ensures Precedes("cuGraphClone", "cuGraphCreate")
  {
    PrecedesAt("cuGraphClone", "cuGraphCreate", 8);
  }

  lemma CudaVersionKey099BeforeKey100()
    ensures Precedes("cuGraphCreate", "cuGraphDebugDotPrint")
  {
    PrecedesAt("cuGraphCreate", "cuGraphDebugDotPrint", 7);
  }

  lemma CudaVersionKey100BeforeKey101()
    ensures Precedes("cuGraphDebugDotPrint", "cuGraphDestroy")
  {
    PrecedesAt("cuGraphDebugDotPrint", "cuGraphDestroy", 9);
  }

  lemma CudaVersionKey101BeforeKey102()
    ensures Precedes("cuGraphDestroy", "cuGraphDestroyNode")
  {
    PrecedesAt("cuGraphDestroy", "cuGraphDestroyNode", 14);
  }

  lemma CudaVersionKey102BeforeKey103()
    ensures Precedes("cuGraphDestroyNode", "cuGraphEventRecordNodeGetEvent")
  {
    PrecedesAt("cuGraphDestroyNode", "cuGraphEventRecordNodeGetEvent", 7);
  }

  lemma CudaVersionKey103BeforeKey104()
    ensures Precedes("cuGraphEventRecordNodeGetEvent", "cuGraphEventRecordNodeSetEvent")
  {
    PrecedesAt("cuGraphEventRecordNodeGetEvent", "cuGraphEventRecordNodeSetEvent", 22);
  }

  lemma CudaVersionKey104BeforeKey105()
    ensures Precedes("cuGraphEventRecordNodeSetEvent", "cuGraphEventWaitNodeGetEvent")
  {
    PrecedesAt("cuGraphEventRecordNodeSetEvent", "cuGraphEventWaitNodeGetEvent", 12);
  }

  lemma CudaVersionKey105BeforeKey106()
    ensures Precedes("cuGraphEventWaitNodeGetEvent", "cuGraphEventWaitNodeSetEvent")
  {
    PrecedesAt("cuGraphEventWaitNodeGetEvent", "cuGraphEventWaitNodeSetEvent", 20);
  }

  lemma CudaVersionKey106BeforeKey107()
    ensures Precedes("cuGraphEventWaitNodeSetEvent", "cuGraphExecBatchMemOpNodeSetParams")
  {
    PrecedesAt("cuGraphEventWaitNodeSetEvent", "cuGraphExecBatchMemOpNodeSetParams", 8);
  }

  lemma CudaVersionKey107BeforeKey108()
    ensures Precedes("cuGraphExecBatchMemOpNodeSetParams", "cuGraphExecChildGraphNodeSetParams")
  {
    PrecedesAt("cuGraphExecBatchMemOpNodeSetParams", "cuGraphExecChildGraphNodeSetParams", 11);
  }

  lemma CudaVersionKey108BeforeKey109()
    ensures Precedes("cuGraphExecChildGraphNodeSetParams", "cuGraphExecDestroy")
  {
    PrecedesAt("cuGraphExecChildGraphNodeSetParams", "cuGraphExecDestroy", 11);
  }

  lemma CudaVersionKey109BeforeKey110()
    ensures Precedes("cuGraphExecDestroy", "cuGraphExecEventRecordNodeSetEvent")
  {
    PrecedesAt("cuGraphExecDestroy", "cuGraphExecEventRecordNodeSetEvent", 11);
  }

  lemma CudaVersionKey110BeforeKey111()
    ensures Precedes("cuGraphExecEventRecordNodeSetEvent", "cuGraphExecEventWaitNodeSetEvent")
  {
    PrecedesAt("cuGraphExecEventRecordNodeSetEvent", "cuGraphExecEventWaitNodeSetEvent", 16);
  }

  lemma CudaVersionKey111BeforeKey112()
    ensures Precedes("cuGraphExecEventWaitNodeSetEvent", "cuGraphExecExternalSemaphoresSignalNodeSetParams")
  {
    PrecedesAt("cuGraphExecEventWaitNodeSetEvent", "cuGraphExecExternalSemaphoresSignalNodeSetParams", 12);
  }

  lemma CudaVersionKey112BeforeKey113()
    ensures Precedes("cuGraphExecExternalSemaphoresSignalNodeSetParams", "cuGraphExecExternalSemaphoresWaitNodeSetParams")
  {
    PrecedesAt("cuGraphExecExternalSemaphoresSignalNodeSetParams", "cuGraphExecExternalSemaphoresWaitNodeSetParams", 29);
  }

  lemma CudaVersionKey113BeforeKey114()
    ensures Precedes("cuGraphExecExternalSemaphoresWaitNodeSetParams", "cuGraphExecGetFlags")
  {
    PrecedesAt("cuGraphExecExternalSemaphoresWaitNodeSetParams", "cuGraphExecGetFlags", 11);
  }

  lemma CudaVersionKey114BeforeKey115()
    ensures Precedes("cuGraphExecGetFlags", "cuGraphExecHostNodeSetParams")
  {
    PrecedesAt("cuGraphExecGetFlags", "cuGraphExecHostNodeSetParams", 11);
  }

  lemma CudaVersionKey115BeforeKey116()
    ensures Precedes("cuGraphExecHostNodeSetParams", "cuGraphExecKernelNodeSetParams")
  {
    PrecedesAt("cuGraphExecHostNodeSetParams", "cuGraphExecKernelNodeSetParams", 11);
  }

  lemma CudaVersionKey116BeforeKey117()
    ensures Precedes("cuGraphExecKernelNodeSetParams", "cuGraphExecMemcpyNodeSetParams")
  {
    PrecedesAt("cuGraphExecKernelNodeSetParams", "cuGraphExecMemcpyNodeSetParams", 11);
  }

  lemma CudaVersionKey117BeforeKey118()
    ensures Precedes("cuGraphExecMemcpyNodeSetParams", "cuGraphExecMemsetNodeSetParams")
  {
    PrecedesAt("cuGraphExecMemcpyNodeSetParams", "cuGraphExecMemsetNodeSetParams", 14);
  }

  lemma CudaVersionKey118BeforeKey119()
    ensures Precedes("cuGraphExecMemsetNodeSetParams", "cuGraphExecUpdate")
  {
    PrecedesAt("cuGraphExecMemsetNodeSetParams", "cuGraphExecUpdate", 11);
  }

  lemma CudaVersionKey119BeforeKey120()
    ensures Precedes("cuGraphExecUpdate", "cuGraphExternalSemaphoresSignalNodeGetParams")
  {
    PrecedesAt("cuGraphExecUpdate", "cuGraphExternalSemaphoresSignalNodeGetParams", 9);
  }

  lemma CudaVersionKey120BeforeKey121()
    ensures Precedes("cuGraphExternalSemaphoresSignalNodeGetParams", "cuGraphExternalSemaphoresSignalNodeSetParams")
  {
    PrecedesAt("cuGraphExternalSemaphoresSignalNodeGetParams", "cuGraphExternalSemaphoresSignalNodeSetParams", 35);
  }

  lemma CudaVersionKey121BeforeKey122()
    ensures Precedes("cuGraphExternalSemaphoresSignalNodeSetParams", "cuGraphExternalSemaphoresWaitNodeGetParams")
  {
    PrecedesAt("cuGraphExternalSemaphoresSignalNodeSetParams", "cuGraphExternalSemaphoresWaitNodeGetParams", 25);
  }

  lemma CudaVersionKey122BeforeKey123()
    ensures Precedes("cuGraphExternalSemaphoresWaitNodeGetParams", "cuGraphExternalSemaphoresWaitNodeSetParams")
  {
    PrecedesAt("cuGraphExternalSemaphoresWaitNodeGetParams", "cuGraphExternalSemaphoresWaitNodeSetParams", 33);
  }

  lemma CudaVersionKey123BeforeKey124()
    ensures Precedes("cuGraphExternalSemaphoresWaitNodeSetParams", "cuGraphGetEdges")
  {
    PrecedesAt("cuGraphExternalSemaphoresWaitNodeSetParams", "cuGraphGetEdges", 7);
  }

  lemma CudaVersionKey124BeforeKey125()
    ensures Precedes("cuGraphGetEdges", "cuGraphGetNodes")
  {
    PrecedesAt("cuGraphGetEdges", "cuGraphGetNodes", 10);
  }

  lemma CudaVersionKey125BeforeKey126()
    ensures Precedes("cuGraphGetNodes", "cuGraphGetRootNodes")
  {
    PrecedesAt("cuGraphGetNodes", "cuGraphGetRootNodes", 10);
  }

  lemma CudaVersionKey126BeforeKey127()
    ensures Precedes("cuGraphGetRootNodes", "cuGraphHostNodeGetParams")
  {
    PrecedesAt("cuGraphGetRootNodes", "cuGraphHostNodeGetParams", 7);
  }

  lemma CudaVersionKey127BeforeKey128()
    ensures Precedes("cuGraphHostNodeGetParams", "cuGraphHostNodeSetParams")
  {
    PrecedesAt("cuGraphHostNodeGetParams", "cuGraphHostNodeSetParams", 15);
  }

  lemma CudaVersionKey128BeforeKey129()
    ensures Precedes("cuGraphHostNodeSetParams", "cuGraphInstantiate")
  {
    PrecedesAt("cuGraphHostNodeSetParams", "cuGraphInstantiate", 7);
  }

  lemma CudaVersionKey129BeforeKey130()
    ensures Precedes("cuGraphInstantiate", "cuGraphInstantiateWithFlags")
  {
    PrecedesAt("cuGraphInstantiate", "cuGraphInstantiateWithFlags", 18);
  }

  lemma CudaVersionKey130BeforeKey131()
    ensures Precedes("cuGraphInstantiateWithFlags", "cuGraphInstantiateWithParams")
  {
    PrecedesAt("cuGraphInstantiateWithFlags", "cuGraphInstantiateWithParams", 22);
  }

  lemma CudaVersionKey131BeforeKey132()
    ensures Precedes("cuGraphInstantiateWithParams", "cuGraphInstantiate_v2")
  {
    PrecedesAt("cuGraphInstantiateWithParams", "cuGraphInstantiate_v2", 18);
  }

  lemma CudaVersionKey132BeforeKey133()
    ensures Precedes("cuGraphInstantiate_v2", "cuGraphKernelNodeCopyAttributes")
  {
    PrecedesAt("cuGraphInstantiate_v2", "cuGraphKernelNodeCopyAttributes", 7);
  }

  lemma CudaVersionKey133BeforeKey134()
    ensures Precedes("cuGraphKernelNodeCopyAttributes", "cuGraphKernelNodeGetAttribute")
  {
    PrecedesAt("cuGraphKernelNodeCopyAttributes", "cuGraphKernelNodeGetAttribute", 17);
  }

  lemma CudaVersionKey134BeforeKey135()
    ensures Precedes("cuGraphKernelNodeGetAttribute", "cuGraphKernelNodeGetParams")
  {
    PrecedesAt("cuGraphKernelNodeGetAttribute", "cuGraphKernelNodeGetParams", 20);
  }

  lemma CudaVersionKey135BeforeKey136()
    ensures Precedes("cuGraphKernelNodeGetParams", "cuGraphKernelNodeSetAttribute")
  {
    PrecedesAt("cuGraphKernelNodeGetParams", "cuGraphKernelNodeSetAttribute", 17);
  }

  lemma CudaVersionKey136BeforeKey137()
    ensures Precedes("cuGraphKernelNodeSetAttribute", "cuGraphKernelNodeSetParams")
  {
    PrecedesAt("cuGraphKernelNodeSetAttribute", "cuGraphKernelNodeSetParams", 20);
  }

  lemma CudaVersionKey137BeforeKey138()
    ensures Precedes("cuGraphKernelNodeSetParams", "cuGraphLaunch")
  {
    PrecedesAt("cuGraphKernelNodeSetParams", "cuGraphLaunch", 7);
  }

  lemma CudaVersionKey138BeforeKey139()
    ensures Precedes("cuGraphLaunch", "cuGraphMemAllocNodeGetParams")
  {
    PrecedesAt("cuGraphLaunch", "cuGraphMemAllocNodeGetParams", 7);
  }

  lemma CudaVersionKey139BeforeKey140()
    ensures Precedes("cuGraphMemAllocNodeGetParams", "cuGraphMemFreeNodeGetParams")
  {
    PrecedesAt("cuGraphMemAllocNodeGetParams", "cuGraphMemFreeNodeGetParams", 10);
  }

  lemma CudaVersionKey140BeforeKey141()
    ensures Precedes("cuGraphMemFreeNodeGetParams", "cuGraphMemcpyNodeGetParams")
  {
    PrecedesAt("cuGraphMemFreeNodeGetParams", "cuGraphMemcpyNodeGetParams", 10);
  }

  lemma CudaVersionKey141BeforeKey142()
    ensures Precedes("cuGraphMemcpyNodeGetParams", "cuGraphMemcpyNodeSetParams")
  {
    PrecedesAt("cuGraphMemcpyNodeGetParams", "cuGraphMemcpyNodeSetParams", 17);
  }

  lemma CudaVersionKey142BeforeKey143()
    ensures Precedes("cuGraphMemcpyNodeSetParams", "cuGraphMemsetNodeGetParams")
  {
    PrecedesAt("cuGraphMemcpyNodeSetParams", "cuGraphMemsetNodeGetParams", 10);
  }

  lemma CudaVersionKey143BeforeKey144()
    ensures Precedes("cuGraphMemsetNodeGetParams", "cuGraphMemsetNodeSetParams")
  {
    PrecedesAt("cuGraphMemsetNodeGetParams", "cuGraphMemsetNodeSetParams", 17);
  }

  lemma CudaVersionKey144BeforeKey145()
    ensures Precedes("cuGraphMemsetNodeSetParams", "cuGraphNodeFindInClone")
  {
    PrecedesAt("cuGraphMemsetNodeSetParams", "cuGraphNodeFindInClone", 7);
  }

  lemma CudaVersionKey145BeforeKey146()
    ensures Precedes("cuGraphNodeFindInClone", "cuGraphNodeGetDependencies")
  {
    PrecedesAt("cuGraphNodeFindInClone", "cuGraphNodeGetDependencies", 11);
  }

  lemma CudaVersionKey146BeforeKey147()
    ensures Precedes("cuGraphNodeGetDependencies", "cuGraphNodeGetDependentNodes")
  {
    PrecedesAt("cuGraphNodeGetDependencies", "cuGraphNodeGetDependentNodes", 22);
  }

  lemma CudaVersionKey147BeforeKey148()
    ensures Precedes("cuGraphNodeGetDependentNodes", "cuGraphNodeGetEnabled")
  {
    PrecedesAt("cuGraphNodeGetDependentNodes", "cuGraphNodeGetEnabled", 14);
  }

  lemma CudaVersionKey148BeforeKey149()
    ensures Precedes("cuGraphNodeGetEnabled", "cuGraphNodeGetType")
  {
    PrecedesAt("cuGraphNodeGetEnabled", "cuGraphNodeGetType", 14);
  }

  lemma CudaVersionKey149BeforeKey150()
    ensures Precedes("cuGraphNodeGetType", "cuGraphNodeSetEnabled")
  {
    PrecedesAt("cuGraphNodeGetType", "cuGraphNodeSetEnabled", 11);
  }

  lemma CudaVersionKey150BeforeKey151()
    ensures Precedes("cuGraphNodeSetEnabled", "cuGraphReleaseUserObject")
  {
    PrecedesAt("cuGraphNodeSetEnabled", "cuGraphReleaseUserObject", 7);
  }

  lemma CudaVersionKey151BeforeKey152()
    ensures Precedes("cuGraphReleaseUserObject", "cuGraphRemoveDependencies")
  {
    PrecedesAt("cuGraphReleaseUserObject", "cuGraphRemoveDependencies", 9);
  }

  lemma CudaVersionKey152BeforeKey153()
    ensures Precedes("cuGraphRemoveDependencies", "cuGraphRetainUserObject")
  {
    PrecedesAt("cuGraphRemoveDependencies", "cuGraphRetainUserObject", 9);
  }

  lemma CudaVersionKey153BeforeKey154()
    ensures Precedes("cuGraphRetainUserObject", "cuGraphUpload")
  {
    PrecedesAt("cuGraphRetainUserObject", "cuGraphUpload", 7);
  }

  lemma CudaVersionKey154BeforeKey155()
    ensures Precedes("cuGraphUpload", "cuGraphicsEGLRegisterImage")
  {
    PrecedesAt("cuGraphUpload", "cuGraphicsEGLRegisterImage", 7);
  }

  lemma CudaVersionKey155BeforeKey156()
    ensures Precedes("cuGraphicsEGLRegisterImage", "cuGraphicsResourceGetMappedEglFrame")
  {
    PrecedesAt("cuGraphicsEGLRegisterImage", "cuGraphicsResourceGetMappedEglFrame", 10);
  }

  lemma CudaVersionKey156BeforeKey157()
    ensures Precedes("cuGraphicsResourceGetMappedEglFrame", "cuImportExternalMemory")
  {
    PrecedesAt("cuGraphicsResourceGetMappedEglFrame", "cuImportExternalMemory", 2);
  }

  lemma CudaVersionKey157BeforeKey158()
    ensures Precedes("cuImportExternalMemory", "cuImportExternalSemaphore")
  {
    PrecedesAt("cuImportExternalMemory", "cuImportExternalSemaphore", 16);
  }

  lemma CudaVersionKey158BeforeKey159()
    ensures Precedes("cuImportExternalSemaphore", "cuKernelGetAttribute")
  {
    PrecedesAt("cuImportExternalSemaphore", "cuKernelGetAttribute", 2);
  }

  lemma CudaVersionKey159BeforeKey160()
    ensures Precedes("cuKernelGetAttribute", "cuKernelGetFunction")
  {
    PrecedesAt("cuKernelGetAttribute", "cuKernelGetFunction", 11);
  }

  lemma CudaVersionKey160BeforeKey161()
    ensures Precedes("cuKernelGetFunction", "cuKernelSetAttribute")
  {
    PrecedesAt("cuKernelGetFunction", "cuKernelSetAttribute", 8);
  }

  lemma CudaVersionKey161BeforeKey162()
    ensures Precedes("cuKernelSetAttribute", "cuKernelSetCacheConfig")
  {
    PrecedesAt("cuKernelSetAttribute", "cuKernelSetCacheConfig", 11);
  }

  lemma CudaVersionKey162BeforeKey163()
    ensures Precedes("cuKernelSetCacheConfig", "cuLaunch")
  {
    PrecedesAt("cuKernelSetCacheConfig", "cuLaunch", 2);
  }

  lemma CudaVersionKey163BeforeKey164()
    ensures Precedes("cuLaunch", "cuLaunchCooperativeKernel")
  {
    PrecedesAt("cuLaunch", "cuLaunchCooperativeKernel", 8);
  }

  lemma CudaVersionKey164BeforeKey165()
    ensures Precedes("cuLaunchCooperativeKernel", "cuLaunchCooperativeKernelMultiDevice")
  {
    PrecedesAt("cuLaunchCooperativeKernel", "cuLaunchCooperativeKernelMultiDevice", 25);
  }

  lemma CudaVersionKey165BeforeKey166()
    ensures Precedes("cuLaunchCooperativeKernelMultiDevice", "cuLaunchGrid")
  {
    PrecedesAt("cuLaunchCooperativeKernelMultiDevice", "cuLaunchGrid", 8);
  }

  lemma CudaVersionKey166BeforeKey167()
    ensures Precedes("cuLaunchGrid", "cuLaunchGridAsync")
  {
    PrecedesAt("cuLaunchGrid", "cuLaunchGridAsync", 12);
  }

  lemma CudaVersionKey167BeforeKey168()
    ensures Precedes("cuLaunchGridAsync", "cuLaunchHostFunc")
  {
    PrecedesAt("cuLaunchGridAsync", "cuLaunchHostFunc", 8);
  }

  lemma CudaVersionKey168BeforeKey169()
    ensures Precedes("cuLaunchHostFunc", "cuLaunchKernelEx")
  {
    PrecedesAt("cuLaunchHostFunc", "cuLaunchKernelEx", 8);
  }

  lemma CudaVersionKey169BeforeKey170()
    ensures Precedes("cuLaunchKernelEx", "cuLibraryGetGlobal")
  {
    PrecedesAt("cuLaunchKernelEx", "cuLibraryGetGlobal", 3);
  }

  lemma CudaVersionKey170BeforeKey171()
    ensures Precedes("cuLibraryGetGlobal", "cuLibraryGetKernel")
  {
    PrecedesAt("cuLibraryGetGlobal", "cuLibraryGetKernel", 12);
  }

  lemma CudaVersionKey171BeforeKey172()
    ensures Precedes("cuLibraryGetKernel", "cuLibraryGetManaged")
  {
    PrecedesAt("cuLibraryGetKernel", "cuLibraryGetManaged", 12);
  }

  lemma CudaVersionKey172BeforeKey173()
    ensures Precedes("cuLibraryGetManaged", "cuLibraryGetModule")
  {
    PrecedesAt("cuLibraryGetManaged", "cuLibraryGetModule", 13);
  }

  lemma CudaVersionKey173BeforeKey174()
    ensures Precedes("cuLibraryGetModule", "cuLibraryGetUnifiedFunction")
  {
    PrecedesAt("cuLibraryGetModule", "cuLibraryGetUnifiedFunction", 12);
  }

  lemma CudaVersionKey174BeforeKey175()
    ensures Precedes("cuLibraryGetUnifiedFunction", "cuLibraryLoadData")
  {
    PrecedesAt("cuLibraryGetUnifiedFunction", "cuLibraryLoadData", 9);
  }

  lemma CudaVersionKey175BeforeKey176()
    ensures Precedes("cuLibraryLoadData", "cuLibraryLoadFromFile")
  {
    PrecedesAt("cuLibraryLoadData", "cuLibraryLoadFromFile", 13);
  }

  lemma CudaVersionKey176BeforeKey177()
    ensures Precedes("cuLibraryLoadFromFile", "cuLibraryUnload")
  {
    PrecedesAt("cuLibraryLoadFromFile", "cuLibraryUnload", 9);
  }

  lemma CudaVersionKey177BeforeKey178()
    ensures Precedes("cuLibraryUnload", "cuMemAddressFree")
  {
    PrecedesAt("cuLibraryUnload", "cuMemAddressFree", 2);
  }

  lemma CudaVersionKey178BeforeKey179()
    ensures Precedes("cuMemAddressFree", "cuMemAddressReserve")
  {
    PrecedesAt("cuMemAddressFree", "cuMemAddressReserve", 12);
  }

  lemma CudaVersionKey179BeforeKey180()
    ensures Precedes("cuMemAddressReserve", "cuMemAdvise")
  {
    PrecedesAt("cuMemAddressReserve", "cuMemAdvise", 7);
  }

  lemma CudaVersionKey180BeforeKey181()
    ensures Precedes("cuMemAdvise", "cuMemAllocAsync")
  {
    PrecedesAt("cuMemAdvise", "cuMemAllocAsync", 6);
  }

  lemma CudaVersionKey181BeforeKey182()
    ensures Precedes("cuMemAllocAsync", "cuMemAllocFromPoolAsync")
  {
    PrecedesAt("cuMemAllocAsync", "cuMemAllocFromPoolAsync", 10);
  }

  lemma CudaVersionKey182BeforeKey183()
    ensures Precedes("cuMemAllocFromPoolAsync", "cuMemCreate")
  {
    PrecedesAt("cuMemAllocFromPoolAsync", "cuMemCreate", 5);
  }

  lemma CudaVersionKey183BeforeKey184()
    ensures Precedes("cuMemCreate", "cuMemExportToShareableHandle")
  {
    PrecedesAt("cuMemCreate", "cuMemExportToShareableHandle", 5);
  }

  lemma CudaVersionKey184BeforeKey185()
    ensures Precedes("cuMemExportToShareableHandle", "cuMemFreeAsync")
  {
    PrecedesAt("cuMemExportToShareableHandle", "cuMemFreeAsync", 5);
  }

  lemma CudaVersionKey185BeforeKey186()
    ensures Precedes("cuMemFreeAsync", "cuMemGetAccess")
  {
    PrecedesAt("cuMemFreeAsync", "cuMemGetAccess", 5);
  }

  lemma CudaVersionKey186BeforeKey187()
    ensures Precedes("cuMemGetAccess", "cuMemGetAllocationGranularity")
  {
    PrecedesAt("cuMemGetAccess", "cuMemGetAllocationGranularity", 9);
  }

  lemma CudaVersionKey187BeforeKey188()
    ensures Precedes("cuMemGetAllocationGranularity", "cuMemGetAllocationPropertiesFromHandle")
  {
    PrecedesAt("cuMemGetAllocationGranularity", "cuMemGetAllocationPropertiesFromHandle", 18);
  }

  lemma CudaVersionKey188BeforeKey189()
    ensures Precedes("cuMemGetAllocationPropertiesFromHandle", "cuMemGetHandleForAddressRange")
  {
    PrecedesAt("cuMemGetAllocationPropertiesFromHandle", "cuMemGetHandleForAddressRange", 8);
  }

  lemma CudaVersionKey189BeforeKey190()
    ensures Precedes("cuMemGetHandleForAddressRange", "cuMemImportFromShareableHandle")
  {
    PrecedesAt("cuMemGetHandleForAddressRange", "cuMemImportFromShareableHandle", 5);
  }

  lemma CudaVersionKey190BeforeKey191()
    ensures Precedes("cuMemImportFromShareableHandle", "cuMemMap")
  {
    PrecedesAt("cuMemImportFromShareableHandle", "cuMemMap", 5);
  }

  lemma CudaVersionKey191BeforeKey192()
    ensures Precedes("cuMemMap", "cuMemMapArrayAsync")
  {
    PrecedesAt("cuMemMap", "cuMemMapArrayAsync", 8);
  }

  lemma CudaVersionKey192BeforeKey193()
    ensures Precedes("cuMemMapArrayAsync", "cuMemPoolCreate")
  {
    PrecedesAt("cuMemMapArrayAsync", "cuMemPoolCreate", 5);
  }

  lemma CudaVersionKey193BeforeKey194()
    ensures Precedes("cuMemPoolCreate", "cuMemPoolDestroy")
  {
    PrecedesAt("cuMemPoolCreate", "cuMemPoolDestroy", 9);
  }

  lemma CudaVersionKey194BeforeKey195()
    ensures Precedes("cuMemPoolDestroy", "cuMemPoolExportPointer")
  {
    PrecedesAt("cuMemPoolDestroy", "cuMemPoolExportPointer", 9);
  }

  lemma CudaVersionKey195BeforeKey196()
    ensures Precedes("cuMemPoolExportPointer", "cuMemPoolExportToShareableHandle")
  {
    PrecedesAt("cuMemPoolExportPointer", "cuMemPoolExportToShareableHandle", 15);
  }

  lemma CudaVersionKey196BeforeKey197()
    ensures Precedes("cuMemPoolExportToShareableHandle", "cuMemPoolGetAccess")
  {
    PrecedesAt("cuMemPoolExportToShareableHandle", "cuMemPoolGetAccess", 9);
  }

  lemma CudaVersionKey197BeforeKey198()
    ensures Precedes("cuMemPoolGetAccess", "cuMemPoolGetAttribute")
  {
    PrecedesAt("cuMemPoolGetAccess", "cuMemPoolGetAttribute", 13);
  }

  lemma CudaVersionKey198BeforeKey199()
    ensures Precedes("cuMemPoolGetAttribute", "cuMemPoolImportFromShareableHandle")
  {
    PrecedesAt("cuMemPoolGetAttribute", "cuMemPoolImportFromShareableHandle", 9);
  }

  lemma CudaVersionKey199BeforeKey200()
    ensures Precedes("cuMemPoolImportFromShareableHandle", "cuMemPoolImportPointer")
  {
    PrecedesAt("cuMemPoolImportFromShareableHandle", "cuMemPoolImportPointer", 15);
  }

  lemma CudaVersionKey200BeforeKey201()
    ensures Precedes("cuMemPoolImportPointer", "cuMemPoolSetAccess")
  {
    PrecedesAt("cuMemPoolImportPointer", "cuMemPoolSetAccess", 9);
  }

  lemma CudaVersionKey201BeforeKey202()
    ensures Precedes("cuMemPoolSetAccess", "cuMemPoolSetAttribute")
  {
    PrecedesAt("cuMemPoolSetAccess", "cuMemPoolSetAttribute", 13);
  }

  lemma CudaVersionKey202BeforeKey203()
    ensures Precedes("cuMemPoolSetAttribute", "cuMemPoolTrimTo")
  {
    PrecedesAt("cuMemPoolSetAttribute", "cuMemPoolTrimTo", 9);
  }

  lemma CudaVersionKey203BeforeKey204()
    ensures Precedes("cuMemPoolTrimTo", "cuMemPrefetchAsync")
  {
    PrecedesAt("cuMemPoolTrimTo", "cuMemPrefetchAsync", 6);
  }

  lemma CudaVersionKey204BeforeKey205()
    ensures Precedes("cuMemPrefetchAsync", "cuMemRangeGetAttribute")
  {
    PrecedesAt("cuMemPrefetchAsync", "cuMemRangeGetAttribute", 5);
  }

  lemma CudaVersionKey205BeforeKey206()
    ensures Precedes("cuMemRangeGetAttribute", "cuMemRangeGetAttributes")
  {
    PrecedesAt("cuMemRangeGetAttribute", "cuMemRangeGetAttributes", 22);
  }

  lemma CudaVersionKey206BeforeKey207()
    ensures Precedes("cuMemRangeGetAttributes", "cuMemRelease")
  {
    PrecedesAt("cuMemRangeGetAttributes", "cuMemRelease", 6);
  }

  lemma CudaVersionKey207BeforeKey208()
    ensures Precedes("cuMemRelease", "cuMemRetainAllocationHandle")
  {
    PrecedesAt("cuMemRelease", "cuMemRetainAllocationHandle", 7);
  }

  lemma CudaVersionKey208BeforeKey209()
    ensures Precedes("cuMemRetainAllocationHandle", "cuMemSetAccess")
  {
    PrecedesAt("cuMemRetainAllocationHandle", "cuMemSetAccess", 5);
  }

  lemma CudaVersionKey209BeforeKey210()
    ensures Precedes("cuMemSetAccess", "cuMemUnmap")
  {
    PrecedesAt("cuMemSetAccess", "cuMemUnmap", 5);
  }

  lemma CudaVersionKey210BeforeKey211()
    ensures Precedes("cuMemUnmap", "cuMipmappedArrayGetMemoryRequirements")
  {
    PrecedesAt("cuMemUnmap", "cuMipmappedArrayGetMemoryRequirements", 3);
  }

  lemma CudaVersionKey211BeforeKey212()
    ensures Precedes("cuMipmappedArrayGetMemoryRequirements", "cuModuleGetLoadingMode")
  {
    PrecedesAt("cuMipmappedArrayGetMemoryRequirements", "cuModuleGetLoadingMode", 3);
  }

  lemma CudaVersionKey212BeforeKey213()
    ensures Precedes("cuModuleGetLoadingMode", "cuModuleGetSurfRef")
  {
    PrecedesAt("cuModuleGetLoadingMode", "cuModuleGetSurfRef", 11);
  }

  lemma CudaVersionKey213BeforeKey214()
    ensures Precedes("cuModuleGetSurfRef", "cuModuleGetTexRef")
  {
    PrecedesAt("cuModuleGetSurfRef", "cuModuleGetTexRef", 11);
  }

  lemma CudaVersionKey214BeforeKey215()
    ensures Precedes("cuModuleGetTexRef", "cuOccupancyAvailableDynamicSMemPerBlock")
  {
    PrecedesAt("cuModuleGetTexRef", "cuOccupancyAvailableDynamicSMemPerBlock", 2);
  }

  lemma CudaVersionKey215BeforeKey216()
    ensures Precedes("cuOccupancyAvailableDynamicSMemPerBlock", "cuOccupancyMaxActiveClusters")
  {
    PrecedesAt("cuOccupancyAvailableDynamicSMemPerBlock", "cuOccupancyMaxActiveClusters", 11);
  }

  lemma CudaVersionKey216BeforeKey217()
    ensures Precedes("cuOccupancyMaxActiveClusters", "cuOccupancyMaxPotentialClusterSize")
  {
    PrecedesAt("cuOccupancyMaxActiveClusters", "cuOccupancyMaxPotentialClusterSize", 14);
  }

  lemma CudaVersionKey217BeforeKey218()
    ensures Precedes("cuOccupancyMaxPotentialClusterSize", "cuParamSetSize")
  {
    PrecedesAt("cuOccupancyMaxPotentialClusterSize", "cuParamSetSize", 2);
  }

  lemma CudaVersionKey218BeforeKey219()
    ensures Precedes("cuParamSetSize", "cuParamSetTexRef")
  {
    PrecedesAt("cuParamSetSize", "cuParamSetTexRef", 10);
  }

  lemma CudaVersionKey219BeforeKey220()
    ensures Precedes("cuParamSetTexRef", "cuParamSetf")
  {
    PrecedesAt("cuParamSetTexRef", "cuParamSetf", 10);
  }

  lemma CudaVersionKey220BeforeKey221()
    ensures Precedes("cuParamSetf", "cuParamSeti")
  {
    PrecedesAt("cuParamSetf", "cuParamSeti", 10);
  }

  lemma CudaVersionKey221BeforeKey222()
    ensures Precedes("cuParamSeti", "cuParamSetv")
  {
    PrecedesAt("cuParamSeti", "cuParamSetv", 10);
  }

  lemma CudaVersionKey222BeforeKey223()
    ensures Precedes("cuParamSetv", "cuProfilerInitialize")
  {
    PrecedesAt("cuParamSetv", "cuProfilerInitialize", 3);
  }

  lemma CudaVersionKey223BeforeKey224()
    ensures Precedes("cuProfilerInitialize", "cuSignalExternalSemaphoresAsync")
  {
    PrecedesAt("cuProfilerInitialize", "cuSignalExternalSemaphoresAsync", 2);
  }

  lemma CudaVersionKey224BeforeKey225()
    ensures Precedes("cuSignalExternalSemaphoresAsync", "cuStreamBatchMemOp")
  {
    PrecedesAt("cuSignalExternalSemaphoresAsync", "cuStreamBatchMemOp", 3);
  }

  lemma CudaVersionKey225BeforeKey226()
    ensures Precedes("cuStreamBatchMemOp", "cuStreamBatchMemOp_v2")
  {
    PrecedesAt("cuStreamBatchMemOp", "cuStreamBatchMemOp_v2", 18);
  }

  lemma CudaVersionKey226BeforeKey227()
    ensures Precedes("cuStreamBatchMemOp_v2", "cuStreamBeginCapture")
  {
    PrecedesAt("cuStreamBatchMemOp_v2", "cuStreamBeginCapture", 9);
  }

  lemma CudaVersionKey227BeforeKey228()
    ensures Precedes("cuStreamBeginCapture", "cuStreamBeginCapture_ptsz")
  {
    PrecedesAt("cuStreamBeginCapture", "cuStreamBeginCapture_ptsz", 20);
  }

  lemma CudaVersionKey228BeforeKey229()
    ensures Precedes("cuStreamBeginCapture_ptsz", "cuStreamBeginCapture_v2")
  {
    PrecedesAt("cuStreamBeginCapture_ptsz", "cuStreamBeginCapture_v2", 21);
  }

  lemma CudaVersionKey229BeforeKey230()
    ensures Precedes("cuStreamBeginCapture_v2", "cuStreamCopyAttributes")
  {
    PrecedesAt("cuStreamBeginCapture_v2", "cuStreamCopyAttributes", 8);
  }

  lemma CudaVersionKey230BeforeKey231()
    ensures Precedes("cuStreamCopyAttributes", "cuStreamEndCapture")
  {
    PrecedesAt("cuStreamCopyAttributes", "cuStreamEndCapture", 8);
  }

  lemma CudaVersionKey231BeforeKey232()
    ensures Precedes("cuStreamEndCapture", "cuStreamGetAttribute")
  {
    PrecedesAt("cuStreamEndCapture", "cuStreamGetAttribute", 8);
  }

  lemma CudaVersionKey232BeforeKey233()
    ensures Precedes("cuStreamGetAttribute", "cuStreamGetCaptureInfo")
  {
    PrecedesAt("cuStreamGetAttribute", "cuStreamGetCaptureInfo", 11);
  }

  lemma CudaVersionKey233BeforeKey234()
    ensures Precedes("cuStreamGetCaptureInfo", "cuStreamGetCaptureInfo_v2")
  {
    PrecedesAt("cuStreamGetCaptureInfo", "cuStreamGetCaptureInfo_v2", 22);
  }

  lemma CudaVersionKey234BeforeKey235()
    ensures Precedes("cuStreamGetCaptureInfo_v2", "cuStreamGetCtx")
  {
    PrecedesAt("cuStreamGetCaptureInfo_v2", "cuStreamGetCtx", 12);
  }

  lemma CudaVersionKey235BeforeKey236()
    ensures Precedes("cuStreamGetCtx", "cuStreamGetId")
  {
    PrecedesAt("cuStreamGetCtx", "cuStreamGetId", 11);
  }

  lemma CudaVersionKey236BeforeKey237()
    ensures Precedes("cuStreamGetId", "cuStreamIsCapturing")
  {
    PrecedesAt("cuStreamGetId", "cuStreamIsCapturing", 8);
  }

  lemma CudaVersionKey237BeforeKey238()
    ensures Precedes("cuStreamIsCapturing", "cuStreamSetAttribute")
  {
    PrecedesAt("cuStreamIsCapturing", "cuStreamSetAttribute", 8);
  }

  lemma CudaVersionKey238BeforeKey239()
    ensures Precedes("cuStreamSetAttribute", "cuStreamUpdateCaptureDependencies")
  {
    PrecedesAt("cuStreamSetAttribute", "cuStreamUpdateCaptureDependencies", 8);
  }

  lemma CudaVersionKey239BeforeKey240()
    ensures Precedes("cuStreamUpdateCaptureDependencies", "cuStreamWaitValue32")
  {
    PrecedesAt("cuStreamUpdateCaptureDependencies", "cuStreamWaitValue32", 8);
  }

  lemma CudaVersionKey240BeforeKey241()
    ensures Precedes("cuStreamWaitValue32", "cuStreamWaitValue32_v2")
  {
    PrecedesAt("cuStreamWaitValue32", "cuStreamWaitValue32_v2", 19);
  }

  lemma CudaVersionKey241BeforeKey242()
    ensures Precedes("cuStreamWaitValue32_v2", "cuStreamWaitValue64")
  {
    PrecedesAt("cuStreamWaitValue32_v2", "cuStreamWaitValue64", 17);
  }

  lemma CudaVersionKey242BeforeKey243()
    ensures Precedes("cuStreamWaitValue64", "cuStreamWaitValue64_v2")
  {
    PrecedesAt("cuStreamWaitValue64", "cuStreamWaitValue64_v2", 19);
  }

  lemma CudaVersionKey243BeforeKey244()
    ensures Precedes("cuStreamWaitValue64_v2", "cuStreamWriteValue32")
  {
    PrecedesAt("cuStreamWaitValue64_v2", "cuStreamWriteValue32", 9);
  }

  lemma CudaVersionKey244BeforeKey245()
    ensures Precedes("cuStreamWriteValue32", "cuStreamWriteValue32_v2")
  {
    PrecedesAt("cuStreamWriteValue32", "cuStreamWriteValue32_v2", 20);
  }

  lemma CudaVersionKey245BeforeKey246()
    ensures Precedes("cuStreamWriteValue32_v2", "cuStreamWriteValue64")
  {
    PrecedesAt("cuStreamWriteValue32_v2", "cuStreamWriteValue64", 18);
  }

  lemma CudaVersionKey246BeforeKey247()
    ensures Precedes("cuStreamWriteValue64", "cuStreamWriteValue64_v2")
  {
    PrecedesAt("cuStreamWriteValue64", "cuStreamWriteValue64_v2", 20);
  }

  lemma CudaVersionKey247BeforeKey248()
    ensures Precedes("cuStreamWriteValue64_v2", "cuSurfRefGetArray")
  {
    PrecedesAt("cuStreamWriteValue64_v2", "cuSurfRefGetArray", 3);
  }

  lemma CudaVersionKey248BeforeKey249()
    ensures Precedes("cuSurfRefGetArray", "cuSurfRefSetArray")
  {
    PrecedesAt("cuSurfRefGetArray", "cuSurfRefSetArray", 9);
  }

  lemma CudaVersionKey249BeforeKey250()
    ensures Precedes("cuSurfRefSetArray", "cuTensorMapEncodeIm2col")
  {
    PrecedesAt("cuSurfRefSetArray", "cuTensorMapEncodeIm2col", 2);
  }

  lemma CudaVersionKey250BeforeKey251()
    ensures Precedes("cuTensorMapEncodeIm2col", "cuTensorMapEncodeTiled")
  {
    PrecedesAt("cuTensorMapEncodeIm2col", "cuTensorMapEncodeTiled", 17);
  }

  lemma CudaVersionKey251BeforeKey252()
    ensures Precedes("cuTensorMapEncodeTiled", "cuTensorMapReplaceAddress")
  {
    PrecedesAt("cuTensorMapEncodeTiled", "cuTensorMapReplaceAddress", 11);
  }

  lemma CudaVersionKey252BeforeKey253()
    ensures Precedes("cuTensorMapReplaceAddress", "cuTexRefCreate")
  {
    PrecedesAt("cuTensorMapReplaceAddress", "cuTexRefCreate", 4);
  }

  lemma CudaVersionKey253BeforeKey254()
    ensures Precedes("cuTexRefCreate", "cuTexRefDestroy")
  {
    PrecedesAt("cuTexRefCreate", "cuTexRefDestroy", 8);
  }

  lemma CudaVersionKey254BeforeKey255()
    ensures Precedes("cuTexRefDestroy", "cuTexRefGetAddress")
  {
    PrecedesAt("cuTexRefDestroy", "cuTexRefGetAddress", 8);
  }

  lemma CudaVersionKey255BeforeKey256()
    ensures Precedes("cuTexRefGetAddress", "cuTexRefGetAddressMode")
  {
    PrecedesAt("cuTexRefGetAddress", "cuTexRefGetAddressMode", 18);
  }

  lemma CudaVersionKey256BeforeKey257()
    ensures Precedes("cuTexRefGetAddressMode", "cuTexRefGetAddress_v2")
  {
    PrecedesAt("cuTexRefGetAddressMode", "cuTexRefGetAddress_v2", 18);
  }

  lemma CudaVersionKey257BeforeKey258()
    ensures Precedes("cuTexRefGetAddress_v2", "cuTexRefGetArray")
  {
    PrecedesAt("cuTexRefGetAddress_v2", "cuTexRefGetArray", 12);
  }

  lemma CudaVersionKey258BeforeKey259()
    ensures Precedes("cuTexRefGetArray", "cuTexRefGetBorderColor")
  {
    PrecedesAt("cuTexRefGetArray", "cuTexRefGetBorderColor", 11);
  }

  lemma CudaVersionKey259BeforeKey260()
    ensures Precedes("cuTexRefGetBorderColor", "cuTexRefGetFilterMode")
  {
    PrecedesAt("cuTexRefGetBorderColor", "cuTexRefGetFilterMode", 11);
  }

  lemma CudaVersionKey260BeforeKey261()
    ensures Precedes("cuTexRefGetFilterMode", "cuTexRefGetFlags")
  {
    PrecedesAt("cuTexRefGetFilterMode", "cuTexRefGetFlags", 12);
  }

  lemma CudaVersionKey261BeforeKey262()
    ensures Precedes("cuTexRefGetFlags", "cuTexRefGetFormat")
  {
    PrecedesAt("cuTexRefGetFlags", "cuTexRefGetFormat", 12);
  }

  lemma CudaVersionKey262BeforeKey263()
    ensures Precedes("cuTexRefGetFormat", "cuTexRefGetMaxAnisotropy")
  {
    PrecedesAt("cuTexRefGetFormat", "cuTexRefGetMaxAnisotropy", 11);
  }

  lemma CudaVersionKey263BeforeKey264()
    ensures Precedes("cuTexRefGetMaxAnisotropy", "cuTexRefGetMipmapFilterMode")
  {
    PrecedesAt("cuTexRefGetMaxAnisotropy", "cuTexRefGetMipmapFilterMode", 12);
  }

  lemma CudaVersionKey264BeforeKey265()
    ensures Precedes("cuTexRefGetMipmapFilterMode", "cuTexRefGetMipmapLevelBias")
  {
    PrecedesAt("cuTexRefGetMipmapFilterMode", "cuTexRefGetMipmapLevelBias", 17);
  }

  lemma CudaVersionKey265BeforeKey266()
    ensures Precedes("cuTexRefGetMipmapLevelBias", "cuTexRefGetMipmapLevelClamp")
  {
    PrecedesAt("cuTexRefGetMipmapLevelBias", "cuTexRefGetMipmapLevelClamp", 22);
  }

  lemma CudaVersionKey266BeforeKey267()
    ensures Precedes("cuTexRefGetMipmapLevelClamp", "cuTexRefGetMipmappedArray")
  {
    PrecedesAt("cuTexRefGetMipmapLevelClamp", "cuTexRefGetMipmappedArray", 17);
  }

  lemma CudaVersionKey267BeforeKey268()
    ensures Precedes("cuTexRefGetMipmappedArray", "cuTexRefSetAddress")
  {
    PrecedesAt("cuTexRefGetMipmappedArray", "cuTexRefSetAddress", 8);
  }

  lemma CudaVersionKey268BeforeKey269()
    ensures Precedes("cuTexRefSetAddress", "cuTexRefSetAddress2D")
  {
    PrecedesAt("cuTexRefSetAddress", "cuTexRefSetAddress2D", 18);
  }

  lemma CudaVersionKey269BeforeKey270()
    ensures Precedes("cuTexRefSetAddress2D", "cuTexRefSetAddressMode")
  {
    PrecedesAt("cuTexRefSetAddress2D", "cuTexRefSetAddressMode", 18);
  }

  lemma CudaVersionKey270BeforeKey271()
    ensures Precedes("cuTexRefSetAddressMode", "cuTexRefSetAddress_v2")
  {
    PrecedesAt("cuTexRefSetAddressMode", "cuTexRefSetAddress_v2", 18);
  }

  lemma CudaVersionKey271BeforeKey272()
    ensures Precedes("cuTexRefSetAddress_v2", "cuTexRefSetArray")
  {
    PrecedesAt("cuTexRefSetAddress_v2", "cuTexRefSetArray", 12);
  }

  lemma CudaVersionKey272BeforeKey273()
    ensures Precedes("cuTexRefSetArray", "cuTexRefSetBorderColor")
  {
    PrecedesAt("cuTexRefSetArray", "cuTexRefSetBorderColor", 11);
  }

  lemma CudaVersionKey273BeforeKey274()
    ensures Precedes("cuTexRefSetBorderColor", "cuTexRefSetFilterMode")
  {
    PrecedesAt("cuTexRefSetBorderColor", "cuTexRefSetFilterMode", 11);
  }

  lemma CudaVersionKey274BeforeKey275()
    ensures Precedes("cuTexRefSetFilterMode", "cuTexRefSetFlags")
  {
    PrecedesAt("cuTexRefSetFilterMode", "cuTexRefSetFlags", 12);
  }

  lemma CudaVersionKey275BeforeKey276()
    ensures Precedes("cuTexRefSetFlags", "cuTexRefSetFormat")
  {
    PrecedesAt("cuTexRefSetFlags", "cuTexRefSetFormat", 12);
  }

  lemma CudaVersionKey276BeforeKey277()
    ensures Precedes("cuTexRefSetFormat", "cuTexRefSetMaxAnisotropy")
  {
    PrecedesAt("cuTexRefSetFormat", "cuTexRefSetMaxAnisotropy", 11);
  }

  lemma CudaVersionKey277BeforeKey278()
    ensures Precedes("cuTexRefSetMaxAnisotropy", "cuTexRefSetMipmapFilterMode")
  {
    PrecedesAt("cuTexRefSetMaxAnisotropy", "cuTexRefSetMipmapFilterMode", 12);
  }

  lemma CudaVersionKey278BeforeKey279()
    ensures Precedes("cuTexRefSetMipmapFilterMode", "cuTexRefSetMipmapLevelBias")
  {
    PrecedesAt("cuTexRefSetMipmapFilterMode", "cuTexRefSetMipmapLevelBias", 17);
  }

  lemma CudaVersionKey279BeforeKey280()
    ensures Precedes("cuTexRefSetMipmapLevelBias", "cuTexRefSetMipmapLevelClamp")
  {
    PrecedesAt("cuTexRefSetMipmapLevelBias", "cuTexRefSetMipmapLevelClamp", 22);
  }

  lemma CudaVersionKey280BeforeKey281()
    ensures Precedes("cuTexRefSetMipmapLevelClamp", "cuTexRefSetMipmappedArray")
  {
    PrecedesAt("cuTexRefSetMipmapLevelClamp", "cuTexRefSetMipmappedArray", 17);
  }

  lemma CudaVersionKey281BeforeKey282()
    ensures Precedes("cuTexRefSetMipmappedArray", "cuThreadExchangeStreamCaptureMode")
  {
    PrecedesAt("cuTexRefSetMipmappedArray", "cuThreadExchangeStreamCaptureMode", 3);
  }

  lemma CudaVersionKey282BeforeKey283()
    ensures Precedes("cuThreadExchangeStreamCaptureMode", "cuUserObjectCreate")
  {
    PrecedesAt("cuThreadExchangeStreamCaptureMode", "cuUserObjectCreate", 2);
  }

  lemma CudaVersionKey283BeforeKey284()
    ensures Precedes("cuUserObjectCreate", "cuUserObjectRelease")
  {
    PrecedesAt("cuUserObjectCreate", "cuUserObjectRelease", 12);
  }

  lemma CudaVersionKey284BeforeKey285()
    ensures Precedes("cuUserObjectRelease", "cuUserObjectRetain")
  {
    PrecedesAt("cuUserObjectRelease", "cuUserObjectRetain", 14);
  }

  lemma CudaVersionKey285BeforeKey286()
    ensures Precedes("cuUserObjectRetain", "cuWaitExternalSemaphoresAsync")
  {
    PrecedesAt("cuUserObjectRetain", "cuWaitExternalSemaphoresAsync", 2);
  }
}
