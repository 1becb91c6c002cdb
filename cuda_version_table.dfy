/**
 * `CUDA_DRIVER_FUNCTION_VER_MAP` (src/CUDA2HIP_Driver_API_functions.cpp:1061-1349):
 * the CUDA release each driver-API function appeared in, was deprecated in
 * and was removed in. One row per initializer, listed in key order; each
 * row notes the source line it comes from.
 */
module CudaVersionTable {
  import opened Tables
  import opened DriverTypes

  /** Rows 0 to 5. */
  function CudaVersionRows000To005(i: nat): (string, CudaVersions)
    requires 0 <= i < 6
  {
    if i < 4 then (
      match i
      case 0 => ("cuArrayGetMemoryRequirements", CudaVersions(CUDA_116, CUDA_0, CUDA_0))  // line 1310
      case 1 => ("cuArrayGetPlane", CudaVersions(CUDA_112, CUDA_0, CUDA_0))  // line 1265
      case 2 => ("cuArrayGetSparseProperties", CudaVersions(CUDA_111, CUDA_0, CUDA_0))  // line 1249
      case _ => ("cuCtxCreate_v3", CudaVersions(CUDA_114, CUDA_0, CUDA_0))  // line 1298
    )
    else (
      match i
      case 4 => ("cuCtxGetExecAffinity", CudaVersions(CUDA_114, CUDA_0, CUDA_0))  // line 1301
      case _ => ("cuCtxGetId", CudaVersions(CUDA_120, CUDA_0, CUDA_0))  // line 1328
    )
  }

  /** Rows 6 to 22. */
  function CudaVersionRows006To022(i: nat): (string, CudaVersions)
    requires 6 <= i < 23
  {
    if i < 10 then (
      match i
      case 6 => ("cuCtxResetPersistingL2Cache", CudaVersions(CUDA_110, CUDA_0, CUDA_0))  // line 1070
      case 7 => ("cuD3D10CtxCreate", CudaVersions(CUDA_0, CUDA_92, CUDA_0))  // line 1220
      case 8 => ("cuD3D10CtxCreateOnDevice", CudaVersions(CUDA_0, CUDA_92, CUDA_0))  // line 1221
      case _ => ("cuD3D10GetDirect3DDevice", CudaVersions(CUDA_0, CUDA_92, CUDA_0))  // line 1222
    )
    else if i < 14 then (
      match i
      case 10 => ("cuD3D10MapResources", CudaVersions(CUDA_0, CUDA_92, CUDA_0))  // line 1223
      case 11 => ("cuD3D10RegisterResource", CudaVersions(CUDA_0, CUDA_92, CUDA_0))  // line 1224
      case 12 => ("cuD3D10ResourceGetMappedArray", CudaVersions(CUDA_0, CUDA_92, CUDA_0))  // line 1225
      case _ => ("cuD3D10ResourceGetMappedPitch", CudaVersions(CUDA_0, CUDA_92, CUDA_0))  // line 1226
    )
    else if i < 18 then (
      match i
      case 14 => ("cuD3D10ResourceGetMappedPointer", CudaVersions(CUDA_0, CUDA_92, CUDA_0))  // line 1227
      case 15 => ("cuD3D10ResourceGetMappedSize", CudaVersions(CUDA_0, CUDA_92, CUDA_0))  // line 1228
      case 16 => ("cuD3D10ResourceGetSurfaceDimensions", CudaVersions(CUDA_0, CUDA_92, CUDA_0))  // line 1229
      case _ => ("cuD3D10ResourceSetMapFlags", CudaVersions(CUDA_0, CUDA_92, CUDA_0))  // line 1230
    )
    else if i < 22 then (
      match i
      case 18 => ("cuD3D10UnmapResources", CudaVersions(CUDA_0, CUDA_92, CUDA_0))  // line 1231
      case 19 => ("cuD3D10UnregisterResource", CudaVersions(CUDA_0, CUDA_92, CUDA_0))  // line 1232
      case 20 => ("cuD3D11CtxCreate", CudaVersions(CUDA_0, CUDA_92, CUDA_0))  // line 1233
      case _ => ("cuD3D11CtxCreateOnDevice", CudaVersions(CUDA_0, CUDA_92, CUDA_0))  // line 1234
    )
    else ("cuD3D11GetDirect3DDevice", CudaVersions(CUDA_0, CUDA_92, CUDA_0))  // line 1235
  }

  /** Rows 0 to 22. */
  function CudaVersionRows000To022(i: nat): (string, CudaVersions)
    requires 0 <= i < 23
  {
    if i < 6 then CudaVersionRows000To005(i)
    else CudaVersionRows006To022(i)
  }

  /** Rows 23 to 42. */
  function CudaVersionRows023To042(i: nat): (string, CudaVersions)
    requires 23 <= i < 43
  {
    if i < 27 then (
      match i
      case 23 => ("cuD3D9MapResources", CudaVersions(CUDA_0, CUDA_92, CUDA_0))  // line 1210
      case 24 => ("cuD3D9RegisterResource", CudaVersions(CUDA_0, CUDA_92, CUDA_0))  // line 1211
      case 25 => ("cuD3D9ResourceGetMappedArray", CudaVersions(CUDA_0, CUDA_92, CUDA_0))  // line 1212
      case _ => ("cuD3D9ResourceGetMappedPitch", CudaVersions(CUDA_0, CUDA_92, CUDA_0))  // line 1213
    )
    else if i < 31 then (
      match i
      case 27 => ("cuD3D9ResourceGetMappedPointer", CudaVersions(CUDA_0, CUDA_92, CUDA_0))  // line 1214
      case 28 => ("cuD3D9ResourceGetMappedSize", CudaVersions(CUDA_0, CUDA_92, CUDA_0))  // line 1215
      case 29 => ("cuD3D9ResourceGetSurfaceDimensions", CudaVersions(CUDA_0, CUDA_92, CUDA_0))  // line 1216
      case _ => ("cuD3D9ResourceSetMapFlags", CudaVersions(CUDA_0, CUDA_92, CUDA_0))  // line 1217
    )
    else if i < 35 then (
      match i
      case 31 => ("cuD3D9UnmapResources", CudaVersions(CUDA_0, CUDA_92, CUDA_0))  // line 1218
      case 32 => ("cuD3D9UnregisterResource", CudaVersions(CUDA_0, CUDA_92, CUDA_0))  // line 1219
      case 33 => ("cuDestroyExternalMemory", CudaVersions(CUDA_100, CUDA_0, CUDA_0))  // line 1099
      case _ => ("cuDestroyExternalSemaphore", CudaVersions(CUDA_100, CUDA_0, CUDA_0))  // line 1100
    )
    else if i < 39 then (
      match i
      case 35 => ("cuDeviceComputeCapability", CudaVersions(CUDA_0, CUDA_92, CUDA_0))  // line 1065
      case 36 => ("cuDeviceGetDefaultMemPool", CudaVersions(CUDA_112, CUDA_0, CUDA_0))  // line 1264
      case 37 => ("cuDeviceGetExecAffinitySupport", CudaVersions(CUDA_114, CUDA_0, CUDA_0))  // line 1300
      case _ => ("cuDeviceGetGraphMemAttribute", CudaVersions(CUDA_114, CUDA_0, CUDA_0))  // line 1307
    )
    else (
      match i
      case 39 => ("cuDeviceGetLuid", CudaVersions(CUDA_100, CUDA_0, CUDA_0))  // line 1062
      case 40 => ("cuDeviceGetMemPool", CudaVersions(CUDA_112, CUDA_0, CUDA_0))  // line 1263
      case 41 => ("cuDeviceGetNvSciSyncAttributes", CudaVersions(CUDA_102, CUDA_0, CUDA_0))  // line 1063
      case _ => ("cuDeviceGetP2PAttribute", CudaVersions(CUDA_80, CUDA_0, CUDA_0))  // line 1199
    )
  }

  /** Rows 43 to 62. */
  function CudaVersionRows043To062(i: nat): (string, CudaVersions)
    requires 43 <= i < 63
  {
    if i < 47 then (
      match i
      case 43 => ("cuDeviceGetProperties", CudaVersions(CUDA_0, CUDA_92, CUDA_0))  // line 1066
      case 44 => ("cuDeviceGetTexture1DLinearMaxWidth", CudaVersions(CUDA_111, CUDA_0, CUDA_0))  // line 1248
      case 45 => ("cuDeviceGetUuid", CudaVersions(CUDA_92, CUDA_0, CUDA_0))  // line 1064
      case _ => ("cuDeviceGetUuid_v2", CudaVersions(CUDA_114, CUDA_0, CUDA_0))  // line 1299
    )
    else if i < 51 then (
      match i
      case 47 => ("cuDeviceGraphMemTrim", CudaVersions(CUDA_114, CUDA_0, CUDA_0))  // line 1306
      case 48 => ("cuDevicePrimaryCtxRelease_v2", CudaVersions(CUDA_110, CUDA_0, CUDA_0))  // line 1067
      case 49 => ("cuDevicePrimaryCtxReset_v2", CudaVersions(CUDA_110, CUDA_0, CUDA_0))  // line 1068
      case _ => ("cuDevicePrimaryCtxSetFlags_v2", CudaVersions(CUDA_110, CUDA_0, CUDA_0))  // line 1069
    )
    else if i < 55 then (
      match i
      case 51 => ("cuDeviceSetGraphMemAttribute", CudaVersions(CUDA_114, CUDA_0, CUDA_0))  // line 1308
      case 52 => ("cuDeviceSetMemPool", CudaVersions(CUDA_112, CUDA_0, CUDA_0))  // line 1262
      case 53 => ("cuEGLStreamConsumerAcquireFrame", CudaVersions(CUDA_91, CUDA_0, CUDA_0))  // line 1236
      case _ => ("cuEGLStreamConsumerConnect", CudaVersions(CUDA_91, CUDA_0, CUDA_0))  // line 1237
    )
    else if i < 59 then (
      match i
      case 55 => ("cuEGLStreamConsumerConnectWithFlags", CudaVersions(CUDA_91, CUDA_0, CUDA_0))  // line 1238
      case 56 => ("cuEGLStreamConsumerDisconnect", CudaVersions(CUDA_91, CUDA_0, CUDA_0))  // line 1239
      case 57 => ("cuEGLStreamConsumerReleaseFrame", CudaVersions(CUDA_91, CUDA_0, CUDA_0))  // line 1240
      case _ => ("cuEGLStreamProducerConnect", CudaVersions(CUDA_91, CUDA_0, CUDA_0))  // line 1241
    )
    else (
      match i
      case 59 => ("cuEGLStreamProducerDisconnect", CudaVersions(CUDA_91, CUDA_0, CUDA_0))  // line 1242
      case 60 => ("cuEGLStreamProducerPresentFrame", CudaVersions(CUDA_91, CUDA_0, CUDA_0))  // line 1243
      case 61 => ("cuEGLStreamProducerReturnFrame", CudaVersions(CUDA_91, CUDA_0, CUDA_0))  // line 1244
      case _ => ("cuEventCreateFromEGLSync", CudaVersions(CUDA_91, CUDA_0, CUDA_0))  // line 1247
    )
  }

  /** Rows 23 to 62. */
  function CudaVersionRows023To062(i: nat): (string, CudaVersions)
    requires 23 <= i < 63
  {
    if i < 43 then CudaVersionRows023To042(i)
    else CudaVersionRows043To062(i)
  }

  /** Rows 63 to 82. */
  function CudaVersionRows063To082(i: nat): (string, CudaVersions)
    requires 63 <= i < 83
  {
    if i < 67 then (
      match i
      case 63 => ("cuEventRecordWithFlags", CudaVersions(CUDA_111, CUDA_0, CUDA_0))  // line 1251
      case 64 => ("cuExternalMemoryGetMappedBuffer", CudaVersions(CUDA_100, CUDA_0, CUDA_0))  // line 1101
      case 65 => ("cuExternalMemoryGetMappedMipmappedArray", CudaVersions(CUDA_100, CUDA_0, CUDA_0))  // line 1102
      case _ => ("cuFlushGPUDirectRDMAWrites", CudaVersions(CUDA_113, CUDA_0, CUDA_0))  // line 1297
    )
    else if i < 71 then (
      match i
      case 67 => ("cuFuncGetModule", CudaVersions(CUDA_110, CUDA_0, CUDA_0))  // line 1112
      case 68 => ("cuFuncSetAttribute", CudaVersions(CUDA_90, CUDA_0, CUDA_0))  // line 1113
      case 69 => ("cuFuncSetBlockShape", CudaVersions(CUDA_0, CUDA_92, CUDA_0))  // line 1117
      case _ => ("cuFuncSetSharedSize", CudaVersions(CUDA_0, CUDA_92, CUDA_0))  // line 1118
    )
    else if i < 75 then (
      match i
      case 71 => ("cuGLCtxCreate", CudaVersions(CUDA_0, CUDA_92, CUDA_0))  // line 1201
      case 72 => ("cuGLInit", CudaVersions(CUDA_0, CUDA_92, CUDA_0))  // line 1202
      case 73 => ("cuGLMapBufferObject", CudaVersions(CUDA_0, CUDA_92, CUDA_0))  // line 1203
      case _ => ("cuGLMapBufferObjectAsync", CudaVersions(CUDA_0, CUDA_92, CUDA_0))  // line 1204
    )
    else if i < 79 then (
      match i
      case 75 => ("cuGLRegisterBufferObject", CudaVersions(CUDA_0, CUDA_92, CUDA_0))  // line 1205
      case 76 => ("cuGLSetBufferObjectMapFlags", CudaVersions(CUDA_0, CUDA_92, CUDA_0))  // line 1206
      case 77 => ("cuGLUnmapBufferObject", CudaVersions(CUDA_0, CUDA_92, CUDA_0))  // line 1207
      case _ => ("cuGLUnmapBufferObjectAsync", CudaVersions(CUDA_0, CUDA_92, CUDA_0))  // line 1208
    )
    else (
      match i
      case 79 => ("cuGLUnregisterBufferObject", CudaVersions(CUDA_0, CUDA_92, CUDA_0))  // line 1209
      case 80 => ("cuGetProcAddress", CudaVersions(CUDA_113, CUDA_0, CUDA_0))  // line 1296
      case 81 => ("cuGraphAddBatchMemOpNode", CudaVersions(CUDA_117, CUDA_0, CUDA_0))  // line 1321
      case _ => ("cuGraphAddChildGraphNode", CudaVersions(CUDA_100, CUDA_0, CUDA_0))  // line 1127
    )
  }

  /** Rows 83 to 112. */
  function CudaVersionRows083To112(i: nat): (string, CudaVersions)
    requires 83 <= i < 113
  {
    if i < 87 then (
      match i
      case 83 => ("cuGraphAddDependencies", CudaVersions(CUDA_100, CUDA_0, CUDA_0))  // line 1128
      case 84 => ("cuGraphAddEmptyNode", CudaVersions(CUDA_100, CUDA_0, CUDA_0))  // line 1129
      case 85 => ("cuGraphAddEventRecordNode", CudaVersions(CUDA_111, CUDA_0, CUDA_0))  // line 1252
      case _ => ("cuGraphAddEventWaitNode", CudaVersions(CUDA_111, CUDA_0, CUDA_0))  // line 1255
    )
    else if i < 91 then (
      match i
      case 87 => ("cuGraphAddExternalSemaphoresSignalNode", CudaVersions(CUDA_112, CUDA_0, CUDA_0))  // line 1280
      case 88 => ("cuGraphAddExternalSemaphoresWaitNode", CudaVersions(CUDA_112, CUDA_0, CUDA_0))  // line 1283
      case 89 => ("cuGraphAddHostNode", CudaVersions(CUDA_100, CUDA_0, CUDA_0))  // line 1130
      case _ => ("cuGraphAddKernelNode", CudaVersions(CUDA_100, CUDA_0, CUDA_0))  // line 1131
    )
    else if i < 95 then (
      match i
      case 91 => ("cuGraphAddMemAllocNode", CudaVersions(CUDA_114, CUDA_0, CUDA_0))  // line 1302
      case 92 => ("cuGraphAddMemFreeNode", CudaVersions(CUDA_114, CUDA_0, CUDA_0))  // line 1304
      case 93 => ("cuGraphAddMemcpyNode", CudaVersions(CUDA_100, CUDA_0, CUDA_0))  // line 1132
      case _ => ("cuGraphAddMemsetNode", CudaVersions(CUDA_100, CUDA_0, CUDA_0))  // line 1133
    )
    else if i < 99 then (
      match i
      case 95 => ("cuGraphBatchMemOpNodeGetParams", CudaVersions(CUDA_117, CUDA_0, CUDA_0))  // line 1322
      case 96 => ("cuGraphBatchMemOpNodeSetParams", CudaVersions(CUDA_117, CUDA_0, CUDA_0))  // line 1323
      case 97 => ("cuGraphChildGraphNodeGetGraph", CudaVersions(CUDA_100, CUDA_0, CUDA_0))  // line 1134
      case _ => ("cuGraphClone", CudaVersions(CUDA_100, CUDA_0, CUDA_0))  // line 1135
    )
    else if i < 103 then (
      match i
      case 99 => ("cuGraphCreate", CudaVersions(CUDA_100, CUDA_0, CUDA_0))  // line 1136
      case 100 => ("cuGraphDebugDotPrint", CudaVersions(CUDA_113, CUDA_0, CUDA_0))  // line 1290
      case 101 => ("cuGraphDestroy", CudaVersions(CUDA_100, CUDA_0, CUDA_0))  // line 1137
      case _ => ("cuGraphDestroyNode", CudaVersions(CUDA_100, CUDA_0, CUDA_0))  // line 1138
    )
    else if i < 107 then (
      match i
      case 103 => ("cuGraphEventRecordNodeGetEvent", CudaVersions(CUDA_111, CUDA_0, CUDA_0))  // line 1253
      case 104 => ("cuGraphEventRecordNodeSetEvent", CudaVersions(CUDA_111, CUDA_0, CUDA_0))  // line 1254
      case 105 => ("cuGraphEventWaitNodeGetEvent", CudaVersions(CUDA_111, CUDA_0, CUDA_0))  // line 1256
      case _ => ("cuGraphEventWaitNodeSetEvent", CudaVersions(CUDA_111, CUDA_0, CUDA_0))  // line 1257
    )
    else if i < 111 then (
      match i
      case 107 => ("cuGraphExecBatchMemOpNodeSetParams", CudaVersions(CUDA_117, CUDA_0, CUDA_0))  // line 1324
      case 108 => ("cuGraphExecChildGraphNodeSetParams", CudaVersions(CUDA_111, CUDA_0, CUDA_0))  // line 1258
      case 109 => ("cuGraphExecDestroy", CudaVersions(CUDA_100, CUDA_0, CUDA_0))  // line 1139
      case _ => ("cuGraphExecEventRecordNodeSetEvent", CudaVersions(CUDA_111, CUDA_0, CUDA_0))  // line 1259
    )
    else (
      match i
      case 111 => ("cuGraphExecEventWaitNodeSetEvent", CudaVersions(CUDA_111, CUDA_0, CUDA_0))  // line 1260
      case _ => ("cuGraphExecExternalSemaphoresSignalNodeSetParams", CudaVersions(CUDA_112, CUDA_0, CUDA_0))  // line 1286
    )
  }

  /** Rows 63 to 112. */
  function CudaVersionRows063To112(i: nat): (string, CudaVersions)
    requires 63 <= i < 113
  {
    if i < 83 then CudaVersionRows063To082(i)
    else CudaVersionRows083To112(i)
  }

  /** Rows 113 to 142. */
  function CudaVersionRows113To142(i: nat): (string, CudaVersions)
    requires 113 <= i < 143
  {
    if i < 117 then (
      match i
      case 113 => ("cuGraphExecExternalSemaphoresWaitNodeSetParams", CudaVersions(CUDA_112, CUDA_0, CUDA_0))  // line 1287
      case 114 => ("cuGraphExecGetFlags", CudaVersions(CUDA_120, CUDA_0, CUDA_0))  // line 1348
      case 115 => ("cuGraphExecHostNodeSetParams", CudaVersions(CUDA_102, CUDA_0, CUDA_0))  // line 1165
      case _ => ("cuGraphExecKernelNodeSetParams", CudaVersions(CUDA_101, CUDA_0, CUDA_0))  // line 1149
    )
    else if i < 121 then (
      match i
      case 117 => ("cuGraphExecMemcpyNodeSetParams", CudaVersions(CUDA_102, CUDA_0, CUDA_0))  // line 1163
      case 118 => ("cuGraphExecMemsetNodeSetParams", CudaVersions(CUDA_102, CUDA_0, CUDA_0))  // line 1164
      case 119 => ("cuGraphExecUpdate", CudaVersions(CUDA_102, CUDA_0, CUDA_0))  // line 1166
      case _ => ("cuGraphExternalSemaphoresSignalNodeGetParams", CudaVersions(CUDA_112, CUDA_0, CUDA_0))  // line 1281
    )
    else if i < 125 then (
      match i
      case 121 => ("cuGraphExternalSemaphoresSignalNodeSetParams", CudaVersions(CUDA_112, CUDA_0, CUDA_0))  // line 1282
      case 122 => ("cuGraphExternalSemaphoresWaitNodeGetParams", CudaVersions(CUDA_112, CUDA_0, CUDA_0))  // line 1284
      case 123 => ("cuGraphExternalSemaphoresWaitNodeSetParams", CudaVersions(CUDA_112, CUDA_0, CUDA_0))  // line 1285
      case _ => ("cuGraphGetEdges", CudaVersions(CUDA_100, CUDA_0, CUDA_0))  // line 1140
    )
    else if i < 129 then (
      match i
      case 125 => ("cuGraphGetNodes", CudaVersions(CUDA_100, CUDA_0, CUDA_0))  // line 1141
      case 126 => ("cuGraphGetRootNodes", CudaVersions(CUDA_100, CUDA_0, CUDA_0))  // line 1142
      case 127 => ("cuGraphHostNodeGetParams", CudaVersions(CUDA_100, CUDA_0, CUDA_0))  // line 1143
      case _ => ("cuGraphHostNodeSetParams", CudaVersions(CUDA_100, CUDA_0, CUDA_0))  // line 1144
    )
    else if i < 133 then (
      match i
      case 129 => ("cuGraphInstantiate", CudaVersions(CUDA_100, CUDA_0, CUDA_0))  // line 1145
      case 130 => ("cuGraphInstantiateWithFlags", CudaVersions(CUDA_114, CUDA_0, CUDA_0))  // line 1309
      case 131 => ("cuGraphInstantiateWithParams", CudaVersions(CUDA_120, CUDA_0, CUDA_0))  // line 1344
      case _ => ("cuGraphInstantiate_v2", CudaVersions(CUDA_110, CUDA_0, CUDA_0))  // line 1146
    )
    else if i < 137 then (
      match i
      case 133 => ("cuGraphKernelNodeCopyAttributes", CudaVersions(CUDA_110, CUDA_0, CUDA_0))  // line 1147
      case 134 => ("cuGraphKernelNodeGetAttribute", CudaVersions(CUDA_110, CUDA_0, CUDA_0))  // line 1148
      case 135 => ("cuGraphKernelNodeGetParams", CudaVersions(CUDA_100, CUDA_0, CUDA_0))  // line 1150
      case _ => ("cuGraphKernelNodeSetAttribute", CudaVersions(CUDA_110, CUDA_0, CUDA_0))  // line 1151
    )
    else if i < 141 then (
      match i
      case 137 => ("cuGraphKernelNodeSetParams", CudaVersions(CUDA_100, CUDA_0, CUDA_0))  // line 1152
      case 138 => ("cuGraphLaunch", CudaVersions(CUDA_100, CUDA_0, CUDA_0))  // line 1153
      case 139 => ("cuGraphMemAllocNodeGetParams", CudaVersions(CUDA_114, CUDA_0, CUDA_0))  // line 1303
      case _ => ("cuGraphMemFreeNodeGetParams", CudaVersions(CUDA_114, CUDA_0, CUDA_0))  // line 1305
    )
    else (
      match i
      case 141 => ("cuGraphMemcpyNodeGetParams", CudaVersions(CUDA_100, CUDA_0, CUDA_0))  // line 1154
      case _ => ("cuGraphMemcpyNodeSetParams", CudaVersions(CUDA_100, CUDA_0, CUDA_0))  // line 1155
    )
  }

  /** Rows 143 to 156. */
  function CudaVersionRows143To156(i: nat): (string, CudaVersions)
    requires 143 <= i < 157
  {
    if i < 147 then (
      match i
      case 143 => ("cuGraphMemsetNodeGetParams", CudaVersions(CUDA_100, CUDA_0, CUDA_0))  // line 1156
      case 144 => ("cuGraphMemsetNodeSetParams", CudaVersions(CUDA_100, CUDA_0, CUDA_0))  // line 1157
      case 145 => ("cuGraphNodeFindInClone", CudaVersions(CUDA_100, CUDA_0, CUDA_0))  // line 1158
      case _ => ("cuGraphNodeGetDependencies", CudaVersions(CUDA_100, CUDA_0, CUDA_0))  // line 1159
    )
    else if i < 151 then (
      match i
      case 147 => ("cuGraphNodeGetDependentNodes", CudaVersions(CUDA_100, CUDA_0, CUDA_0))  // line 1160
      case 148 => ("cuGraphNodeGetEnabled", CudaVersions(CUDA_116, CUDA_0, CUDA_0))  // line 1313
      case 149 => ("cuGraphNodeGetType", CudaVersions(CUDA_100, CUDA_0, CUDA_0))  // line 1161
      case _ => ("cuGraphNodeSetEnabled", CudaVersions(CUDA_116, CUDA_0, CUDA_0))  // line 1312
    )
    else if i < 155 then (
      match i
      case 151 => ("cuGraphReleaseUserObject", CudaVersions(CUDA_113, CUDA_0, CUDA_0))  // line 1295
      case 152 => ("cuGraphRemoveDependencies", CudaVersions(CUDA_100, CUDA_0, CUDA_0))  // line 1162
      case 153 => ("cuGraphRetainUserObject", CudaVersions(CUDA_113, CUDA_0, CUDA_0))  // line 1294
      case _ => ("cuGraphUpload", CudaVersions(CUDA_111, CUDA_0, CUDA_0))  // line 1261
    )
    else (
      match i
      case 155 => ("cuGraphicsEGLRegisterImage", CudaVersions(CUDA_91, CUDA_0, CUDA_0))  // line 1245
      case _ => ("cuGraphicsResourceGetMappedEglFrame", CudaVersions(CUDA_91, CUDA_0, CUDA_0))  // line 1246
    )
  }

  /** Rows 113 to 156. */
  function CudaVersionRows113To156(i: nat): (string, CudaVersions)
    requires 113 <= i < 157
  {
    if i < 143 then CudaVersionRows113To142(i)
    else CudaVersionRows143To156(i)
  }

  /** Rows 157 to 177. */
  function CudaVersionRows157To177(i: nat): (string, CudaVersions)
    requires 157 <= i < 178
  {
    if i < 161 then (
      match i
      case 157 => ("cuImportExternalMemory", CudaVersions(CUDA_100, CUDA_0, CUDA_0))  // line 1103
      case 158 => ("cuImportExternalSemaphore", CudaVersions(CUDA_100, CUDA_0, CUDA_0))  // line 1104
      case 159 => ("cuKernelGetAttribute", CudaVersions(CUDA_120, CUDA_0, CUDA_0))  // line 1340
      case _ => ("cuKernelGetFunction", CudaVersions(CUDA_120, CUDA_0, CUDA_0))  // line 1336
    )
    else if i < 165 then (
      match i
      case 161 => ("cuKernelSetAttribute", CudaVersions(CUDA_120, CUDA_0, CUDA_0))  // line 1341
      case 162 => ("cuKernelSetCacheConfig", CudaVersions(CUDA_120, CUDA_0, CUDA_0))  // line 1342
      case 163 => ("cuLaunch", CudaVersions(CUDA_0, CUDA_92, CUDA_0))  // line 1119
      case _ => ("cuLaunchCooperativeKernel", CudaVersions(CUDA_90, CUDA_0, CUDA_0))  // line 1114
    )
    else if i < 169 then (
      match i
      case 165 => ("cuLaunchCooperativeKernelMultiDevice", CudaVersions(CUDA_90, CUDA_113, CUDA_0))  // line 1115
      case 166 => ("cuLaunchGrid", CudaVersions(CUDA_0, CUDA_92, CUDA_0))  // line 1120
      case 167 => ("cuLaunchGridAsync", CudaVersions(CUDA_0, CUDA_92, CUDA_0))  // line 1121
      case _ => ("cuLaunchHostFunc", CudaVersions(CUDA_100, CUDA_0, CUDA_0))  // line 1116
    )
    else if i < 173 then (
      match i
      case 169 => ("cuLaunchKernelEx", CudaVersions(CUDA_118, CUDA_0, CUDA_0))  // line 1325
      case 170 => ("cuLibraryGetGlobal", CudaVersions(CUDA_120, CUDA_0, CUDA_0))  // line 1337
      case 171 => ("cuLibraryGetKernel", CudaVersions(CUDA_120, CUDA_0, CUDA_0))  // line 1334
      case _ => ("cuLibraryGetManaged", CudaVersions(CUDA_120, CUDA_0, CUDA_0))  // line 1338
    )
    else if i < 177 then (
      match i
      case 173 => ("cuLibraryGetModule", CudaVersions(CUDA_120, CUDA_0, CUDA_0))  // line 1335
      case 174 => ("cuLibraryGetUnifiedFunction", CudaVersions(CUDA_120, CUDA_0, CUDA_0))  // line 1339
      case 175 => ("cuLibraryLoadData", CudaVersions(CUDA_120, CUDA_0, CUDA_0))  // line 1331
      case _ => ("cuLibraryLoadFromFile", CudaVersions(CUDA_120, CUDA_0, CUDA_0))  // line 1332
    )
    else ("cuLibraryUnload", CudaVersions(CUDA_120, CUDA_0, CUDA_0))  // line 1333
  }

  /** Rows 178 to 189. */
  function CudaVersionRows178To189(i: nat): (string, CudaVersions)
    requires 178 <= i < 190
  {
    if i < 182 then (
      match i
      case 178 => ("cuMemAddressFree", CudaVersions(CUDA_102, CUDA_0, CUDA_0))  // line 1071
      case 179 => ("cuMemAddressReserve", CudaVersions(CUDA_102, CUDA_0, CUDA_0))  // line 1072
      case 180 => ("cuMemAdvise", CudaVersions(CUDA_80, CUDA_0, CUDA_0))  // line 1084
      case _ => ("cuMemAllocAsync", CudaVersions(CUDA_112, CUDA_0, CUDA_0))  // line 1267
    )
    else if i < 186 then (
      match i
      case 182 => ("cuMemAllocFromPoolAsync", CudaVersions(CUDA_112, CUDA_0, CUDA_0))  // line 1275
      case 183 => ("cuMemCreate", CudaVersions(CUDA_102, CUDA_0, CUDA_0))  // line 1073
      case 184 => ("cuMemExportToShareableHandle", CudaVersions(CUDA_102, CUDA_0, CUDA_0))  // line 1074
      case _ => ("cuMemFreeAsync", CudaVersions(CUDA_112, CUDA_0, CUDA_0))  // line 1266
    )
    else (
      match i
      case 186 => ("cuMemGetAccess", CudaVersions(CUDA_102, CUDA_0, CUDA_0))  // line 1075
      case 187 => ("cuMemGetAllocationGranularity", CudaVersions(CUDA_102, CUDA_0, CUDA_0))  // line 1076
      case 188 => ("cuMemGetAllocationPropertiesFromHandle", CudaVersions(CUDA_102, CUDA_0, CUDA_0))  // line 1077
      case _ => ("cuMemGetHandleForAddressRange", CudaVersions(CUDA_117, CUDA_0, CUDA_0))  // line 1314
    )
  }

  /** Rows 157 to 189. */
  function CudaVersionRows157To189(i: nat): (string, CudaVersions)
    requires 157 <= i < 190
  {
    if i < 178 then CudaVersionRows157To177(i)
    else CudaVersionRows178To189(i)
  }

  /** Rows 190 to 210. */
  function CudaVersionRows190To210(i: nat): (string, CudaVersions)
    requires 190 <= i < 211
  {
    if i < 194 then (
      match i
      case 190 => ("cuMemImportFromShareableHandle", CudaVersions(CUDA_102, CUDA_0, CUDA_0))  // line 1078
      case 191 => ("cuMemMap", CudaVersions(CUDA_102, CUDA_0, CUDA_0))  // line 1079
      case 192 => ("cuMemMapArrayAsync", CudaVersions(CUDA_111, CUDA_0, CUDA_0))  // line 1250
      case _ => ("cuMemPoolCreate", CudaVersions(CUDA_112, CUDA_0, CUDA_0))  // line 1273
    )
    else if i < 198 then (
      match i
      case 194 => ("cuMemPoolDestroy", CudaVersions(CUDA_112, CUDA_0, CUDA_0))  // line 1274
      case 195 => ("cuMemPoolExportPointer", CudaVersions(CUDA_112, CUDA_0, CUDA_0))  // line 1278
      case 196 => ("cuMemPoolExportToShareableHandle", CudaVersions(CUDA_112, CUDA_0, CUDA_0))  // line 1276
      case _ => ("cuMemPoolGetAccess", CudaVersions(CUDA_112, CUDA_0, CUDA_0))  // line 1272
    )
    else if i < 202 then (
      match i
      case 198 => ("cuMemPoolGetAttribute", CudaVersions(CUDA_112, CUDA_0, CUDA_0))  // line 1270
      case 199 => ("cuMemPoolImportFromShareableHandle", CudaVersions(CUDA_112, CUDA_0, CUDA_0))  // line 1277
      case 200 => ("cuMemPoolImportPointer", CudaVersions(CUDA_112, CUDA_0, CUDA_0))  // line 1279
      case _ => ("cuMemPoolSetAccess", CudaVersions(CUDA_112, CUDA_0, CUDA_0))  // line 1271
    )
    else if i < 206 then (
      match i
      case 202 => ("cuMemPoolSetAttribute", CudaVersions(CUDA_112, CUDA_0, CUDA_0))  // line 1269
      case 203 => ("cuMemPoolTrimTo", CudaVersions(CUDA_112, CUDA_0, CUDA_0))  // line 1268
      case 204 => ("cuMemPrefetchAsync", CudaVersions(CUDA_80, CUDA_0, CUDA_0))  // line 1085
      case _ => ("cuMemRangeGetAttribute", CudaVersions(CUDA_80, CUDA_0, CUDA_0))  // line 1086
    )
    else if i < 210 then (
      match i
      case 206 => ("cuMemRangeGetAttributes", CudaVersions(CUDA_80, CUDA_0, CUDA_0))  // line 1087
      case 207 => ("cuMemRelease", CudaVersions(CUDA_102, CUDA_0, CUDA_0))  // line 1080
      case 208 => ("cuMemRetainAllocationHandle", CudaVersions(CUDA_110, CUDA_0, CUDA_0))  // line 1081
      case _ => ("cuMemSetAccess", CudaVersions(CUDA_102, CUDA_0, CUDA_0))  // line 1082
    )
    else ("cuMemUnmap", CudaVersions(CUDA_102, CUDA_0, CUDA_0))  // line 1083
  }

  /** Rows 211 to 222. */
  function CudaVersionRows211To222(i: nat): (string, CudaVersions)
    requires 211 <= i < 223
  {
    if i < 215 then (
      match i
      case 211 => ("cuMipmappedArrayGetMemoryRequirements", CudaVersions(CUDA_116, CUDA_0, CUDA_0))  // line 1311
      case 212 => ("cuModuleGetLoadingMode", CudaVersions(CUDA_117, CUDA_0, CUDA_0))  // line 1315
      case 213 => ("cuModuleGetSurfRef", CudaVersions(CUDA_0, CUDA_120, CUDA_0))  // line 1330
      case _ => ("cuModuleGetTexRef", CudaVersions(CUDA_0, CUDA_120, CUDA_0))  // line 1329
    )
    else if i < 219 then (
      match i
      case 215 => ("cuOccupancyAvailableDynamicSMemPerBlock", CudaVersions(CUDA_110, CUDA_0, CUDA_0))  // line 1167
      case 216 => ("cuOccupancyMaxActiveClusters", CudaVersions(CUDA_118, CUDA_0, CUDA_0))  // line 1327
      case 217 => ("cuOccupancyMaxPotentialClusterSize", CudaVersions(CUDA_118, CUDA_0, CUDA_0))  // line 1326
      case _ => ("cuParamSetSize", CudaVersions(CUDA_0, CUDA_92, CUDA_0))  // line 1124
    )
    else (
      match i
      case 219 => ("cuParamSetTexRef", CudaVersions(CUDA_0, CUDA_92, CUDA_0))  // line 1125
      case 220 => ("cuParamSetf", CudaVersions(CUDA_0, CUDA_92, CUDA_0))  // line 1122
      case 221 => ("cuParamSeti", CudaVersions(CUDA_0, CUDA_92, CUDA_0))  // line 1123
      case _ => ("cuParamSetv", CudaVersions(CUDA_0, CUDA_92, CUDA_0))  // line 1126
    )
  }

  /** Rows 223 to 239. */
  function CudaVersionRows223To239(i: nat): (string, CudaVersions)
    requires 223 <= i < 240
  {
    if i < 227 then (
      match i
      case 223 => ("cuProfilerInitialize", CudaVersions(CUDA_0, CUDA_110, CUDA_0))  // line 1200
      case 224 => ("cuSignalExternalSemaphoresAsync", CudaVersions(CUDA_100, CUDA_0, CUDA_0))  // line 1105
      case 225 => ("cuStreamBatchMemOp", CudaVersions(CUDA_80, CUDA_0, CUDA_0))  // line 1107
      case _ => ("cuStreamBatchMemOp_v2", CudaVersions(CUDA_117, CUDA_0, CUDA_0))  // line 1320
    )
    else if i < 231 then (
      match i
      case 227 => ("cuStreamBeginCapture", CudaVersions(CUDA_100, CUDA_0, CUDA_0))  // line 1088
      case 228 => ("cuStreamBeginCapture_ptsz", CudaVersions(CUDA_101, CUDA_0, CUDA_0))  // line 1090
      case 229 => ("cuStreamBeginCapture_v2", CudaVersions(CUDA_101, CUDA_0, CUDA_0))  // line 1089
      case _ => ("cuStreamCopyAttributes", CudaVersions(CUDA_110, CUDA_0, CUDA_0))  // line 1091
    )
    else if i < 235 then (
      match i
      case 231 => ("cuStreamEndCapture", CudaVersions(CUDA_100, CUDA_0, CUDA_0))  // line 1092
      case 232 => ("cuStreamGetAttribute", CudaVersions(CUDA_110, CUDA_0, CUDA_0))  // line 1093
      case 233 => ("cuStreamGetCaptureInfo", CudaVersions(CUDA_101, CUDA_0, CUDA_0))  // line 1094
      case _ => ("cuStreamGetCaptureInfo_v2", CudaVersions(CUDA_113, CUDA_0, CUDA_0))  // line 1288
    )
    else if i < 239 then (
      match i
      case 235 => ("cuStreamGetCtx", CudaVersions(CUDA_92, CUDA_0, CUDA_0))  // line 1095
      case 236 => ("cuStreamGetId", CudaVersions(CUDA_120, CUDA_0, CUDA_0))  // line 1343
      case 237 => ("cuStreamIsCapturing", CudaVersions(CUDA_100, CUDA_0, CUDA_0))  // line 1096
      case _ => ("cuStreamSetAttribute", CudaVersions(CUDA_110, CUDA_0, CUDA_0))  // line 1097
    )
    else ("cuStreamUpdateCaptureDependencies", CudaVersions(CUDA_113, CUDA_0, CUDA_0))  // line 1289
  }

  /** Rows 240 to 261. */
  function CudaVersionRows240To261(i: nat): (string, CudaVersions)
    requires 240 <= i < 262
  {
    if i < 244 then (
      match i
      case 240 => ("cuStreamWaitValue32", CudaVersions(CUDA_80, CUDA_0, CUDA_0))  // line 1108
      case 241 => ("cuStreamWaitValue32_v2", CudaVersions(CUDA_117, CUDA_0, CUDA_0))  // line 1316
      case 242 => ("cuStreamWaitValue64", CudaVersions(CUDA_90, CUDA_0, CUDA_0))  // line 1109
      case _ => ("cuStreamWaitValue64_v2", CudaVersions(CUDA_117, CUDA_0, CUDA_0))  // line 1317
    )
    else if i < 248 then (
      match i
      case 244 => ("cuStreamWriteValue32", CudaVersions(CUDA_80, CUDA_0, CUDA_0))  // line 1110
      case 245 => ("cuStreamWriteValue32_v2", CudaVersions(CUDA_117, CUDA_0, CUDA_0))  // line 1318
      case 246 => ("cuStreamWriteValue64", CudaVersions(CUDA_90, CUDA_0, CUDA_0))  // line 1111
      case _ => ("cuStreamWriteValue64_v2", CudaVersions(CUDA_117, CUDA_0, CUDA_0))  // line 1319
    )
    else if i < 252 then (
      match i
      case 248 => ("cuSurfRefGetArray", CudaVersions(CUDA_0, CUDA_110, CUDA_0))  // line 1197
      case 249 => ("cuSurfRefSetArray", CudaVersions(CUDA_0, CUDA_110, CUDA_0))  // line 1198
      case 250 => ("cuTensorMapEncodeIm2col", CudaVersions(CUDA_120, CUDA_0, CUDA_0))  // line 1346
      case _ => ("cuTensorMapEncodeTiled", CudaVersions(CUDA_120, CUDA_0, CUDA_0))  // line 1345
    )
    else if i < 256 then (
      match i
      case 252 => ("cuTensorMapReplaceAddress", CudaVersions(CUDA_120, CUDA_0, CUDA_0))  // line 1347
      case 253 => ("cuTexRefCreate", CudaVersions(CUDA_0, CUDA_110, CUDA_0))  // line 1195
      case 254 => ("cuTexRefDestroy", CudaVersions(CUDA_0, CUDA_110, CUDA_0))  // line 1196
      case _ => ("cuTexRefGetAddress", CudaVersions(CUDA_0, CUDA_110, CUDA_0))  // line 1168
    )
    else if i < 260 then (
      match i
      case 256 => ("cuTexRefGetAddressMode", CudaVersions(CUDA_0, CUDA_110, CUDA_0))  // line 1170
      case 257 => ("cuTexRefGetAddress_v2", CudaVersions(CUDA_0, CUDA_110, CUDA_0))  // line 1169
      case 258 => ("cuTexRefGetArray", CudaVersions(CUDA_0, CUDA_110, CUDA_0))  // line 1171
      case _ => ("cuTexRefGetBorderColor", CudaVersions(CUDA_80, CUDA_110, CUDA_0))  // line 1172
    )
    else (
      match i
      case 260 => ("cuTexRefGetFilterMode", CudaVersions(CUDA_0, CUDA_110, CUDA_0))  // line 1173
      case _ => ("cuTexRefGetFlags", CudaVersions(CUDA_0, CUDA_110, CUDA_0))  // line 1174
    )
  }

  /** Rows 262 to 286. */
  function CudaVersionRows262To286(i: nat): (string, CudaVersions)
    requires 262 <= i < 287
  {
    if i < 266 then (
      match i
      case 262 => ("cuTexRefGetFormat", CudaVersions(CUDA_0, CUDA_110, CUDA_0))  // line 1175
      case 263 => ("cuTexRefGetMaxAnisotropy", CudaVersions(CUDA_0, CUDA_110, CUDA_0))  // line 1176
      case 264 => ("cuTexRefGetMipmapFilterMode", CudaVersions(CUDA_0, CUDA_110, CUDA_0))  // line 1177
      case _ => ("cuTexRefGetMipmapLevelBias", CudaVersions(CUDA_0, CUDA_110, CUDA_0))  // line 1178
    )
    else if i < 270 then (
      match i
      case 266 => ("cuTexRefGetMipmapLevelClamp", CudaVersions(CUDA_0, CUDA_110, CUDA_0))  // line 1179
      case 267 => ("cuTexRefGetMipmappedArray", CudaVersions(CUDA_0, CUDA_110, CUDA_0))  // line 1180
      case 268 => ("cuTexRefSetAddress", CudaVersions(CUDA_0, CUDA_110, CUDA_0))  // line 1181
      case _ => ("cuTexRefSetAddress2D", CudaVersions(CUDA_0, CUDA_110, CUDA_0))  // line 1183
    )
    else if i < 274 then (
      match i
      case 270 => ("cuTexRefSetAddressMode", CudaVersions(CUDA_0, CUDA_110, CUDA_0))  // line 1184
      case 271 => ("cuTexRefSetAddress_v2", CudaVersions(CUDA_0, CUDA_110, CUDA_0))  // line 1182
      case 272 => ("cuTexRefSetArray", CudaVersions(CUDA_0, CUDA_110, CUDA_0))  // line 1185
      case _ => ("cuTexRefSetBorderColor", CudaVersions(CUDA_80, CUDA_110, CUDA_0))  // line 1186
    )
    else if i < 278 then (
      match i
      case 274 => ("cuTexRefSetFilterMode", CudaVersions(CUDA_0, CUDA_110, CUDA_0))  // line 1187
      case 275 => ("cuTexRefSetFlags", CudaVersions(CUDA_0, CUDA_110, CUDA_0))  // line 1188
      case 276 => ("cuTexRefSetFormat", CudaVersions(CUDA_0, CUDA_110, CUDA_0))  // line 1189
      case _ => ("cuTexRefSetMaxAnisotropy", CudaVersions(CUDA_0, CUDA_110, CUDA_0))  // line 1190
    )
    else if i < 282 then (
      match i
      case 278 => ("cuTexRefSetMipmapFilterMode", CudaVersions(CUDA_0, CUDA_110, CUDA_0))  // line 1191
      case 279 => ("cuTexRefSetMipmapLevelBias", CudaVersions(CUDA_0, CUDA_110, CUDA_0))  // line 1192
      case 280 => ("cuTexRefSetMipmapLevelClamp", CudaVersions(CUDA_0, CUDA_110, CUDA_0))  // line 1193
      case _ => ("cuTexRefSetMipmappedArray", CudaVersions(CUDA_0, CUDA_110, CUDA_0))  // line 1194
    )
    else if i < 286 then (
      match i
      case 282 => ("cuThreadExchangeStreamCaptureMode", CudaVersions(CUDA_101, CUDA_0, CUDA_0))  // line 1098
      case 283 => ("cuUserObjectCreate", CudaVersions(CUDA_113, CUDA_0, CUDA_0))  // line 1291
      case 284 => ("cuUserObjectRelease", CudaVersions(CUDA_113, CUDA_0, CUDA_0))  // line 1293
      case _ => ("cuUserObjectRetain", CudaVersions(CUDA_113, CUDA_0, CUDA_0))  // line 1292
    )
    else ("cuWaitExternalSemaphoresAsync", CudaVersions(CUDA_100, CUDA_0, CUDA_0))  // line 1106
  }

  /** Rows 223 to 286. */
  function CudaVersionRows223To286(i: nat): (string, CudaVersions)
    requires 223 <= i < 287
  {
    if i < 240 then CudaVersionRows223To239(i)
    else if i < 262 then CudaVersionRows240To261(i)
    else CudaVersionRows262To286(i)
  }

  /** Row `i` of the table, in key order. */
  function CudaVersionRow(i: nat): (string, CudaVersions)
    requires i < 287
  {
    if i < 23 then CudaVersionRows000To022(i)
    else if i < 63 then CudaVersionRows023To062(i)
    else if i < 113 then CudaVersionRows063To112(i)
    else if i < 157 then CudaVersionRows113To156(i)
    else if i < 190 then CudaVersionRows157To189(i)
    else if i < 211 then CudaVersionRows190To210(i)
    else if i < 223 then CudaVersionRows211To222(i)
    else CudaVersionRows223To286(i)
  }

  /** Every row of the table, in key order (the initializers hold the same rows). */
  function CudaVersionRows(): seq<(string, CudaVersions)>
  {
    seq(287, i requires 0 <= i < 287 => CudaVersionRow(i))
  }

  /** The `std::map` the initializer list builds. */
  function CudaVersionMap(): map<string, CudaVersions>
  {
    ToMap(CudaVersionRows())
  }
}
