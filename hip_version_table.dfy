/**
 * `HIP_DRIVER_FUNCTION_VER_MAP` (src/CUDA2HIP_Driver_API_functions.cpp:1351-1484):
 * the HIP release each HIP counterpart appeared in, was deprecated in and
 * was removed in, and whether it exists only in the latest release. One
 * row per initializer, listed in key order; each row notes its source line.
 */
module HipVersionTable {
  import opened Tables
  import opened DriverTypes

  /** Rows 0 to 26. */
  function HipVersionRows000To026(i: nat): (string, HipVersions)
    requires 0 <= i < 27
  {
    if i < 4 then (
      match i
      case 0 => ("hipArray3DCreate", HipVersions(HIP_1071, HIP_0, HIP_0, false))  // line 1385
      case 1 => ("hipArrayCreate", HipVersions(HIP_1090, HIP_0, HIP_0, false))  // line 1386
      case 2 => ("hipArrayDestroy", HipVersions(HIP_4020, HIP_0, HIP_0, false))  // line 1452
      case _ => ("hipCtxCreate", HipVersions(HIP_1060, HIP_1090, HIP_0, false))  // line 1363
    )
    else if i < 8 then (
      match i
      case 4 => ("hipCtxDestroy", HipVersions(HIP_1060, HIP_1090, HIP_0, false))  // line 1364
      case 5 => ("hipCtxDisablePeerAccess", HipVersions(HIP_1060, HIP_1090, HIP_0, false))  // line 1447
      case 6 => ("hipCtxEnablePeerAccess", HipVersions(HIP_1060, HIP_1090, HIP_0, false))  // line 1446
      case _ => ("hipCtxGetApiVersion", HipVersions(HIP_1090, HIP_1090, HIP_0, false))  // line 1365
    )
    else if i < 12 then (
      match i
      case 8 => ("hipCtxGetCacheConfig", HipVersions(HIP_1090, HIP_1090, HIP_0, false))  // line 1366
      case 9 => ("hipCtxGetCurrent", HipVersions(HIP_1060, HIP_1090, HIP_0, false))  // line 1367
      case 10 => ("hipCtxGetDevice", HipVersions(HIP_1060, HIP_1090, HIP_0, false))  // line 1368
      case _ => ("hipCtxGetFlags", HipVersions(HIP_1090, HIP_1090, HIP_0, false))  // line 1369
    )
    else if i < 16 then (
      match i
      case 12 => ("hipCtxGetSharedMemConfig", HipVersions(HIP_1090, HIP_1090, HIP_0, false))  // line 1370
      case 13 => ("hipCtxPopCurrent", HipVersions(HIP_1060, HIP_1090, HIP_0, false))  // line 1372
      case 14 => ("hipCtxPushCurrent", HipVersions(HIP_1060, HIP_1090, HIP_0, false))  // line 1373
      case _ => ("hipCtxSetCacheConfig", HipVersions(HIP_1090, HIP_1090, HIP_0, false))  // line 1374
    )
    else if i < 20 then (
      match i
      case 16 => ("hipCtxSetCurrent", HipVersions(HIP_1060, HIP_1090, HIP_0, false))  // line 1375
      case 17 => ("hipCtxSetSharedMemConfig", HipVersions(HIP_1090, HIP_1090, HIP_0, false))  // line 1376
      case 18 => ("hipCtxSynchronize", HipVersions(HIP_1090, HIP_1090, HIP_0, false))  // line 1377
      case _ => ("hipDeviceComputeCapability", HipVersions(HIP_1060, HIP_0, HIP_0, false))  // line 1357
    )
    else if i < 24 then (
      match i
      case 20 => ("hipDeviceGet", HipVersions(HIP_1060, HIP_0, HIP_0, false))  // line 1354
      case 21 => ("hipDeviceGetName", HipVersions(HIP_1060, HIP_0, HIP_0, false))  // line 1355
      case 22 => ("hipDeviceGetStreamPriorityRange", HipVersions(HIP_2000, HIP_0, HIP_0, false))  // line 1371
      case _ => ("hipDeviceGetUuid", HipVersions(HIP_5020, HIP_0, HIP_0, false))  // line 1462
    )
    else (
      match i
      case 24 => ("hipDevicePrimaryCtxGetState", HipVersions(HIP_1090, HIP_0, HIP_0, false))  // line 1358
      case 25 => ("hipDevicePrimaryCtxRelease", HipVersions(HIP_1090, HIP_0, HIP_0, false))  // line 1359
      case _ => ("hipDevicePrimaryCtxReset", HipVersions(HIP_1090, HIP_0, HIP_0, false))  // line 1360
    )
  }

  /** Rows 27 to 53. */
  function HipVersionRows027To053(i: nat): (string, HipVersions)
    requires 27 <= i < 54
  {
    if i < 31 then (
      match i
      case 27 => ("hipDevicePrimaryCtxRetain", HipVersions(HIP_1090, HIP_0, HIP_0, false))  // line 1361
      case 28 => ("hipDevicePrimaryCtxSetFlags", HipVersions(HIP_1090, HIP_0, HIP_0, false))  // line 1362
      case 29 => ("hipDeviceTotalMem", HipVersions(HIP_1060, HIP_0, HIP_0, false))  // line 1356
      case _ => ("hipDriverGetVersion", HipVersions(HIP_1060, HIP_0, HIP_0, false))  // line 1353
    )
    else if i < 35 then (
      match i
      case 31 => ("hipDrvGetErrorName", HipVersions(HIP_5040, HIP_0, HIP_0, true))  // line 1482
      case 32 => ("hipDrvGetErrorString", HipVersions(HIP_5040, HIP_0, HIP_0, true))  // line 1483
      case 33 => ("hipDrvMemcpy2DUnaligned", HipVersions(HIP_4020, HIP_0, HIP_0, false))  // line 1453
      case _ => ("hipDrvMemcpy3D", HipVersions(HIP_3050, HIP_0, HIP_0, false))  // line 1391
    )
    else if i < 39 then (
      match i
      case 35 => ("hipDrvMemcpy3DAsync", HipVersions(HIP_3050, HIP_0, HIP_0, false))  // line 1392
      case 36 => ("hipDrvPointerGetAttributes", HipVersions(HIP_5000, HIP_0, HIP_0, false))  // line 1455
      case 37 => ("hipFuncGetAttribute", HipVersions(HIP_2080, HIP_0, HIP_0, false))  // line 1411
      case _ => ("hipGraphicsGLRegisterImage", HipVersions(HIP_5010, HIP_0, HIP_0, false))  // line 1460
    )
    else if i < 43 then (
      match i
      case 39 => ("hipGraphicsSubResourceGetMappedArray", HipVersions(HIP_5010, HIP_0, HIP_0, false))  // line 1461
      case 40 => ("hipInit", HipVersions(HIP_1060, HIP_0, HIP_0, false))  // line 1352
      case 41 => ("hipMemAddressFree", HipVersions(HIP_5020, HIP_0, HIP_0, false))  // line 1463
      case _ => ("hipMemAddressReserve", HipVersions(HIP_5020, HIP_0, HIP_0, false))  // line 1464
    )
    else if i < 47 then (
      match i
      case 43 => ("hipMemAllocHost", HipVersions(HIP_3000, HIP_3000, HIP_0, false))  // line 1388
      case 44 => ("hipMemAllocPitch", HipVersions(HIP_3000, HIP_0, HIP_0, false))  // line 1387
      case 45 => ("hipMemCreate", HipVersions(HIP_5020, HIP_0, HIP_0, false))  // line 1465
      case _ => ("hipMemExportToShareableHandle", HipVersions(HIP_5020, HIP_0, HIP_0, false))  // line 1466
    )
    else if i < 51 then (
      match i
      case 47 => ("hipMemGetAccess", HipVersions(HIP_5020, HIP_0, HIP_0, false))  // line 1467
      case 48 => ("hipMemGetAddressRange", HipVersions(HIP_1090, HIP_0, HIP_0, false))  // line 1401
      case 49 => ("hipMemGetAllocationGranularity", HipVersions(HIP_5020, HIP_0, HIP_0, false))  // line 1468
      case _ => ("hipMemGetAllocationPropertiesFromHandle", HipVersions(HIP_5020, HIP_0, HIP_0, false))  // line 1469
    )
    else (
      match i
      case 51 => ("hipMemImportFromShareableHandle", HipVersions(HIP_5020, HIP_0, HIP_0, false))  // line 1470
      case 52 => ("hipMemMap", HipVersions(HIP_5020, HIP_0, HIP_0, false))  // line 1471
      case _ => ("hipMemMapArrayAsync", HipVersions(HIP_5020, HIP_0, HIP_0, false))  // line 1472
    )
  }

  /** Rows 54 to 79. */
  function HipVersionRows054To079(i: nat): (string, HipVersions)
    requires 54 <= i < 80
  {
    if i < 58 then (
      match i
      case 54 => ("hipMemRelease", HipVersions(HIP_5020, HIP_0, HIP_0, false))  // line 1473
      case 55 => ("hipMemRetainAllocationHandle", HipVersions(HIP_5020, HIP_0, HIP_0, false))  // line 1474
      case 56 => ("hipMemSetAccess", HipVersions(HIP_5020, HIP_0, HIP_0, false))  // line 1475
      case _ => ("hipMemUnmap", HipVersions(HIP_5020, HIP_0, HIP_0, false))  // line 1476
    )
    else if i < 62 then (
      match i
      case 58 => ("hipMemcpyAtoH", HipVersions(HIP_1090, HIP_0, HIP_0, false))  // line 1393
      case 59 => ("hipMemcpyDtoD", HipVersions(HIP_1060, HIP_0, HIP_0, false))  // line 1394
      case 60 => ("hipMemcpyDtoDAsync", HipVersions(HIP_1060, HIP_0, HIP_0, false))  // line 1395
      case _ => ("hipMemcpyDtoH", HipVersions(HIP_1060, HIP_0, HIP_0, false))  // line 1396
    )
    else if i < 66 then (
      match i
      case 62 => ("hipMemcpyDtoHAsync", HipVersions(HIP_1060, HIP_0, HIP_0, false))  // line 1397
      case 63 => ("hipMemcpyHtoA", HipVersions(HIP_1090, HIP_0, HIP_0, false))  // line 1398
      case 64 => ("hipMemcpyHtoD", HipVersions(HIP_1060, HIP_0, HIP_0, false))  // line 1399
      case _ => ("hipMemcpyHtoDAsync", HipVersions(HIP_1060, HIP_0, HIP_0, false))  // line 1400
    )
    else if i < 70 then (
      match i
      case 66 => ("hipMemcpyParam2D", HipVersions(HIP_1070, HIP_0, HIP_0, false))  // line 1389
      case 67 => ("hipMemcpyParam2DAsync", HipVersions(HIP_2080, HIP_0, HIP_0, false))  // line 1390
      case 68 => ("hipMemsetD16", HipVersions(HIP_3000, HIP_0, HIP_0, false))  // line 1402
      case _ => ("hipMemsetD16Async", HipVersions(HIP_3000, HIP_0, HIP_0, false))  // line 1403
    )
    else if i < 74 then (
      match i
      case 70 => ("hipMemsetD32", HipVersions(HIP_2030, HIP_0, HIP_0, false))  // line 1404
      case 71 => ("hipMemsetD32Async", HipVersions(HIP_2030, HIP_0, HIP_0, false))  // line 1405
      case 72 => ("hipMemsetD8", HipVersions(HIP_1060, HIP_0, HIP_0, false))  // line 1406
      case _ => ("hipMemsetD8Async", HipVersions(HIP_3000, HIP_0, HIP_0, false))  // line 1407
    )
    else if i < 78 then (
      match i
      case 74 => ("hipMipmappedArrayCreate", HipVersions(HIP_3050, HIP_0, HIP_0, false))  // line 1408
      case 75 => ("hipMipmappedArrayDestroy", HipVersions(HIP_3050, HIP_0, HIP_0, false))  // line 1409
      case 76 => ("hipMipmappedArrayGetLevel", HipVersions(HIP_3050, HIP_0, HIP_0, false))  // line 1410
      case _ => ("hipModuleGetFunction", HipVersions(HIP_1060, HIP_0, HIP_0, false))  // line 1378
    )
    else (
      match i
      case 78 => ("hipModuleGetGlobal", HipVersions(HIP_1060, HIP_0, HIP_0, false))  // line 1379
      case _ => ("hipModuleGetTexRef", HipVersions(HIP_1070, HIP_0, HIP_0, false))  // line 1380
    )
  }

  /** Rows 80 to 105. */
  function HipVersionRows080To105(i: nat): (string, HipVersions)
    requires 80 <= i < 106
  {
    if i < 84 then (
      match i
      case 80 => ("hipModuleLaunchKernel", HipVersions(HIP_1060, HIP_0, HIP_0, false))  // line 1412
      case 81 => ("hipModuleLoad", HipVersions(HIP_1060, HIP_0, HIP_0, false))  // line 1381
      case 82 => ("hipModuleLoadData", HipVersions(HIP_1060, HIP_0, HIP_0, false))  // line 1382
      case _ => ("hipModuleLoadDataEx", HipVersions(HIP_1060, HIP_0, HIP_0, false))  // line 1383
    )
    else if i < 88 then (
      match i
      case 84 => ("hipModuleOccupancyMaxActiveBlocksPerMultiprocessor", HipVersions(HIP_3050, HIP_0, HIP_0, false))  // line 1413
      case 85 => ("hipModuleOccupancyMaxActiveBlocksPerMultiprocessorWithFlags", HipVersions(HIP_3050, HIP_0, HIP_0, false))  // line 1414
      case 86 => ("hipModuleOccupancyMaxPotentialBlockSize", HipVersions(HIP_3050, HIP_0, HIP_0, false))  // line 1415
      case _ => ("hipModuleOccupancyMaxPotentialBlockSizeWithFlags", HipVersions(HIP_3050, HIP_0, HIP_0, false))  // line 1416
    )
    else if i < 92 then (
      match i
      case 88 => ("hipModuleUnload", HipVersions(HIP_1060, HIP_0, HIP_0, false))  // line 1384
      case 89 => ("hipPointerGetAttribute", HipVersions(HIP_5000, HIP_0, HIP_0, false))  // line 1454
      case 90 => ("hipStreamGetCaptureInfo", HipVersions(HIP_5000, HIP_0, HIP_0, false))  // line 1456
      case _ => ("hipStreamGetCaptureInfo_v2", HipVersions(HIP_5000, HIP_0, HIP_0, false))  // line 1457
    )
    else if i < 96 then (
      match i
      case 92 => ("hipStreamIsCapturing", HipVersions(HIP_5000, HIP_0, HIP_0, false))  // line 1458
      case 93 => ("hipStreamUpdateCaptureDependencies", HipVersions(HIP_5000, HIP_0, HIP_0, false))  // line 1459
      case 94 => ("hipStreamWaitValue32", HipVersions(HIP_4020, HIP_0, HIP_0, false))  // line 1448
      case _ => ("hipStreamWaitValue64", HipVersions(HIP_4020, HIP_0, HIP_0, false))  // line 1449
    )
    else if i < 100 then (
      match i
      case 96 => ("hipStreamWriteValue32", HipVersions(HIP_4020, HIP_0, HIP_0, false))  // line 1450
      case 97 => ("hipStreamWriteValue64", HipVersions(HIP_4020, HIP_0, HIP_0, false))  // line 1451
      case 98 => ("hipTexObjectCreate", HipVersions(HIP_3050, HIP_0, HIP_0, false))  // line 1441
      case _ => ("hipTexObjectDestroy", HipVersions(HIP_3050, HIP_0, HIP_0, false))  // line 1442
    )
    else if i < 104 then (
      match i
      case 100 => ("hipTexObjectGetResourceDesc", HipVersions(HIP_3050, HIP_0, HIP_0, false))  // line 1443
      case 101 => ("hipTexObjectGetResourceViewDesc", HipVersions(HIP_3050, HIP_0, HIP_0, false))  // line 1444
      case 102 => ("hipTexObjectGetTextureDesc", HipVersions(HIP_3050, HIP_0, HIP_0, false))  // line 1445
      case _ => ("hipTexRefGetAddress", HipVersions(HIP_3000, HIP_4030, HIP_0, false))  // line 1417
    )
    else (
      match i
      case 104 => ("hipTexRefGetAddressMode", HipVersions(HIP_3000, HIP_4030, HIP_0, false))  // line 1418
      case _ => ("hipTexRefGetArray", HipVersions(HIP_3000, HIP_0, HIP_4020, false))  // line 1419
    )
  }

  /** Rows 106 to 131. */
  function HipVersionRows106To131(i: nat): (string, HipVersions)
    requires 106 <= i < 132
  {
    if i < 110 then (
      match i
      case 106 => ("hipTexRefGetFilterMode", HipVersions(HIP_3050, HIP_4030, HIP_0, false))  // line 1420
      case 107 => ("hipTexRefGetFlags", HipVersions(HIP_3050, HIP_4030, HIP_0, false))  // line 1421
      case 108 => ("hipTexRefGetFormat", HipVersions(HIP_3050, HIP_4030, HIP_0, false))  // line 1422
      case _ => ("hipTexRefGetMaxAnisotropy", HipVersions(HIP_3050, HIP_4030, HIP_0, false))  // line 1423
    )
    else if i < 114 then (
      match i
      case 110 => ("hipTexRefGetMipMappedArray", HipVersions(HIP_3050, HIP_4030, HIP_0, false))  // line 1427
      case 111 => ("hipTexRefGetMipmapFilterMode", HipVersions(HIP_3050, HIP_4030, HIP_0, false))  // line 1424
      case 112 => ("hipTexRefGetMipmapLevelBias", HipVersions(HIP_3050, HIP_4030, HIP_0, false))  // line 1425
      case _ => ("hipTexRefGetMipmapLevelClamp", HipVersions(HIP_3050, HIP_4030, HIP_0, false))  // line 1426
    )
    else if i < 118 then (
      match i
      case 114 => ("hipTexRefSetAddress", HipVersions(HIP_1070, HIP_4030, HIP_0, false))  // line 1428
      case 115 => ("hipTexRefSetAddress2D", HipVersions(HIP_1070, HIP_4030, HIP_0, false))  // line 1429
      case 116 => ("hipTexRefSetAddressMode", HipVersions(HIP_1090, HIP_5030, HIP_0, false))  // line 1430
      case _ => ("hipTexRefSetArray", HipVersions(HIP_1090, HIP_5030, HIP_0, false))  // line 1431
    )
    else if i < 122 then (
      match i
      case 118 => ("hipTexRefSetBorderColor", HipVersions(HIP_3050, HIP_4030, HIP_0, false))  // line 1432
      case 119 => ("hipTexRefSetFilterMode", HipVersions(HIP_1090, HIP_5030, HIP_0, false))  // line 1433
      case 120 => ("hipTexRefSetFlags", HipVersions(HIP_1090, HIP_5030, HIP_0, false))  // line 1434
      case _ => ("hipTexRefSetFormat", HipVersions(HIP_1090, HIP_5030, HIP_0, false))  // line 1435
    )
    else if i < 126 then (
      match i
      case 122 => ("hipTexRefSetMaxAnisotropy", HipVersions(HIP_3050, HIP_4030, HIP_0, false))  // line 1436
      case 123 => ("hipTexRefSetMipmapFilterMode", HipVersions(HIP_3050, HIP_5030, HIP_0, false))  // line 1437
      case 124 => ("hipTexRefSetMipmapLevelBias", HipVersions(HIP_3050, HIP_5030, HIP_0, false))  // line 1438
      case _ => ("hipTexRefSetMipmapLevelClamp", HipVersions(HIP_3050, HIP_5030, HIP_0, false))  // line 1439
    )
    else if i < 130 then (
      match i
      case 126 => ("hipTexRefSetMipmappedArray", HipVersions(HIP_3050, HIP_5030, HIP_0, false))  // line 1440
      case 127 => ("hiprtcLinkAddData", HipVersions(HIP_5030, HIP_0, HIP_0, false))  // line 1479
      case 128 => ("hiprtcLinkAddFile", HipVersions(HIP_5030, HIP_0, HIP_0, false))  // line 1478
      case _ => ("hiprtcLinkComplete", HipVersions(HIP_5030, HIP_0, HIP_0, false))  // line 1480
    )
    else (
      match i
      case 130 => ("hiprtcLinkCreate", HipVersions(HIP_5030, HIP_0, HIP_0, false))  // line 1477
      case _ => ("hiprtcLinkDestroy", HipVersions(HIP_5030, HIP_0, HIP_0, false))  // line 1481
    )
  }

  /** Row `i` of the table, in key order. */
  function HipVersionRow(i: nat): (string, HipVersions)
    requires i < 132
  {
    if i < 27 then HipVersionRows000To026(i)
    else if i < 54 then HipVersionRows027To053(i)
    else if i < 80 then HipVersionRows054To079(i)
    else if i < 106 then HipVersionRows080To105(i)
    else HipVersionRows106To131(i)
  }

  /** Every row of the table, in key order (the initializers hold the same rows). */
  function HipVersionRows(): seq<(string, HipVersions)>
  {
    seq(132, i requires 0 <= i < 132 => HipVersionRow(i))
  }

  /** The `std::map` the initializer list builds. */
  function HipVersionMap(): map<string, HipVersions>
  {
    ToMap(HipVersionRows())
  }
}
