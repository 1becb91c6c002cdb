/**
 * The four tables of src/CUDA2HIP_Driver_API_functions.cpp as the maps hipify
 * consults, and what holds of them: each table is well formed on its own, the
 * tables agree with one another, and lookups behave as the translation of the
 * CUDA driver API expects.
 */
module DriverMaps {
  import opened Tables
  import opened KeyOrder
  import opened DriverTypes
  import opened DriverRules
  import opened FunctionTable
  import opened CudaVersionTable
  import opened HipVersionTable
  import opened SectionTable
  import FunctionProofs
  import CudaVersionProofs
  import HipVersionProofs
  import SectionProofs
  import CudaMatchProofs
  import FlagProofs
  import TargetProofs

  // ---------------------------------------------------------------- each table on its own

  /** Row `i` of the function map is `FunctionRow(i)`, and the keys ascend. */
  lemma FunctionRowsAscending()
    ensures |FunctionRows()| == 514
    ensures forall r | r in FunctionRows() :: FunctionEntryOk(r)
    ensures Ascending(FunctionRows())
  {
    FunctionProofs.FunctionRowOk();
    var t := FunctionRows();
    assert forall i | 0 <= i < 514 :: t[i] == FunctionRow(i);
  }

  /**
   * `CUDA_DRIVER_FUNCTION_MAP` has 514 entries under 514 distinct CUDA names,
   * so the `std::map` keeps every one of them, and every entry is a well-formed
   * driver-API entry.
   */
  lemma FunctionMapWellFormed()
    ensures |FunctionRows()| == 514
    ensures DistinctKeys(FunctionRows())
    ensures |FunctionMap()| == 514
    ensures forall r | r in FunctionRows() :: FunctionEntryOk(r)
  {
    FunctionRowsAscending();
    AscendingDistinct(FunctionRows());
    MapSizeIffDistinct(FunctionRows());
  }

  lemma CudaVersionRowsAscending()
    ensures |CudaVersionRows()| == 287
    ensures forall e | e in CudaVersionRows() :: CudaVersionsOk(e)
    ensures Ascending(CudaVersionRows())
  {
    CudaVersionProofs.CudaVersionRowOk();
    var t := CudaVersionRows();
    assert forall i | 0 <= i < 287 :: t[i] == CudaVersionRow(i);
  }

  /**
   * `CUDA_DRIVER_FUNCTION_VER_MAP` has 287 entries under distinct names; in
   * each the versions are ordered, at least one is set, and the CUDA removal
   * version is never set.
   */
  lemma CudaVersionMapWellFormed()
    ensures |CudaVersionRows()| == 287
    ensures DistinctKeys(CudaVersionRows())
    ensures |CudaVersionMap()| == 287
    ensures forall e | e in CudaVersionRows() :: CudaVersionsOk(e)
  {
    CudaVersionRowsAscending();
    AscendingDistinct(CudaVersionRows());
    MapSizeIffDistinct(CudaVersionRows());
  }

  lemma HipVersionRowsAscending()
    ensures |HipVersionRows()| == 132
    ensures forall e | e in HipVersionRows() :: HipVersionsOk(e)
    ensures Ascending(HipVersionRows())
  {
    HipVersionProofs.HipVersionRowOk();
    var t := HipVersionRows();
    assert forall i | 0 <= i < 132 :: t[i] == HipVersionRow(i);
  }

  /**
   * `HIP_DRIVER_FUNCTION_VER_MAP` has 132 entries under distinct names; in
   * each the versions are ordered, the appearance version is set, and an
   * entry of the latest release only is neither deprecated nor removed.
   */
  lemma HipVersionMapWellFormed()
    ensures |HipVersionRows()| == 132
    ensures DistinctKeys(HipVersionRows())
    ensures |HipVersionMap()| == 132
    ensures forall e | e in HipVersionRows() :: HipVersionsOk(e)
  {
    HipVersionRowsAscending();
    AscendingDistinct(HipVersionRows());
    MapSizeIffDistinct(HipVersionRows());
  }

  /** The section map lists sections 1 to 40 in order. */
  lemma SectionRowsNumbered()
    ensures |SectionRows()| == 40
    ensures forall i | 0 <= i < 40 :: SectionRows()[i].0 == i + 1
  {
    SectionProofs.SectionRowNumbered();
    var t := SectionRows();
    assert forall i | 0 <= i < 40 :: t[i] == SectionRow(i);
  }

  /** A table whose row `i` has key `i + 1` builds a map with exactly the keys 1 to `|t|`. */
  lemma NumberedKeys<V>(t: seq<(nat, V)>)
    requires forall i | 0 <= i < |t| :: t[i].0 == i + 1
    ensures DistinctKeys(t)
    ensures |ToMap(t)| == |t|
    ensures forall n: nat :: n in ToMap(t) <==> 1 <= n <= |t|
  {
    MapSizeIffDistinct(t);
    forall n: nat
      ensures n in ToMap(t) <==> 1 <= n <= |t|
    {
      if 1 <= n <= |t| {
        LookupRow(t, t[n - 1]);
      }
      if n in ToMap(t) {
        var i :| 0 <= i < |t| && t[i] == (n, Lookup(t, n).value);
      }
    }
  }

  /** The section numbers are distinct, so the map keeps all 40 sections, under exactly the keys 1 to 40. */
  lemma SectionKeys()
    ensures DistinctKeys(SectionRows())
    ensures |SectionMap()| == 40
    ensures forall n: nat :: n in SectionMap() <==> 1 <= n <= 40
  {
    SectionRowsNumbered();
    NumberedKeys(SectionRows());
  }

  /**
   * `CUDA_DRIVER_API_SECTION_MAP` numbers its sections 1 to 40 in order and
   * without gaps, and its first section is the one about data types.
   */
  lemma SectionMapWellFormed()
    ensures |SectionRows()| == 40
    ensures forall i | 0 <= i < 40 :: SectionRows()[i].0 == i + 1
    ensures forall n: nat :: n in SectionMap() <==> 1 <= n <= 40
    ensures |SectionMap()| == 40
    ensures SectionMap()[1] == "CUDA Driver Data Types"
  {
    SectionRowsNumbered();
    SectionKeys();
    var t := SectionRows();
    assert t[0] == SectionRow(0);
    LookupRow(t, t[0]);
  }

  // ---------------------------------------------------------------- sections

  /**
   * Every function entry names a section the section map has, and none names
   * section 1, which lists data types rather than functions.
   */
  lemma SectionsResolve()
    ensures forall r | r in FunctionRows() :: r.1.section in SectionMap() && r.1.section != 1
    ensures 1 in SectionMap()
  {
    FunctionMapWellFormed();
    SectionMapWellFormed();
  }

  // ---------------------------------------------------------------- the tables agree

  /**
   * Every CUDA version entry is about a symbol of the function map, and a CUDA
   * deprecation version goes with the `CUDA_DEPRECATED` flag on that symbol's
   * entry (`cuProfilerInitialize` aside).
   */
  lemma CudaVersionsBelongToFunctions()
    ensures forall e | e in CudaVersionRows() :: CudaRowAgrees(e, FunctionMap())
  {
    CudaMatchProofs.FunctionRowCudaMatched();
    forall e | e in CudaVersionRows()
      ensures CudaRowAgrees(e, FunctionMap())
    {
      var j :| 0 <= j < 287 && CudaVersionRows()[j] == e;
      assert CudaMatchProofs.MatchedByFunctionRow(CudaVersionRow(j));
      var i :| 0 <= i < 514 && CudaRowMatches(e, FunctionRow(i));
      FunctionAt(i);
    }
  }

  /**
   * Every entry marked `CUDA_DEPRECATED` has a CUDA deprecation version in the
   * CUDA version map (`cuCtxAttach` and `cuCtxDetach` aside).
   */
  lemma CudaFlagsBacked()
    ensures forall r | r in FunctionRows() :: CudaFlagAgrees(r, CudaVersionMap())
  {
    FlagProofs.FunctionRowBacked();
    forall r | r in FunctionRows()
      ensures CudaFlagAgrees(r, CudaVersionMap())
    {
      var i :| 0 <= i < 514 && FunctionRows()[i] == r;
      if NeedsCudaRow(r) {
        assert FlagProofs.BackedByCudaVersionRow(FunctionRow(i));
        var j :| 0 <= j < 287 && CudaRowBacks(r, CudaVersionRow(j));
        CudaVersionAt(j);
      }
    }
  }

  /**
   * The HIP status flags of every entry are backed by the HIP version map:
   * a HIP-deprecated target has a deprecation version, an experimental one is
   * in the latest HIP release only, and a removed one has a removal version
   * and no deprecation version.
   */
  lemma HipStatusBacked()
    ensures forall r | r in FunctionRows() :: HipStatusAgrees(r, HipVersionMap())
  {
    FlagProofs.FunctionRowBacked();
    forall r | r in FunctionRows()
      ensures HipStatusAgrees(r, HipVersionMap())
    {
      var i :| 0 <= i < 514 && FunctionRows()[i] == r;
      if HasHipStatus(r) {
        assert FlagProofs.BackedByHipVersionRow(FunctionRow(i));
        var j :| 0 <= j < 132 && HipRowBacks(r, HipVersionRow(j));
        HipVersionAt(j);
      }
    }
  }

  /**
   * Conversely, an entry whose target the HIP version map records as
   * existing only in the latest HIP release is marked `HIP_EXPERIMENTAL`, and
   * one whose target it records as removed is marked `HIP_REMOVED`.
   */
  lemma HipVersionsFlagged()
    ensures forall r | r in FunctionRows() :: HipVersionFlagged(r, HipVersionMap())
  {
    FlagProofs.FunctionRowBacked();
    HipVersionMapWellFormed();
    forall r | r in FunctionRows()
      ensures HipVersionFlagged(r, HipVersionMap())
    {
      var i :| 0 <= i < 514 && FunctionRows()[i] == r;
      assert HipTargetFlagged(FunctionRow(i));
      if r.1.hipName in HipVersionMap() {
        assert (r.1.hipName, HipVersionMap()[r.1.hipName]) in HipVersionRows();
      }
    }
  }

  /** Every HIP version entry is about a function some CUDA symbol translates to. */
  lemma HipVersionsTargeted()
    ensures forall e | e in HipVersionRows() :: HipRowTargeted(e, FunctionMap())
  {
    TargetProofs.HipVersionRowTargeted();
    forall e | e in HipVersionRows()
      ensures HipRowTargeted(e, FunctionMap())
    {
      var j :| 0 <= j < 132 && HipVersionRows()[j] == e;
      assert TargetProofs.IsFunctionTarget(HipVersionRow(j).0);
      var i :| 0 <= i < 514 && FunctionRow(i).1.hipName == e.0;
      FunctionAt(i);
    }
  }

  // ---------------------------------------------------------------- lookups

  /** Every function entry is found again under its own CUDA name, in the list and in the map. */
  lemma FunctionLookupRoundTrip()
    ensures forall r | r in FunctionRows() :: Lookup(FunctionRows(), r.0) == Some(r.1)
    ensures forall r | r in FunctionRows() :: r.0 in FunctionMap() && FunctionMap()[r.0] == r.1
  {
    FunctionMapWellFormed();
    forall r | r in FunctionRows()
      ensures Lookup(FunctionRows(), r.0) == Some(r.1)
      ensures r.0 in FunctionMap() && FunctionMap()[r.0] == r.1
    {
      LookupRow(FunctionRows(), r);
    }
  }

  /** Every CUDA version entry is found again under its own name. */
  lemma CudaVersionLookupRoundTrip()
    ensures forall e | e in CudaVersionRows() :: e.0 in CudaVersionMap() && CudaVersionMap()[e.0] == e.1
  {
    CudaVersionMapWellFormed();
    RowsToMap(CudaVersionRows());
  }

  /** Every HIP version entry is found again under its own name. */
  lemma HipVersionLookupRoundTrip()
    ensures forall e | e in HipVersionRows() :: e.0 in HipVersionMap() && HipVersionMap()[e.0] == e.1
  {
    HipVersionMapWellFormed();
    RowsToMap(HipVersionRows());
  }

  /** The entry of the function map at row `i`, found under its key. */
  lemma FunctionAt(i: nat)
    requires i < 514
    ensures FunctionRow(i).0 in FunctionMap()
    ensures FunctionMap()[FunctionRow(i).0] == FunctionRow(i).1
  {
    FunctionMapWellFormed();
    assert FunctionRows()[i] == FunctionRow(i);
    LookupRow(FunctionRows(), FunctionRow(i));
  }

  /** The entry of the CUDA version map at row `j`, found under its key. */
  lemma CudaVersionAt(j: nat)
    requires j < 287
    ensures CudaVersionRow(j).0 in CudaVersionMap()
    ensures CudaVersionMap()[CudaVersionRow(j).0] == CudaVersionRow(j).1
  {
    CudaVersionMapWellFormed();
    assert CudaVersionRows()[j] == CudaVersionRow(j);
    LookupRow(CudaVersionRows(), CudaVersionRow(j));
  }

  /** The entry of the HIP version map at row `j`, found under its key. */
  lemma HipVersionAt(j: nat)
    requires j < 132
    ensures HipVersionRow(j).0 in HipVersionMap()
    ensures HipVersionMap()[HipVersionRow(j).0] == HipVersionRow(j).1
  {
    HipVersionMapWellFormed();
    assert HipVersionRows()[j] == HipVersionRow(j);
    LookupRow(HipVersionRows(), HipVersionRow(j));
  }

  // Entries of the function map, each as its source line gives it.

  /** `cuDeviceGetUuid` (line 58). */
  lemma DeviceGetUuidEntry()
    ensures "cuDeviceGetUuid" in FunctionMap() && FunctionMap()["cuDeviceGetUuid"] == HipCounter("hipDeviceGetUuid", "", CONV_DEVICE, API_DRIVER, 5, 0)
  {
    assert FunctionRow(95) == ("cuDeviceGetUuid", HipCounter("hipDeviceGetUuid", "", CONV_DEVICE, API_DRIVER, 5, 0));
    FunctionAt(95);
  }

  /** `cuDeviceGetUuid_v2` (line 60). */
  lemma DeviceGetUuidV2Entry()
    ensures "cuDeviceGetUuid_v2" in FunctionMap() && FunctionMap()["cuDeviceGetUuid_v2"] == HipCounter("hipDeviceGetUuid", "", CONV_DEVICE, API_DRIVER, 5, 0)
  {
    assert FunctionRow(96) == ("cuDeviceGetUuid_v2", HipCounter("hipDeviceGetUuid", "", CONV_DEVICE, API_DRIVER, 5, 0));
    FunctionAt(96);
  }

  /** `cuMemAlloc` (line 207). */
  lemma MemAllocEntry()
    ensures "cuMemAlloc" in FunctionMap() && FunctionMap()["cuMemAlloc"] == HipCounter("hipMalloc", "", CONV_MEMORY, API_DRIVER, 13, 0)
  {
    assert FunctionRow(283) == ("cuMemAlloc", HipCounter("hipMalloc", "", CONV_MEMORY, API_DRIVER, 13, 0));
    FunctionAt(283);
  }

  /** `cuMemAlloc_v2` (line 208). */
  lemma MemAllocV2Entry()
    ensures "cuMemAlloc_v2" in FunctionMap() && FunctionMap()["cuMemAlloc_v2"] == HipCounter("hipMalloc", "", CONV_MEMORY, API_DRIVER, 13, 0)
  {
    assert FunctionRow(291) == ("cuMemAlloc_v2", HipCounter("hipMalloc", "", CONV_MEMORY, API_DRIVER, 13, 0));
    FunctionAt(291);
  }

  /** `cuCtxCreate` (line 94). */
  lemma CtxCreateEntry()
    ensures "cuCtxCreate" in FunctionMap() && FunctionMap()["cuCtxCreate"] == HipCounter("hipCtxCreate", "", CONV_CONTEXT, API_DRIVER, 8, HIP_DEPRECATED)
  {
    assert FunctionRow(13) == ("cuCtxCreate", HipCounter("hipCtxCreate", "", CONV_CONTEXT, API_DRIVER, 8, HIP_DEPRECATED));
    FunctionAt(13);
  }

  /** `cuCtxCreate_v3` (line 96). */
  lemma CtxCreateV3Entry()
    ensures "cuCtxCreate_v3" in FunctionMap() && FunctionMap()["cuCtxCreate_v3"] == HipCounter("hipCtxCreate_v3", "", CONV_CONTEXT, API_DRIVER, 8, HIP_UNSUPPORTED)
  {
    assert FunctionRow(15) == ("cuCtxCreate_v3", HipCounter("hipCtxCreate_v3", "", CONV_CONTEXT, API_DRIVER, 8, HIP_UNSUPPORTED));
    FunctionAt(15);
  }

  /** `cuStreamGetCaptureInfo` (line 451). */
  lemma StreamGetCaptureInfoEntry()
    ensures "cuStreamGetCaptureInfo" in FunctionMap() && FunctionMap()["cuStreamGetCaptureInfo"] == HipCounter("hipStreamGetCaptureInfo", "", CONV_STREAM, API_DRIVER, 17, 0)
  {
    assert FunctionRow(442) == ("cuStreamGetCaptureInfo", HipCounter("hipStreamGetCaptureInfo", "", CONV_STREAM, API_DRIVER, 17, 0));
    FunctionAt(442);
  }

  /** `cuStreamGetCaptureInfo_v2` (line 452). */
  lemma StreamGetCaptureInfoV2Entry()
    ensures "cuStreamGetCaptureInfo_v2" in FunctionMap() && FunctionMap()["cuStreamGetCaptureInfo_v2"] == HipCounter("hipStreamGetCaptureInfo_v2", "", CONV_STREAM, API_DRIVER, 17, 0)
  {
    assert FunctionRow(443) == ("cuStreamGetCaptureInfo_v2", HipCounter("hipStreamGetCaptureInfo_v2", "", CONV_STREAM, API_DRIVER, 17, 0));
    FunctionAt(443);
  }

  /** `cuInit` (line 37). */
  lemma InitEntry()
    ensures "cuInit" in FunctionMap() && FunctionMap()["cuInit"] == HipCounter("hipInit", "", CONV_INIT, API_DRIVER, 3, 0)
  {
    assert FunctionRow(246) == ("cuInit", HipCounter("hipInit", "", CONV_INIT, API_DRIVER, 3, 0));
    FunctionAt(246);
  }

  /** `cuCtxAttach` (line 136). */
  lemma CtxAttachEntry()
    ensures "cuCtxAttach" in FunctionMap() && FunctionMap()["cuCtxAttach"] == HipCounter("hipCtxAttach", "", CONV_CONTEXT, API_DRIVER, 9, HIP_UNSUPPORTED | CUDA_DEPRECATED)
  {
    assert FunctionRow(12) == ("cuCtxAttach", HipCounter("hipCtxAttach", "", CONV_CONTEXT, API_DRIVER, 9, HIP_UNSUPPORTED | CUDA_DEPRECATED));
    FunctionAt(12);
  }

  /** `cuCtxDetach` (line 137). */
  lemma CtxDetachEntry()
    ensures "cuCtxDetach" in FunctionMap() && FunctionMap()["cuCtxDetach"] == HipCounter("hipCtxDetach", "", CONV_CONTEXT, API_DRIVER, 9, HIP_UNSUPPORTED | CUDA_DEPRECATED)
  {
    assert FunctionRow(18) == ("cuCtxDetach", HipCounter("hipCtxDetach", "", CONV_CONTEXT, API_DRIVER, 9, HIP_UNSUPPORTED | CUDA_DEPRECATED));
    FunctionAt(18);
  }

  /** `cuProfilerInitialize` (line 896). */
  lemma ProfilerInitializeEntry()
    ensures "cuProfilerInitialize" in FunctionMap() && FunctionMap()["cuProfilerInitialize"] == HipCounter("hipProfilerInitialize", "", CONV_PROFILER, API_DRIVER, 33, HIP_UNSUPPORTED)
  {
    assert FunctionRow(424) == ("cuProfilerInitialize", HipCounter("hipProfilerInitialize", "", CONV_PROFILER, API_DRIVER, 33, HIP_UNSUPPORTED));
    FunctionAt(424);
  }

  /** `cuGetErrorName` (line 30). */
  lemma GetErrorNameEntry()
    ensures "cuGetErrorName" in FunctionMap() && FunctionMap()["cuGetErrorName"] == HipCounter("hipDrvGetErrorName", "", CONV_ERROR, API_DRIVER, 2, HIP_EXPERIMENTAL)
  {
    assert FunctionRow(149) == ("cuGetErrorName", HipCounter("hipDrvGetErrorName", "", CONV_ERROR, API_DRIVER, 2, HIP_EXPERIMENTAL));
    FunctionAt(149);
  }

  /** `cuGetErrorString` (line 33). */
  lemma GetErrorStringEntry()
    ensures "cuGetErrorString" in FunctionMap() && FunctionMap()["cuGetErrorString"] == HipCounter("hipDrvGetErrorString", "", CONV_ERROR, API_DRIVER, 2, HIP_EXPERIMENTAL)
  {
    assert FunctionRow(150) == ("cuGetErrorString", HipCounter("hipDrvGetErrorString", "", CONV_ERROR, API_DRIVER, 2, HIP_EXPERIMENTAL));
    FunctionAt(150);
  }

  /** `cuTexRefGetArray` (line 788). */
  lemma TexRefGetArrayEntry()
    ensures "cuTexRefGetArray" in FunctionMap() && FunctionMap()["cuTexRefGetArray"] == HipCounter("hipTexRefGetArray", "", CONV_TEXTURE, API_DRIVER, 25, CUDA_DEPRECATED | HIP_REMOVED)
  {
    assert FunctionRow(480) == ("cuTexRefGetArray", HipCounter("hipTexRefGetArray", "", CONV_TEXTURE, API_DRIVER, 25, CUDA_DEPRECATED | HIP_REMOVED));
    FunctionAt(480);
  }

  /** `cuMemAllocHost` (line 210). */
  lemma MemAllocHostEntry()
    ensures "cuMemAllocHost" in FunctionMap() && FunctionMap()["cuMemAllocHost"] == HipCounter("hipMemAllocHost", "", CONV_MEMORY, API_DRIVER, 13, 0)
  {
    assert FunctionRow(286) == ("cuMemAllocHost", HipCounter("hipMemAllocHost", "", CONV_MEMORY, API_DRIVER, 13, 0));
    FunctionAt(286);
  }

  /** `cuMemAllocHost_v2` (line 211). */
  lemma MemAllocHostV2Entry()
    ensures "cuMemAllocHost_v2" in FunctionMap() && FunctionMap()["cuMemAllocHost_v2"] == HipCounter("hipMemAllocHost", "", CONV_MEMORY, API_DRIVER, 13, 0)
  {
    assert FunctionRow(287) == ("cuMemAllocHost_v2", HipCounter("hipMemAllocHost", "", CONV_MEMORY, API_DRIVER, 13, 0));
    FunctionAt(287);
  }

  // Entries of the CUDA and HIP version maps.

  /** `cuProfilerInitialize` (line 1200): deprecated since CUDA 11.0, with no version it appeared in. */
  lemma ProfilerInitializeVersions()
    ensures "cuProfilerInitialize" in CudaVersionMap()
    ensures CudaVersionMap()["cuProfilerInitialize"] == CudaVersions(CUDA_0, CUDA_110, CUDA_0)
  {
    assert CudaVersionRow(223) == ("cuProfilerInitialize", CudaVersions(CUDA_0, CUDA_110, CUDA_0));
    CudaVersionAt(223);
  }

  /** `hipDrvGetErrorName` (line 1482). */
  lemma DrvGetErrorNameVersions()
    ensures "hipDrvGetErrorName" in HipVersionMap() && HipVersionMap()["hipDrvGetErrorName"] == HipVersions(HIP_5040, HIP_0, HIP_0, true)
  {
    assert HipVersionRow(31) == ("hipDrvGetErrorName", HipVersions(HIP_5040, HIP_0, HIP_0, true));
    HipVersionAt(31);
  }

  /** `hipDrvGetErrorString` (line 1483). */
  lemma DrvGetErrorStringVersions()
    ensures "hipDrvGetErrorString" in HipVersionMap() && HipVersionMap()["hipDrvGetErrorString"] == HipVersions(HIP_5040, HIP_0, HIP_0, true)
  {
    assert HipVersionRow(32) == ("hipDrvGetErrorString", HipVersions(HIP_5040, HIP_0, HIP_0, true));
    HipVersionAt(32);
  }

  /** `hipTexRefGetArray` (line 1419). */
  lemma TexRefGetArrayVersions()
    ensures "hipTexRefGetArray" in HipVersionMap() && HipVersionMap()["hipTexRefGetArray"] == HipVersions(HIP_3000, HIP_0, HIP_4020, false)
  {
    assert HipVersionRow(105) == ("hipTexRefGetArray", HipVersions(HIP_3000, HIP_0, HIP_4020, false));
    HipVersionAt(105);
  }

  /** `hipMemAllocHost` (line 1388). */
  lemma MemAllocHostVersions()
    ensures "hipMemAllocHost" in HipVersionMap() && HipVersionMap()["hipMemAllocHost"] == HipVersions(HIP_3000, HIP_3000, HIP_0, false)
  {
    assert HipVersionRow(43) == ("hipMemAllocHost", HipVersions(HIP_3000, HIP_3000, HIP_0, false));
    HipVersionAt(43);
  }

  /** `cuInit` falls between two neighbouring keys of the CUDA version map, so it has no entry there. */
  lemma InitHasNoVersions()
    ensures Lookup(CudaVersionRows(), "cuInit") == None && "cuInit" !in CudaVersionMap()
  {
    CudaVersionRowsAscending();
    var t := CudaVersionRows();
    assert t[158] == CudaVersionRow(158) && t[159] == CudaVersionRow(159);
    assert t[158].0 == "cuImportExternalSemaphore" && t[159].0 == "cuKernelGetAttribute";
    PrecedesAt("cuImportExternalSemaphore", "cuInit", 3);
    PrecedesAt("cuInit", "cuKernelGetAttribute", 2);
    NotBetween(t, 158, "cuInit");
    LookupAbsent(t, "cuInit");
  }

  /** `cuCtxAttach` has no entry in the CUDA version map. */
  lemma CtxAttachHasNoVersions()
    ensures Lookup(CudaVersionRows(), "cuCtxAttach") == None && "cuCtxAttach" !in CudaVersionMap()
  {
    CudaVersionRowsAscending();
    var t := CudaVersionRows();
    assert t[2] == CudaVersionRow(2) && t[3] == CudaVersionRow(3);
    assert t[2].0 == "cuArrayGetSparseProperties" && t[3].0 == "cuCtxCreate_v3";
    PrecedesAt("cuArrayGetSparseProperties", "cuCtxAttach", 2);
    PrecedesAt("cuCtxAttach", "cuCtxCreate_v3", 5);
    NotBetween(t, 2, "cuCtxAttach");
    LookupAbsent(t, "cuCtxAttach");
  }

  /** `cuCtxDetach` has no entry in the CUDA version map. */
  lemma CtxDetachHasNoVersions()
    ensures Lookup(CudaVersionRows(), "cuCtxDetach") == None && "cuCtxDetach" !in CudaVersionMap()
  {
    CudaVersionRowsAscending();
    var t := CudaVersionRows();
    assert t[3] == CudaVersionRow(3) && t[4] == CudaVersionRow(4);
    assert t[3].0 == "cuCtxCreate_v3" && t[4].0 == "cuCtxGetExecAffinity";
    PrecedesAt("cuCtxCreate_v3", "cuCtxDetach", 5);
    PrecedesAt("cuCtxDetach", "cuCtxGetExecAffinity", 5);
    NotBetween(t, 3, "cuCtxDetach");
    LookupAbsent(t, "cuCtxDetach");
  }

  // What the entries show together.

  /**
   * Translation is many-to-one: the original and the `_v2` entry points of
   * `cuDeviceGetUuid` both become `hipDeviceGetUuid`, and likewise
   * `cuMemAlloc` and `cuMemAlloc_v2` both become `hipMalloc`.
   */
  lemma VersionedNamesShareTargets()
    ensures "cuDeviceGetUuid" in FunctionMap() && "cuDeviceGetUuid_v2" in FunctionMap()
    ensures FunctionMap()["cuDeviceGetUuid"].hipName == FunctionMap()["cuDeviceGetUuid_v2"].hipName
    ensures "cuMemAlloc" in FunctionMap() && "cuMemAlloc_v2" in FunctionMap()
    ensures FunctionMap()["cuMemAlloc"].hipName == FunctionMap()["cuMemAlloc_v2"].hipName
  {
    DeviceGetUuidEntry();
    DeviceGetUuidV2Entry();
    MemAllocEntry();
    MemAllocV2Entry();
  }

  /**
   * A versioned entry point can also have a target of its own, with its own
   * status: `cuCtxCreate` becomes the HIP-deprecated `hipCtxCreate`, while
   * `cuCtxCreate_v3` becomes the unsupported `hipCtxCreate_v3`; the two
   * `cuStreamGetCaptureInfo` entry points keep distinct targets too.
   */
  lemma VersionedNamesWithOwnTargets()
    ensures "cuCtxCreate" in FunctionMap() && "cuCtxCreate_v3" in FunctionMap()
    ensures FunctionMap()["cuCtxCreate"].hipName != FunctionMap()["cuCtxCreate_v3"].hipName
    ensures Has(FunctionMap()["cuCtxCreate"].flags, HIP_DEPRECATED)
    ensures Has(FunctionMap()["cuCtxCreate_v3"].flags, HIP_UNSUPPORTED)
    ensures "cuStreamGetCaptureInfo" in FunctionMap() && "cuStreamGetCaptureInfo_v2" in FunctionMap()
    ensures FunctionMap()["cuStreamGetCaptureInfo"].hipName != FunctionMap()["cuStreamGetCaptureInfo_v2"].hipName
  {
    CtxCreateEntry();
    CtxCreateV3Entry();
    StreamGetCaptureInfoEntry();
    StreamGetCaptureInfoV2Entry();
  }

  /**
   * Three of the symbols with a function entry but no CUDA version entry:
   * `cuInit`, and the two CUDA-deprecated ones that make the exception in
   * `CudaFlagAgrees` necessary.
   */
  lemma UnversionedSymbols()
    ensures forall k | k in UnversionedKeys :: k in FunctionMap() && k !in CudaVersionMap()
    ensures forall k | k in UnversionedDeprecatedKeys :: Has(FunctionMap()[k].flags, CUDA_DEPRECATED)
  {
    forall k | k in UnversionedKeys
      ensures k in FunctionMap() && k !in CudaVersionMap()
      ensures k in UnversionedDeprecatedKeys ==> Has(FunctionMap()[k].flags, CUDA_DEPRECATED)
    {
      if k == "cuInit" {
        InitEntry();
        InitHasNoVersions();
      } else if k == "cuCtxAttach" {
        CtxAttachEntry();
        CtxAttachHasNoVersions();
      } else {
        CtxDetachEntry();
        CtxDetachHasNoVersions();
      }
    }
  }

  /**
   * `cuProfilerInitialize` has a CUDA deprecation version but no
   * `CUDA_DEPRECATED` flag: the exception `CudaRowAgrees` makes for it is needed.
   */
  lemma UnflaggedDeprecation()
    ensures UnflaggedDeprecatedKey in CudaVersionMap() && UnflaggedDeprecatedKey in FunctionMap()
    ensures CudaVersionMap()[UnflaggedDeprecatedKey].deprecated != CUDA_0
    ensures !Has(FunctionMap()[UnflaggedDeprecatedKey].flags, CUDA_DEPRECATED)
  {
    ProfilerInitializeEntry();
    ProfilerInitializeVersions();
  }

  /**
   * The experimental entries translate to HIP functions that exist only in the
   * latest HIP release.
   */
  lemma ExperimentalTargets()
    ensures forall k | k in ExperimentalKeys ::
      && k in FunctionMap() && Has(FunctionMap()[k].flags, HIP_EXPERIMENTAL)
      && FunctionMap()[k].hipName in HipVersionMap()
      && HipVersionMap()[FunctionMap()[k].hipName].latest
  {
    GetErrorNameEntry();
    GetErrorStringEntry();
    DrvGetErrorNameVersions();
    DrvGetErrorStringVersions();
  }

  /**
   * The one entry whose HIP counterpart was removed is deprecated on the CUDA
   * side, and its counterpart was removed without being deprecated first.
   */
  lemma RemovedTarget()
    ensures RemovedKey in FunctionMap()
    ensures Has(FunctionMap()[RemovedKey].flags, HIP_REMOVED)
    ensures Has(FunctionMap()[RemovedKey].flags, CUDA_DEPRECATED)
    ensures FunctionMap()[RemovedKey].hipName in HipVersionMap()
    ensures HipVersionMap()[FunctionMap()[RemovedKey].hipName].removed != HIP_0
    ensures HipVersionMap()[FunctionMap()[RemovedKey].hipName].deprecated == HIP_0
  {
    TexRefGetArrayEntry();
    TexRefGetArrayVersions();
  }

  /**
   * The HIP version map can record a deprecation the function entry does not
   * flag: `hipMemAllocHost`, the target of both `cuMemAllocHost` and
   * `cuMemAllocHost_v2`, is deprecated, yet neither entry is marked
   * `HIP_DEPRECATED`. So `HipVersionFlagged` cannot be extended to
   * deprecation without these two exceptions.
   */
  lemma HipDeprecationWithoutFlag()
    ensures "cuMemAllocHost" in FunctionMap() && "cuMemAllocHost_v2" in FunctionMap()
    ensures !Has(FunctionMap()["cuMemAllocHost"].flags, HIP_DEPRECATED)
    ensures !Has(FunctionMap()["cuMemAllocHost_v2"].flags, HIP_DEPRECATED)
    ensures FunctionMap()["cuMemAllocHost_v2"].hipName == FunctionMap()["cuMemAllocHost"].hipName
    ensures FunctionMap()["cuMemAllocHost"].hipName in HipVersionMap()
    ensures HipVersionMap()[FunctionMap()["cuMemAllocHost"].hipName].deprecated != HIP_0
  {
    MemAllocHostEntry();
    MemAllocHostV2Entry();
    MemAllocHostVersions();
  }
}
