# HIPIFY driver-API translation tables

hipify translates CUDA source code to HIP. For the CUDA driver API it uses
four constant `std::map`s, all defined in `src/CUDA2HIP_Driver_API_functions.cpp`.
The four maps are:

- `CUDA_DRIVER_FUNCTION_MAP`: each CUDA driver function and what it becomes
  in HIP. That is a HIP name, an alternative (ROC) name, a conversion
  category, the API family, the number of the documentation section, and
  status flags (`HIP_UNSUPPORTED`, `CUDA_DEPRECATED`, `HIP_DEPRECATED`,
  `HIP_EXPERIMENTAL`, `HIP_REMOVED`, and `DEPRECATED`, which is both
  deprecations at once).
- `CUDA_DRIVER_FUNCTION_VER_MAP`: the CUDA release in which a function
  appeared, was deprecated, and was removed.
- `HIP_DRIVER_FUNCTION_VER_MAP`: the same for the HIP functions, plus
  whether one exists only in the latest HIP release (`HIP_LATEST`).
- `CUDA_DRIVER_API_SECTION_MAP`: the title of each numbered section of the
  CUDA driver API documentation.

The model holds every row of the four tables as data, and each row carries
the source line it comes from.

| Table | Rows |
|---|---|
| `CUDA_DRIVER_FUNCTION_MAP` | 514 |
| `CUDA_DRIVER_FUNCTION_VER_MAP` | 287 |
| `HIP_DRIVER_FUNCTION_VER_MAP` | 132 |
| `CUDA_DRIVER_API_SECTION_MAP` | 40 |

These are exactly the numbers of initializers in the four tables.

The model proves four kinds of result:

- **Each table on its own:** no key repeats, so the `std::map` keeps every
  initializer, and every row is well formed.
- **The tables against one another:**
  - sections resolve;
  - version rows belong to functions;
  - status flags are backed by version rows;
  - latest-only and removed HIP targets are flagged on every entry that
    translates to them;
  - HIP version rows are about actual translation targets.
- **Lookups:** every entry is found again under its own key. Where the
  tables deliberately diverge, concrete lookups show it.
- **The `std::map` semantics the tables rely on:** the first initializer
  with a key wins, and the map has as many entries as the list has rows
  exactly when the keys are distinct.

Modules:

- `Tables`: the initializer-list semantics of `std::map`.
- `KeyOrder`: the lexicographic order used to certify that keys are distinct.
- `DriverTypes`: the record types and version constants.
- `DriverRules`: what a good row is, and how the tables must agree.
- `FunctionTable`, `CudaVersionTable`, `HipVersionTable`, `SectionTable`: the data.
- `FunctionKeys`, `CudaVersionKeys`, `HipVersionKeys`: key-by-key order facts.
- `FunctionProofs`, `CudaVersionProofs`, `HipVersionProofs`, `SectionProofs`,
  `CudaMatchProofs`, `FlagProofs`, `TargetProofs`: the row-by-row proofs.
- `DriverMaps`: the results about whole tables.

## Model

| member | source | states |
|---|---|---|
| Tables.Lookup | src/CUDA2HIP_Driver_API_functions.cpp:26 | The value of the first row with key `k`. It is `None` exactly when no row has that key, and a found value always comes from a row of the list. |
| Tables.ToMap | src/CUDA2HIP_Driver_API_functions.cpp:26 | The map an initializer list builds. It has a key exactly when `Lookup` finds it, and it holds the value of the first row with that key. |
| Tables.LookupRow | src/CUDA2HIP_Driver_API_functions.cpp:26 | With distinct keys, every row is found again, by `Lookup` and in the map, under its own key. |
| Tables.LookupAbsent | src/CUDA2HIP_Driver_API_functions.cpp:1061 | A key that no row carries is absent from the list lookup and from the map. |
| Tables.RowsToMap | src/CUDA2HIP_Driver_API_functions.cpp:26 | With distinct keys, the map holds every row of the list. |
| Tables.MapSizeIffDistinct | src/CUDA2HIP_Driver_API_functions.cpp:26 | The map never has more entries than the list has rows. It has as many exactly when the keys are distinct, so a repeated key always loses an initializer. |
| Tables.DistinctKeysCons | src/CUDA2HIP_Driver_API_functions.cpp:26 | A list has distinct keys exactly when its tail does and the first key does not occur in the tail. |
| KeyOrder.PrecedesTransitive | src/CUDA2HIP_Driver_API_functions.cpp:26 | The lexicographic order on names is transitive. |
| KeyOrder.AscendingOrdered | src/CUDA2HIP_Driver_API_functions.cpp:26 | In a listing whose neighbouring keys ascend, every earlier key precedes every later one. |
| KeyOrder.AscendingDistinct | src/CUDA2HIP_Driver_API_functions.cpp:26 | A listing with ascending keys has pairwise distinct keys. |
| KeyOrder.NotBetween | src/CUDA2HIP_Driver_API_functions.cpp:1061 | A name strictly between two neighbouring keys of an ascending listing is no key of it. |
| FunctionProofs.FunctionRowOk | src/CUDA2HIP_Driver_API_functions.cpp:30-1058 | Every function row meets the per-row rules below, and each key precedes the next. The rules: driver API, empty ROC name, section 2 to 40, an unsupported symbol has no other HIP status, and the experimental and removed flags appear only on `cuGetErrorName`, `cuGetErrorString` and `cuTexRefGetArray`. |
| CudaVersionProofs.CudaVersionRowOk | src/CUDA2HIP_Driver_API_functions.cpp:1062-1348 | Every CUDA version row has ordered versions, at least one version set and no removal version, and each key precedes the next. |
| HipVersionProofs.HipVersionRowOk | src/CUDA2HIP_Driver_API_functions.cpp:1352-1483 | Every HIP version row has ordered versions and an appearance version. A latest-only row is neither deprecated nor removed. The latest-only rows are among `hipDrvGetErrorName` and `hipDrvGetErrorString`, and only `hipTexRefGetArray` has a removal version. Each key precedes the next. |
| SectionProofs.SectionRowNumbered | src/CUDA2HIP_Driver_API_functions.cpp:1487-1526 | Row `i` of the section table is section `i + 1`. |
| CudaMatchProofs.FunctionRowCudaMatched | src/CUDA2HIP_Driver_API_functions.cpp:1062-1348 | Each CUDA version row has a function row under the same name. If the version row records a deprecation, that function row carries `CUDA_DEPRECATED`, except for `cuProfilerInitialize`. |
| FlagProofs.FunctionRowBacked | src/CUDA2HIP_Driver_API_functions.cpp:30-1058 | Every `CUDA_DEPRECATED` function row, except `cuCtxAttach` and `cuCtxDetach`, has a CUDA version row with a deprecation. Every row with a HIP status flag has a HIP version row for its target that backs the flag. Every row translating to `hipDrvGetErrorName` or `hipDrvGetErrorString` is marked `HIP_EXPERIMENTAL`, and every row translating to `hipTexRefGetArray` is marked `HIP_REMOVED`. |
| TargetProofs.HipVersionRowTargeted | src/CUDA2HIP_Driver_API_functions.cpp:1352-1483 | Every HIP version row names the HIP target of some function row. |
| DriverMaps.FunctionRowsAscending | src/CUDA2HIP_Driver_API_functions.cpp:26-1059 | The function table has 514 rows. Each row is well formed, and the keys ascend. |
| DriverMaps.FunctionMapWellFormed | src/CUDA2HIP_Driver_API_functions.cpp:26-1059 | The function table's 514 rows have distinct keys, so the `std::map` keeps all 514. Every entry is well formed. |
| DriverMaps.CudaVersionRowsAscending | src/CUDA2HIP_Driver_API_functions.cpp:1061-1349 | The CUDA version table has 287 well-formed rows in ascending key order. |
| DriverMaps.CudaVersionMapWellFormed | src/CUDA2HIP_Driver_API_functions.cpp:1061-1349 | The CUDA version table's keys are distinct, so its map keeps all 287 well-formed entries. |
| DriverMaps.HipVersionRowsAscending | src/CUDA2HIP_Driver_API_functions.cpp:1351-1484 | The HIP version table has 132 well-formed rows in ascending key order. |
| DriverMaps.HipVersionMapWellFormed | src/CUDA2HIP_Driver_API_functions.cpp:1351-1484 | The HIP version table's keys are distinct, so its map keeps all 132 well-formed entries. |
| DriverMaps.SectionRowsNumbered | src/CUDA2HIP_Driver_API_functions.cpp:1486-1527 | The section table has 40 rows, and row `i` is section `i + 1`. |
| DriverMaps.NumberedKeys | src/CUDA2HIP_Driver_API_functions.cpp:1486-1527 | A list whose row `i` has key `i + 1` has distinct keys. It builds a map with exactly the keys 1 to its length. |
| DriverMaps.SectionKeys | src/CUDA2HIP_Driver_API_functions.cpp:1486-1527 | The section map has 40 entries, under exactly the keys 1 to 40. |
| DriverMaps.SectionMapWellFormed | src/CUDA2HIP_Driver_API_functions.cpp:1486-1527 | The sections are numbered 1 to 40 in order and without gaps. The map has exactly those keys, and section 1 is "CUDA Driver Data Types". |
| DriverMaps.SectionsResolve | src/CUDA2HIP_Driver_API_functions.cpp:26-1059 | Every function entry's section number is a key of the section map, and none is section 1 (data types). Section 1 itself is in the map. |
| DriverMaps.CudaVersionsBelongToFunctions | src/CUDA2HIP_Driver_API_functions.cpp:1061-1349 | Every CUDA version entry's name is a key of the function map. A CUDA deprecation version goes with `CUDA_DEPRECATED` on that entry, except for `cuProfilerInitialize`. |
| DriverMaps.CudaFlagsBacked | src/CUDA2HIP_Driver_API_functions.cpp:26-1059 | Every function entry marked `CUDA_DEPRECATED`, except `cuCtxAttach` and `cuCtxDetach`, has a CUDA version entry with a deprecation version. |
| DriverMaps.HipStatusBacked | src/CUDA2HIP_Driver_API_functions.cpp:26-1059 | Every function entry's HIP status flags are backed by the HIP version map. `HIP_DEPRECATED` means the target has a deprecation version. `HIP_EXPERIMENTAL` means the target is latest-only. `HIP_REMOVED` means a removal version and no deprecation version. |
| DriverMaps.HipVersionsFlagged | src/CUDA2HIP_Driver_API_functions.cpp:26-1059 | The converse of `HipStatusBacked` for two flags. If the HIP version map says an entry's target exists only in the latest release, the entry is marked `HIP_EXPERIMENTAL`. If it gives the target a removal version, the entry is marked `HIP_REMOVED`. |
| DriverMaps.HipVersionsTargeted | src/CUDA2HIP_Driver_API_functions.cpp:1351-1484 | Every HIP version entry is about a HIP function that some CUDA function translates to. |
| DriverMaps.FunctionLookupRoundTrip | src/CUDA2HIP_Driver_API_functions.cpp:26-1059 | Every function entry is found again under its CUDA name, by list lookup and in the map. |
| DriverMaps.CudaVersionLookupRoundTrip | src/CUDA2HIP_Driver_API_functions.cpp:1061-1349 | Every CUDA version entry is found again in the map under its name. |
| DriverMaps.HipVersionLookupRoundTrip | src/CUDA2HIP_Driver_API_functions.cpp:1351-1484 | Every HIP version entry is found again in the map under its name. |
| DriverMaps.DeviceGetUuidEntry | src/CUDA2HIP_Driver_API_functions.cpp:58 | Looking up `cuDeviceGetUuid` gives `hipDeviceGetUuid` in section 5 with no flags. |
| DriverMaps.DeviceGetUuidV2Entry | src/CUDA2HIP_Driver_API_functions.cpp:60 | Looking up `cuDeviceGetUuid_v2` gives the same `hipDeviceGetUuid` entry. |
| DriverMaps.MemAllocEntry | src/CUDA2HIP_Driver_API_functions.cpp:207 | Looking up `cuMemAlloc` gives `hipMalloc` in section 13. |
| DriverMaps.MemAllocV2Entry | src/CUDA2HIP_Driver_API_functions.cpp:208 | Looking up `cuMemAlloc_v2` gives the same `hipMalloc` entry. |
| DriverMaps.CtxCreateEntry | src/CUDA2HIP_Driver_API_functions.cpp:94 | Looking up `cuCtxCreate` gives `hipCtxCreate`, marked `HIP_DEPRECATED`. |
| DriverMaps.CtxCreateV3Entry | src/CUDA2HIP_Driver_API_functions.cpp:96 | Looking up `cuCtxCreate_v3` gives `hipCtxCreate_v3`, marked `HIP_UNSUPPORTED`. |
| DriverMaps.StreamGetCaptureInfoEntry | src/CUDA2HIP_Driver_API_functions.cpp:451 | Looking up `cuStreamGetCaptureInfo` gives `hipStreamGetCaptureInfo`. |
| DriverMaps.StreamGetCaptureInfoV2Entry | src/CUDA2HIP_Driver_API_functions.cpp:452 | Looking up `cuStreamGetCaptureInfo_v2` gives `hipStreamGetCaptureInfo_v2`. |
| DriverMaps.InitEntry | src/CUDA2HIP_Driver_API_functions.cpp:37 | Looking up `cuInit` gives `hipInit` in section 3, with no flags; the source leaves the flag argument out. |
| DriverMaps.CtxAttachEntry | src/CUDA2HIP_Driver_API_functions.cpp:136 | Looking up `cuCtxAttach` gives `hipCtxAttach`, marked `HIP_UNSUPPORTED` and `CUDA_DEPRECATED`. |
| DriverMaps.CtxDetachEntry | src/CUDA2HIP_Driver_API_functions.cpp:137 | Looking up `cuCtxDetach` gives `hipCtxDetach`, marked `HIP_UNSUPPORTED` and `CUDA_DEPRECATED`. |
| DriverMaps.ProfilerInitializeEntry | src/CUDA2HIP_Driver_API_functions.cpp:896 | Looking up `cuProfilerInitialize` gives `hipProfilerInitialize`, marked `HIP_UNSUPPORTED` only. |
| DriverMaps.GetErrorNameEntry | src/CUDA2HIP_Driver_API_functions.cpp:30 | Looking up `cuGetErrorName` gives `hipDrvGetErrorName`, marked `HIP_EXPERIMENTAL`. |
| DriverMaps.GetErrorStringEntry | src/CUDA2HIP_Driver_API_functions.cpp:33 | Looking up `cuGetErrorString` gives `hipDrvGetErrorString`, marked `HIP_EXPERIMENTAL`. |
| DriverMaps.TexRefGetArrayEntry | src/CUDA2HIP_Driver_API_functions.cpp:788 | Looking up `cuTexRefGetArray` gives `hipTexRefGetArray`, marked `CUDA_DEPRECATED` and `HIP_REMOVED`. |
| DriverMaps.MemAllocHostEntry | src/CUDA2HIP_Driver_API_functions.cpp:210 | Looking up `cuMemAllocHost` gives `hipMemAllocHost` with no flags. |
| DriverMaps.MemAllocHostV2Entry | src/CUDA2HIP_Driver_API_functions.cpp:211 | Looking up `cuMemAllocHost_v2` gives the same `hipMemAllocHost` entry, with no flags. |
| DriverMaps.ProfilerInitializeVersions | src/CUDA2HIP_Driver_API_functions.cpp:1200 | The CUDA versions of `cuProfilerInitialize`: deprecated in CUDA 11.0, with no appearance or removal version. |
| DriverMaps.DrvGetErrorNameVersions | src/CUDA2HIP_Driver_API_functions.cpp:1482 | `hipDrvGetErrorName` appeared in HIP 5.4 and is in the latest release only. |
| DriverMaps.DrvGetErrorStringVersions | src/CUDA2HIP_Driver_API_functions.cpp:1483 | `hipDrvGetErrorString` appeared in HIP 5.4 and is in the latest release only. |
| DriverMaps.TexRefGetArrayVersions | src/CUDA2HIP_Driver_API_functions.cpp:1419 | `hipTexRefGetArray` appeared in HIP 3.0, was removed in HIP 4.2, and was never deprecated. |
| DriverMaps.MemAllocHostVersions | src/CUDA2HIP_Driver_API_functions.cpp:1388 | `hipMemAllocHost` appeared in HIP 3.0 and was deprecated in HIP 3.0. |
| DriverMaps.InitHasNoVersions | src/CUDA2HIP_Driver_API_functions.cpp:1104-1340 | `cuInit` has no CUDA version entry. It falls between the neighbouring keys `cuImportExternalSemaphore` (line 1104) and `cuKernelGetAttribute` (line 1340). |
| DriverMaps.CtxAttachHasNoVersions | src/CUDA2HIP_Driver_API_functions.cpp:1249-1298 | `cuCtxAttach` has no CUDA version entry. It falls between `cuArrayGetSparseProperties` and `cuCtxCreate_v3`. |
| DriverMaps.CtxDetachHasNoVersions | src/CUDA2HIP_Driver_API_functions.cpp:1298-1301 | `cuCtxDetach` has no CUDA version entry. It falls between `cuCtxCreate_v3` and `cuCtxGetExecAffinity`. |
| DriverMaps.VersionedNamesShareTargets | src/CUDA2HIP_Driver_API_functions.cpp:58-208 | Translation is many-to-one. `cuDeviceGetUuid` and `cuDeviceGetUuid_v2` (lines 58, 60) translate to the same HIP name, and so do `cuMemAlloc` and `cuMemAlloc_v2` (lines 207-208). |
| DriverMaps.VersionedNamesWithOwnTargets | src/CUDA2HIP_Driver_API_functions.cpp:94-452 | Some versioned entry points keep their own target. `cuCtxCreate` and `cuCtxCreate_v3` (lines 94, 96) translate to different HIP names with different statuses: HIP-deprecated and unsupported. The two `cuStreamGetCaptureInfo` entry points (lines 451-452) also translate differently. |
| DriverMaps.UnversionedSymbols | src/CUDA2HIP_Driver_API_functions.cpp:37-137 | `cuInit`, `cuCtxAttach` and `cuCtxDetach` are in the function map but not in the CUDA version map. The last two are marked `CUDA_DEPRECATED` all the same. |
| DriverMaps.UnflaggedDeprecation | src/CUDA2HIP_Driver_API_functions.cpp:896 | `cuProfilerInitialize` has a CUDA deprecation version (line 1200), yet its entry is not marked `CUDA_DEPRECATED`. |
| DriverMaps.ExperimentalTargets | src/CUDA2HIP_Driver_API_functions.cpp:30-33 | Both experimental entries translate to HIP functions that exist only in the latest HIP release (lines 1482-1483). |
| DriverMaps.RemovedTarget | src/CUDA2HIP_Driver_API_functions.cpp:788 | The only entry with a removed HIP counterpart is CUDA-deprecated. Its target has a removal version and no deprecation version (line 1419). |
| DriverMaps.HipDeprecationWithoutFlag | src/CUDA2HIP_Driver_API_functions.cpp:210-211 | Neither `cuMemAllocHost` nor `cuMemAllocHost_v2` is marked `HIP_DEPRECATED`, although their common target `hipMemAllocHost` has a HIP deprecation version (line 1388). |

## Left out

- Row order. Each table is listed in key order, the order a `std::map`
  keeps and iterates. It is not the order of the initializers in the source.
  Each row names the source line it comes from, and the row counts
  (514, 287, 132, 40) equal the initializer counts. Since no key repeats,
  the map the initializers build does not depend on their order.
- Flag values. The C++ definitions of `hipCounter`, `cudaAPIversions`,
  `hipAPIversions`, the conversion categories, the API families and the
  flag constants live in `CUDA2HIP.h` and the headers it includes, which
  are not part of this model.
  - Flags are bits of a byte in an assignment chosen by the model, and
    `DEPRECATED` is the union of `CUDA_DEPRECATED` and `HIP_DEPRECATED`.
  - Versions are natural numbers ordered like their constant names, with 0
    for "not set".
  - A row that omits the flag argument has flags 0.
  - A HIP row without `HIP_LATEST` has `latest` false.
- Key types. Function names are `llvm::StringRef` in the source and strings
  here. Section numbers are `unsigned int` in the source and natural numbers
  here.
- Callers. The code that consults the tables is not part of this model:
  the translation itself, the version gate that decides whether a symbol is
  reported as deprecated or removed, and the statistics.
- DriverMaps.HipVersionsFlagged: covers `HIP_EXPERIMENTAL` and
  `HIP_REMOVED` only, the converse of `HipStatusBacked` for two of its three
  flags. The third would say that an entry whose target has a HIP
  deprecation version is marked `HIP_DEPRECATED`. In the data it holds for
  every entry except `cuMemAllocHost` (line 210) and `cuMemAllocHost_v2`
  (line 211), which both translate to `hipMemAllocHost` (line 1388) and are
  unflagged (`HipDeprecationWithoutFlag`). It is not proved: the proof would
  compare each of the 514 targets with each of the 40 deprecated HIP names,
  more string comparisons than the verifier completes within its resource
  limit in the row-by-row proofs.
- DriverMaps.CudaVersionsBelongToFunctions: the deprecation-to-flag
  direction excludes `cuProfilerInitialize`, whose CUDA deprecation is not
  flagged (`UnflaggedDeprecation`).
- DriverMaps.CudaFlagsBacked: the flag-to-version direction excludes
  `cuCtxAttach` and `cuCtxDetach`, which are flagged but have no CUDA
  version entry (`UnversionedSymbols`).
