/**
 * What a well-formed row of each driver-API table looks like, stated row by
 * row so that it can be checked part by part and lifted to a whole table.
 */
module DriverRules {
  import opened DriverTypes

  /** The CUDA symbols whose entry is marked `HIP_EXPERIMENTAL`. */
  const ExperimentalKeys: set<string> := {"cuGetErrorName", "cuGetErrorString"}

  /** The only CUDA symbol whose HIP counterpart has been removed from HIP. */
  const RemovedKey: string := "cuTexRefGetArray"

  /**
   * The fields every entry of `CUDA_DRIVER_FUNCTION_MAP` has in common: it
   * belongs to the driver API, has no alternative name, is documented in
   * one of the API sections 2 to 40 (section 1 lists data types, not
   * functions), and a symbol HIP does not support carries no other HIP status.
   * The experimental and removed markers sit only on the symbols named above.
   */
  predicate FunctionEntryOk(r: (string, HipCounter))
  {
    r.1.api == API_DRIVER &&
    r.1.rocName == "" &&
    2 <= r.1.section <= 40 &&
    (Has(r.1.flags, HIP_UNSUPPORTED) ==> !Has(r.1.flags, HIP_DEPRECATED | HIP_EXPERIMENTAL | HIP_REMOVED)) &&
    (Has(r.1.flags, HIP_EXPERIMENTAL) ==> r.0 in ExperimentalKeys) &&
    (Has(r.1.flags, HIP_REMOVED) ==> r.0 == RemovedKey)
  }

  /**
   * A row of `CUDA_DRIVER_FUNCTION_VER_MAP`: its fields are ordered, no CUDA
   * symbol is recorded as removed, and every row records at least one version.
   */
  predicate CudaVersionsOk(e: (string, CudaVersions))
  {
    VersionsOrdered(e.1.appeared, e.1.deprecated, e.1.removed) &&
    e.1.removed == 0 &&
    (e.1.appeared != 0 || e.1.deprecated != 0)
  }

  /** The HIP functions that exist only in the latest HIP release. */
  const LatestTargets: set<string> := {"hipDrvGetErrorName", "hipDrvGetErrorString"}

  /** The only HIP function that has been removed from HIP. */
  const RemovedTarget: string := "hipTexRefGetArray"

  /**
   * A row of `HIP_DRIVER_FUNCTION_VER_MAP`: its fields are ordered, the
   * version it appeared in is always set, and a symbol that exists only in
   * the latest release is neither deprecated nor removed. The latest-only
   * and removed symbols are the ones named above.
   */
  predicate HipVersionsOk(e: (string, HipVersions))
  {
    VersionsOrdered(e.1.appeared, e.1.deprecated, e.1.removed) &&
    e.1.appeared != 0 &&
    (e.1.latest ==> e.1.deprecated == 0 && e.1.removed == 0) &&
    (e.1.latest ==> e.0 in LatestTargets) &&
    (e.1.removed != 0 ==> e.0 == RemovedTarget)
  }

  /** The CUDA symbols marked `CUDA_DEPRECATED` that have no CUDA version row. */
  const UnversionedDeprecatedKeys: set<string> := {"cuCtxAttach", "cuCtxDetach"}

  /**
   * Three of the CUDA symbols of the function table that have no CUDA
   * version row: the entry point `cuInit`, and the two CUDA-deprecated
   * symbols above, for which `CudaFlagAgrees` makes an exception.
   */
  const UnversionedKeys: set<string> := {"cuInit"} + UnversionedDeprecatedKeys

  /** The CUDA symbol with a CUDA deprecation version whose entry is not marked `CUDA_DEPRECATED`. */
  const UnflaggedDeprecatedKey: string := "cuProfilerInitialize"

  /** An entry marked `CUDA_DEPRECATED` other than those in `UnversionedDeprecatedKeys`. */
  predicate NeedsCudaRow(r: (string, HipCounter))
  {
    Has(r.1.flags, CUDA_DEPRECATED) && r.0 !in UnversionedDeprecatedKeys
  }

  /**
   * Row form of `CudaRowAgrees`: the CUDA version row `e` is about the
   * symbol of entry `r`, and its deprecation version goes with the flag.
   */
  predicate CudaRowMatches(e: (string, CudaVersions), r: (string, HipCounter))
  {
    r.0 == e.0 &&
    (e.1.deprecated != 0 && e.0 != UnflaggedDeprecatedKey ==> Has(r.1.flags, CUDA_DEPRECATED))
  }

  /** Row form of `CudaFlagAgrees`: the CUDA version row `e` is about the symbol of `r` and records a deprecation. */
  predicate CudaRowBacks(r: (string, HipCounter), e: (string, CudaVersions))
  {
    e.0 == r.0 && e.1.deprecated != 0
  }

  /** An entry carrying one of the HIP status flags. */
  predicate HasHipStatus(r: (string, HipCounter))
  {
    Has(r.1.flags, HIP_DEPRECATED | HIP_EXPERIMENTAL | HIP_REMOVED)
  }

  /** Row form of `HipStatusAgrees`: the HIP version row `h` is about the target of `r` and backs its flags. */
  predicate HipRowBacks(r: (string, HipCounter), h: (string, HipVersions))
  {
    h.0 == r.1.hipName &&
    (Has(r.1.flags, HIP_DEPRECATED) ==> h.1.deprecated != 0) &&
    (Has(r.1.flags, HIP_EXPERIMENTAL) ==> h.1.latest) &&
    (Has(r.1.flags, HIP_REMOVED) ==> h.1.removed != 0 && h.1.deprecated == 0)
  }

  /**
   * The HIP status flags of an entry agree with the HIP version map `hv`:
   * a HIP-deprecated target has a HIP deprecation version, an experimental
   * one exists only in the latest HIP release, and a removed one has a HIP
   * removal version but was never deprecated.
   */
  predicate HipStatusAgrees(r: (string, HipCounter), hv: map<string, HipVersions>)
  {
    (Has(r.1.flags, HIP_DEPRECATED) ==> r.1.hipName in hv && hv[r.1.hipName].deprecated != 0) &&
    (Has(r.1.flags, HIP_EXPERIMENTAL) ==> r.1.hipName in hv && hv[r.1.hipName].latest) &&
    (Has(r.1.flags, HIP_REMOVED) ==>
      r.1.hipName in hv && hv[r.1.hipName].removed != 0 && hv[r.1.hipName].deprecated == 0)
  }

  /**
   * Row form of `HipVersionFlagged`: an entry translating to a HIP function
   * that exists only in the latest HIP release is marked `HIP_EXPERIMENTAL`,
   * and one translating to the removed HIP function is marked `HIP_REMOVED`.
   */
  predicate HipTargetFlagged(r: (string, HipCounter))
  {
    (r.1.hipName in LatestTargets ==> Has(r.1.flags, HIP_EXPERIMENTAL)) &&
    (r.1.hipName == RemovedTarget ==> Has(r.1.flags, HIP_REMOVED))
  }

  /**
   * The converse of `HipStatusAgrees` for two of its three flags: when the
   * HIP version map `hv` records that the target of the entry exists only in
   * the latest release, the entry is marked `HIP_EXPERIMENTAL`, and when it
   * records a removal version, the entry is marked `HIP_REMOVED`.
   */
  predicate HipVersionFlagged(r: (string, HipCounter), hv: map<string, HipVersions>)
  {
    r.1.hipName in hv ==>
      (hv[r.1.hipName].latest ==> Has(r.1.flags, HIP_EXPERIMENTAL)) &&
      (hv[r.1.hipName].removed != 0 ==> Has(r.1.flags, HIP_REMOVED))
  }

  /**
   * An entry marked `CUDA_DEPRECATED` has a CUDA deprecation version in the
   * CUDA version map `cv`, except for the symbols in `UnversionedDeprecatedKeys`.
   */
  predicate CudaFlagAgrees(r: (string, HipCounter), cv: map<string, CudaVersions>)
  {
    NeedsCudaRow(r) ==> r.0 in cv && cv[r.0].deprecated != 0
  }

  /**
   * A CUDA version row belongs to an entry of the function map `fm`, and a
   * CUDA deprecation version goes with the `CUDA_DEPRECATED` flag on that
   * entry, except for `UnflaggedDeprecatedKey`.
   */
  predicate CudaRowAgrees(e: (string, CudaVersions), fm: map<string, HipCounter>)
  {
    e.0 in fm &&
    (e.1.deprecated != 0 && e.0 != UnflaggedDeprecatedKey ==> Has(fm[e.0].flags, CUDA_DEPRECATED))
  }

  /** A HIP version row is about a function some entry of the function map `fm` translates to. */
  ghost predicate HipRowTargeted(e: (string, HipVersions), fm: map<string, HipCounter>)
  {
    exists c :: c in fm && fm[c].hipName == e.0
  }
}
