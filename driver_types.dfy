/**
 * The record types the driver-API tables are built from.
 *
 * The C++ definitions of these types live in a header that is not part of
 * this model; here they are abstract: conversion categories and API families
 * are enumerations, the status flags are bits of a byte, and a version is a
 * natural number ordered like the suffix of its constant (`CUDA_92 < CUDA_100`,
 * `HIP_4020 < HIP_5040`), with 0 (`CUDA_0`, `HIP_0`) meaning "not set".
 */
module DriverTypes {

  /**
   * The status bitmask of a translation entry. Each flag is one bit, and the
   * table combines flags with `|`. The bit positions are this model's own
   * choice, as the C++ values are defined outside the model.
   */
  type Flags = bv8

  const HIP_UNSUPPORTED: Flags := 1
  const CUDA_DEPRECATED: Flags := 2
  const HIP_DEPRECATED: Flags := 4
  const HIP_EXPERIMENTAL: Flags := 8
  const HIP_REMOVED: Flags := 16

  /** The combined flag: deprecated on the CUDA side and on the HIP side. */
  const DEPRECATED: Flags := CUDA_DEPRECATED | HIP_DEPRECATED

  /** Whether `flags` has a bit of `f` set. */
  predicate Has(flags: Flags, f: Flags)
  {
    flags & f != 0
  }

  /** The conversion categories the driver-API table uses. */
  datatype ConvType =
    | CONV_ADDRESSING | CONV_CONTEXT | CONV_D3D9 | CONV_D3D10 | CONV_D3D11 | CONV_DEVICE
    | CONV_EGL | CONV_ERROR | CONV_EVENT | CONV_EXECUTION | CONV_EXT_RES | CONV_GRAPH
    | CONV_GRAPHICS | CONV_INIT | CONV_LIBRARY | CONV_MEMORY | CONV_MODULE | CONV_OCCUPANCY
    | CONV_OPENGL | CONV_PEER | CONV_PROFILER | CONV_STREAM | CONV_STREAM_MEMORY
    | CONV_STREAM_ORDERED_MEMORY | CONV_SURFACE | CONV_TENSOR | CONV_TEXTURE | CONV_VDPAU
    | CONV_VERSION | CONV_VIRTUAL_MEMORY

  /** The API family of an entry: the driver API, or the runtime API it is distinguished from. */
  datatype ApiType = API_DRIVER | API_RUNTIME

  /**
   * What a CUDA symbol translates to: the HIP name, an alternative (ROC)
   * name, the conversion category, the API family, the number of the API
   * section the symbol is documented in, and its status flags.
   */
  datatype HipCounter = HipCounter(
    hipName: string,
    rocName: string,
    conv: ConvType,
    api: ApiType,
    section: nat,
    flags: Flags)

  /** Since which CUDA version a symbol exists, is deprecated, is removed (0: never). */
  datatype CudaVersions = CudaVersions(appeared: nat, deprecated: nat, removed: nat)

  /** The same for a HIP symbol, plus whether it exists only in the latest HIP release. */
  datatype HipVersions = HipVersions(appeared: nat, deprecated: nat, removed: nat, latest: bool)

  const CUDA_0: nat := 0
  const CUDA_80: nat := 80
  const CUDA_90: nat := 90
  const CUDA_91: nat := 91
  const CUDA_92: nat := 92
  const CUDA_100: nat := 100
  const CUDA_101: nat := 101
  const CUDA_102: nat := 102
  const CUDA_110: nat := 110
  const CUDA_111: nat := 111
  const CUDA_112: nat := 112
  const CUDA_113: nat := 113
  const CUDA_114: nat := 114
  const CUDA_116: nat := 116
  const CUDA_117: nat := 117
  const CUDA_118: nat := 118
  const CUDA_120: nat := 120

  const HIP_0: nat := 0
  const HIP_1060: nat := 1060
  const HIP_1070: nat := 1070
  const HIP_1071: nat := 1071
  const HIP_1090: nat := 1090
  const HIP_2000: nat := 2000
  const HIP_2030: nat := 2030
  const HIP_2080: nat := 2080
  const HIP_3000: nat := 3000
  const HIP_3050: nat := 3050
  const HIP_4020: nat := 4020
  const HIP_4030: nat := 4030
  const HIP_5000: nat := 5000
  const HIP_5010: nat := 5010
  const HIP_5020: nat := 5020
  const HIP_5030: nat := 5030
  const HIP_5040: nat := 5040

  /**
   * The version fields of one record are in order: a symbol is not
   * deprecated before it appeared and is removed only after it appeared.
   * Unset fields (0) constrain nothing. Deprecation in the very version a
   * symbol appears in is allowed.
   */
  predicate VersionsOrdered(appeared: nat, deprecated: nat, removed: nat)
  {
    (appeared != 0 && deprecated != 0 ==> appeared <= deprecated) &&
    (appeared != 0 && removed != 0 ==> appeared < removed)
  }
}
