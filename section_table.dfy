/**
 * `CUDA_DRIVER_API_SECTION_MAP` (src/CUDA2HIP_Driver_API_functions.cpp:1486-1527):
 * the title of each numbered section of the CUDA driver-API documentation,
 * one row per initializer, in the source's (ascending) order.
 */
module SectionTable {
  import opened Tables

  /** Row `i` of the table, in key order. */
  function SectionRow(i: nat): (nat, string)
    requires i < 40
  {
    if i < 4 then (
      match i
      case 0 => (1, "CUDA Driver Data Types")  // line 1487
      case 1 => (2, "Error Handling")  // line 1488
      case 2 => (3, "Initialization")  // line 1489
      case _ => (4, "Version Management")  // line 1490
    )
    else if i < 8 then (
      match i
      case 4 => (5, "Device Management")  // line 1491
      case 5 => (6, "Device Management [DEPRECATED]")  // line 1492
      case 6 => (7, "Primary Context Management")  // line 1493
      case _ => (8, "Context Management")  // line 1494
    )
    else if i < 12 then (
      match i
      case 8 => (9, "Context Management [DEPRECATED]")  // line 1495
      case 9 => (10, "Module Management")  // line 1496
      case 10 => (11, "Module Management [DEPRECATED]")  // line 1497
      case _ => (12, "Library Management")  // line 1498
    )
    else if i < 16 then (
      match i
      case 12 => (13, "Memory Management")  // line 1499
      case 13 => (14, "Virtual Memory Management")  // line 1500
      case 14 => (15, "Stream Ordered Memory Allocator")  // line 1501
      case _ => (16, "Unified Addressing")  // line 1502
    )
    else if i < 20 then (
      match i
      case 16 => (17, "Stream Management")  // line 1503
      case 17 => (18, "Event Management")  // line 1504
      case 18 => (19, "External Resource Interoperability")  // line 1505
      case _ => (20, "Stream Memory Operations")  // line 1506
    )
    else if i < 24 then (
      match i
      case 20 => (21, "Execution Control")  // line 1507
      case 21 => (22, "Execution Control [DEPRECATED]")  // line 1508
      case 22 => (23, "Graph Management")  // line 1509
      case _ => (24, "Occupancy")  // line 1510
    )
    else if i < 28 then (
      match i
      case 24 => (25, "Texture Reference Management [DEPRECATED]")  // line 1511
      case 25 => (26, "Surface Reference Management [DEPRECATED]")  // line 1512
      case 26 => (27, "Texture Object Management")  // line 1513
      case _ => (28, "Surface Object Management")  // line 1514
    )
    else if i < 32 then (
      match i
      case 28 => (29, "Tensor Core Management")  // line 1515
      case 29 => (30, "Peer Context Memory Access")  // line 1516
      case 30 => (31, "Graphics Interoperability")  // line 1517
      case _ => (32, "Driver Entry Point Access")  // line 1518
    )
    else if i < 36 then (
      match i
      case 32 => (33, "Profiler Control [DEPRECATED]")  // line 1519
      case 33 => (34, "Profiler Control")  // line 1520
      case 34 => (35, "OpenGL Interoperability")  // line 1521
      case _ => (36, "Direct3D 9 Interoperability")  // line 1522
    )
    else (
      match i
      case 36 => (37, "Direct3D 10 Interoperability")  // line 1523
      case 37 => (38, "Direct3D 11 Interoperability")  // line 1524
      case 38 => (39, "VDPAU Interoperability")  // line 1525
      case _ => (40, "EGL Interoperability")  // line 1526
    )
  }

  /** Every row of the table, in key order (the initializers hold the same rows). */
  function SectionRows(): seq<(nat, string)>
  {
    seq(40, i requires 0 <= i < 40 => SectionRow(i))
  }

  /** The `std::map` the initializer list builds. */
  function SectionMap(): map<nat, string>
  {
    ToMap(SectionRows())
  }
}
