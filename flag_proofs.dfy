/** The deprecation and HIP status flags of the function rows are backed by the version tables. */
module FlagProofs {
  import opened DriverTypes
  import opened DriverRules
  import opened FunctionTable
  import opened CudaVersionTable
  import opened HipVersionTable

  /** The function row `r` has a HIP version row that records its HIP status. */
  ghost predicate BackedByHipVersionRow(r: (string, HipCounter))
  {
    exists j | 0 <= j < 132 :: HipRowBacks(r, HipVersionRow(j))
  }

  /** The function row `r` has a deprecation recorded in one of the CUDA version rows 0 to 5. */
  ghost predicate BackedByCudaVersionRows000To005(r: (string, HipCounter))
  {
    exists j | 0 <= j < 6 :: CudaRowBacks(r, CudaVersionRows000To005(j))
  }

  /** The function row `r` has a deprecation recorded in one of the CUDA version rows 6 to 22. */
  ghost predicate BackedByCudaVersionRows006To022(r: (string, HipCounter))
  {
    exists j | 6 <= j < 23 :: CudaRowBacks(r, CudaVersionRows006To022(j))
  }

  /** The function row `r` has a deprecation recorded in one of the CUDA version rows 0 to 22. */
  ghost predicate BackedByCudaVersionRows000To022(r: (string, HipCounter))
  {
    exists j | 0 <= j < 23 :: CudaRowBacks(r, CudaVersionRows000To022(j))
  }

  /** The function row `r` has a deprecation recorded in one of the CUDA version rows 23 to 42. */
  ghost predicate BackedByCudaVersionRows023To042(r: (string, HipCounter))
  {
    exists j | 23 <= j < 43 :: CudaRowBacks(r, CudaVersionRows023To042(j))
  }

  /** The function row `r` has a deprecation recorded in one of the CUDA version rows 43 to 62. */
  ghost predicate BackedByCudaVersionRows043To062(r: (string, HipCounter))
  {
    exists j | 43 <= j < 63 :: CudaRowBacks(r, CudaVersionRows043To062(j))
  }

  /** The function row `r` has a deprecation recorded in one of the CUDA version rows 23 to 62. */
  ghost predicate BackedByCudaVersionRows023To062(r: (string, HipCounter))
  {
    exists j | 23 <= j < 63 :: CudaRowBacks(r, CudaVersionRows023To062(j))
  }

  /** The function row `r` has a deprecation recorded in one of the CUDA version rows 63 to 82. */
  ghost predicate BackedByCudaVersionRows063To082(r: (string, HipCounter))
  {
    exists j | 63 <= j < 83 :: CudaRowBacks(r, CudaVersionRows063To082(j))
  }

  /** The function row `r` has a deprecation recorded in one of the CUDA version rows 83 to 112. */
  ghost predicate BackedByCudaVersionRows083To112(r: (string, HipCounter))
  {
    exists j | 83 <= j < 113 :: CudaRowBacks(r, CudaVersionRows083To112(j))
  }

  /** The function row `r` has a deprecation recorded in one of the CUDA version rows 63 to 112. */
  ghost predicate BackedByCudaVersionRows063To112(r: (string, HipCounter))
  {
    exists j | 63 <= j < 113 :: CudaRowBacks(r, CudaVersionRows063To112(j))
  }

  /** The function row `r` has a deprecation recorded in one of the CUDA version rows 113 to 142. */
  ghost predicate BackedByCudaVersionRows113To142(r: (string, HipCounter))
  {
    exists j | 113 <= j < 143 :: CudaRowBacks(r, CudaVersionRows113To142(j))
  }

  /** The function row `r` has a deprecation recorded in one of the CUDA version rows 143 to 156. */
  ghost predicate BackedByCudaVersionRows143To156(r: (string, HipCounter))
  {
    exists j | 143 <= j < 157 :: CudaRowBacks(r, CudaVersionRows143To156(j))
  }

  /** The function row `r` has a deprecation recorded in one of the CUDA version rows 113 to 156. */
  ghost predicate BackedByCudaVersionRows113To156(r: (string, HipCounter))
  {
    exists j | 113 <= j < 157 :: CudaRowBacks(r, CudaVersionRows113To156(j))
  }

  /** The function row `r` has a deprecation recorded in one of the CUDA version rows 157 to 177. */
  ghost predicate BackedByCudaVersionRows157To177(r: (string, HipCounter))
  {
    exists j | 157 <= j < 178 :: CudaRowBacks(r, CudaVersionRows157To177(j))
  }

  /** The function row `r` has a deprecation recorded in one of the CUDA version rows 178 to 189. */
  ghost predicate BackedByCudaVersionRows178To189(r: (string, HipCounter))
  {
    exists j | 178 <= j < 190 :: CudaRowBacks(r, CudaVersionRows178To189(j))
  }

  /** The function row `r` has a deprecation recorded in one of the CUDA version rows 157 to 189. */
  ghost predicate BackedByCudaVersionRows157To189(r: (string, HipCounter))
  {
    exists j | 157 <= j < 190 :: CudaRowBacks(r, CudaVersionRows157To189(j))
  }

  /** The function row `r` has a deprecation recorded in one of the CUDA version rows 190 to 210. */
  ghost predicate BackedByCudaVersionRows190To210(r: (string, HipCounter))
  {
    exists j | 190 <= j < 211 :: CudaRowBacks(r, CudaVersionRows190To210(j))
  }

  /** The function row `r` has a deprecation recorded in one of the CUDA version rows 211 to 222. */
  ghost predicate BackedByCudaVersionRows211To222(r: (string, HipCounter))
  {
    exists j | 211 <= j < 223 :: CudaRowBacks(r, CudaVersionRows211To222(j))
  }

  /** The function row `r` has a deprecation recorded in one of the CUDA version rows 223 to 239. */
  ghost predicate BackedByCudaVersionRows223To239(r: (string, HipCounter))
  {
    exists j | 223 <= j < 240 :: CudaRowBacks(r, CudaVersionRows223To239(j))
  }

  /** The function row `r` has a deprecation recorded in one of the CUDA version rows 240 to 261. */
  ghost predicate BackedByCudaVersionRows240To261(r: (string, HipCounter))
  {
    exists j | 240 <= j < 262 :: CudaRowBacks(r, CudaVersionRows240To261(j))
  }

  /** The function row `r` has a deprecation recorded in one of the CUDA version rows 262 to 286. */
  ghost predicate BackedByCudaVersionRows262To286(r: (string, HipCounter))
  {
    exists j | 262 <= j < 287 :: CudaRowBacks(r, CudaVersionRows262To286(j))
  }

  /** The function row `r` has a deprecation recorded in one of the CUDA version rows 223 to 286. */
  ghost predicate BackedByCudaVersionRows223To286(r: (string, HipCounter))
  {
    exists j | 223 <= j < 287 :: CudaRowBacks(r, CudaVersionRows223To286(j))
  }

  /** The function row `r` has a deprecation recorded in one of the CUDA version rows 0 to 286. */
  ghost predicate BackedByCudaVersionRow(r: (string, HipCounter))
  {
    exists j | 0 <= j < 287 :: CudaRowBacks(r, CudaVersionRow(j))
  }

  lemma FunctionSlice000To003Backed()
    ensures forall i | 0 <= i < 4 :: NeedsCudaRow(FunctionRows000To030(i)) ==> BackedByCudaVersionRows000To005(FunctionRows000To030(i))
    ensures forall i | 0 <= i < 4 :: HasHipStatus(FunctionRows000To030(i)) ==> BackedByHipVersionRow(FunctionRows000To030(i))
    ensures forall i | 0 <= i < 4 :: HipTargetFlagged(FunctionRows000To030(i))
  {
  }

  lemma FunctionSlice004To007Backed()
    ensures forall i | 4 <= i < 8 :: NeedsCudaRow(FunctionRows000To030(i)) ==> BackedByCudaVersionRows000To005(FunctionRows000To030(i))
    ensures forall i | 4 <= i < 8 :: HasHipStatus(FunctionRows000To030(i)) ==> BackedByHipVersionRow(FunctionRows000To030(i))
    ensures forall i | 4 <= i < 8 :: HipTargetFlagged(FunctionRows000To030(i))
  {
  }

  lemma FunctionSlice008To011Backed()
    ensures forall i | 8 <= i < 12 :: NeedsCudaRow(FunctionRows000To030(i)) ==> BackedByCudaVersionRows000To005(FunctionRows000To030(i))
    ensures forall i | 8 <= i < 12 :: HasHipStatus(FunctionRows000To030(i)) ==> BackedByHipVersionRow(FunctionRows000To030(i))
    ensures forall i | 8 <= i < 12 :: HipTargetFlagged(FunctionRows000To030(i))
  {
  }

  lemma FunctionSlice012To015Backed()
    ensures forall i | 12 <= i < 16 :: NeedsCudaRow(FunctionRows000To030(i)) ==> BackedByCudaVersionRows000To005(FunctionRows000To030(i))
    ensures forall i | 12 <= i < 16 :: HasHipStatus(FunctionRows000To030(i)) ==> BackedByHipVersionRow(FunctionRows000To030(i))
    ensures forall i | 12 <= i < 16 :: HipTargetFlagged(FunctionRows000To030(i))
  {
    assert HipRowBacks(FunctionRows000To030(13), HipVersionRow(3));
    assert HipRowBacks(FunctionRows000To030(14), HipVersionRow(3));
  }

  lemma FunctionSlice016To019Backed()
    ensures forall i | 16 <= i < 20 :: NeedsCudaRow(FunctionRows000To030(i)) ==> BackedByCudaVersionRows000To005(FunctionRows000To030(i))
    ensures forall i | 16 <= i < 20 :: HasHipStatus(FunctionRows000To030(i)) ==> BackedByHipVersionRow(FunctionRows000To030(i))
    ensures forall i | 16 <= i < 20 :: HipTargetFlagged(FunctionRows000To030(i))
  {
    assert HipRowBacks(FunctionRows000To030(16), HipVersionRow(4));
    assert HipRowBacks(FunctionRows000To030(17), HipVersionRow(4));
    assert HipRowBacks(FunctionRows000To030(19), HipVersionRow(5));
  }

  lemma FunctionSlice020To023Backed()
    ensures forall i | 20 <= i < 24 :: NeedsCudaRow(FunctionRows000To030(i)) ==> BackedByCudaVersionRows000To005(FunctionRows000To030(i))
    ensures forall i | 20 <= i < 24 :: HasHipStatus(FunctionRows000To030(i)) ==> BackedByHipVersionRow(FunctionRows000To030(i))
    ensures forall i | 20 <= i < 24 :: HipTargetFlagged(FunctionRows000To030(i))
  {
    assert HipRowBacks(FunctionRows000To030(20), HipVersionRow(6));
    assert HipRowBacks(FunctionRows000To030(21), HipVersionRow(7));
    assert HipRowBacks(FunctionRows000To030(22), HipVersionRow(8));
    assert HipRowBacks(FunctionRows000To030(23), HipVersionRow(9));
  }

  lemma FunctionSlice024To027Backed()
    ensures forall i | 24 <= i < 28 :: NeedsCudaRow(FunctionRows000To030(i)) ==> BackedByCudaVersionRows000To005(FunctionRows000To030(i))
    ensures forall i | 24 <= i < 28 :: HasHipStatus(FunctionRows000To030(i)) ==> BackedByHipVersionRow(FunctionRows000To030(i))
    ensures forall i | 24 <= i < 28 :: HipTargetFlagged(FunctionRows000To030(i))
  {
    assert HipRowBacks(FunctionRows000To030(24), HipVersionRow(10));
    assert HipRowBacks(FunctionRows000To030(26), HipVersionRow(11));
  }

  lemma FunctionSlice028To030Backed()
    ensures forall i | 28 <= i < 31 :: NeedsCudaRow(FunctionRows000To030(i)) ==> BackedByCudaVersionRows000To005(FunctionRows000To030(i))
    ensures forall i | 28 <= i < 31 :: HasHipStatus(FunctionRows000To030(i)) ==> BackedByHipVersionRow(FunctionRows000To030(i))
    ensures forall i | 28 <= i < 31 :: HipTargetFlagged(FunctionRows000To030(i))
  {
    assert HipRowBacks(FunctionRows000To030(29), HipVersionRow(12));
  }

  lemma FunctionRows000To030Backed()
    ensures forall i | 0 <= i < 31 :: NeedsCudaRow(FunctionRows000To030(i)) ==> BackedByCudaVersionRows000To005(FunctionRows000To030(i))
    ensures forall i | 0 <= i < 31 :: HasHipStatus(FunctionRows000To030(i)) ==> BackedByHipVersionRow(FunctionRows000To030(i))
    ensures forall i | 0 <= i < 31 :: HipTargetFlagged(FunctionRows000To030(i))
  {
    FunctionSlice000To003Backed();
    FunctionSlice004To007Backed();
    FunctionSlice008To011Backed();
    FunctionSlice012To015Backed();
    FunctionSlice016To019Backed();
    FunctionSlice020To023Backed();
    FunctionSlice024To027Backed();
    FunctionSlice028To030Backed();
  }

  lemma FunctionSlice031To034Backed()
    ensures forall i | 31 <= i < 35 :: NeedsCudaRow(FunctionRows031To061(i)) ==> BackedByCudaVersionRows006To022(FunctionRows031To061(i))
    ensures forall i | 31 <= i < 35 :: HasHipStatus(FunctionRows031To061(i)) ==> BackedByHipVersionRow(FunctionRows031To061(i))
    ensures forall i | 31 <= i < 35 :: HipTargetFlagged(FunctionRows031To061(i))
  {
    assert HipRowBacks(FunctionRows031To061(31), HipVersionRow(13));
    assert HipRowBacks(FunctionRows031To061(32), HipVersionRow(13));
    assert HipRowBacks(FunctionRows031To061(33), HipVersionRow(14));
    assert HipRowBacks(FunctionRows031To061(34), HipVersionRow(14));
  }

  lemma FunctionSlice035To038Backed()
    ensures forall i | 35 <= i < 39 :: NeedsCudaRow(FunctionRows031To061(i)) ==> BackedByCudaVersionRows006To022(FunctionRows031To061(i))
    ensures forall i | 35 <= i < 39 :: HasHipStatus(FunctionRows031To061(i)) ==> BackedByHipVersionRow(FunctionRows031To061(i))
    ensures forall i | 35 <= i < 39 :: HipTargetFlagged(FunctionRows031To061(i))
  {
    assert HipRowBacks(FunctionRows031To061(36), HipVersionRow(15));
    assert HipRowBacks(FunctionRows031To061(37), HipVersionRow(16));
  }

  lemma FunctionSlice039To042Backed()
    ensures forall i | 39 <= i < 43 :: NeedsCudaRow(FunctionRows031To061(i)) ==> BackedByCudaVersionRows006To022(FunctionRows031To061(i))
    ensures forall i | 39 <= i < 43 :: HasHipStatus(FunctionRows031To061(i)) ==> BackedByHipVersionRow(FunctionRows031To061(i))
    ensures forall i | 39 <= i < 43 :: HipTargetFlagged(FunctionRows031To061(i))
  {
    assert HipRowBacks(FunctionRows031To061(39), HipVersionRow(17));
    assert HipRowBacks(FunctionRows031To061(40), HipVersionRow(18));
    assert CudaRowBacks(FunctionRows031To061(41), CudaVersionRows006To022(7));
    assert CudaRowBacks(FunctionRows031To061(42), CudaVersionRows006To022(8));
  }

  lemma FunctionSlice043To046Backed()
    ensures forall i | 43 <= i < 47 :: NeedsCudaRow(FunctionRows031To061(i)) ==> BackedByCudaVersionRows006To022(FunctionRows031To061(i))
    ensures forall i | 43 <= i < 47 :: HasHipStatus(FunctionRows031To061(i)) ==> BackedByHipVersionRow(FunctionRows031To061(i))
    ensures forall i | 43 <= i < 47 :: HipTargetFlagged(FunctionRows031To061(i))
  {
    assert CudaRowBacks(FunctionRows031To061(45), CudaVersionRows006To022(9));
    assert CudaRowBacks(FunctionRows031To061(46), CudaVersionRows006To022(10));
  }

  lemma FunctionSlice047To050Backed()
    ensures forall i | 47 <= i < 51 :: NeedsCudaRow(FunctionRows031To061(i)) ==> BackedByCudaVersionRows006To022(FunctionRows031To061(i))
    ensures forall i | 47 <= i < 51 :: HasHipStatus(FunctionRows031To061(i)) ==> BackedByHipVersionRow(FunctionRows031To061(i))
    ensures forall i | 47 <= i < 51 :: HipTargetFlagged(FunctionRows031To061(i))
  {
    assert CudaRowBacks(FunctionRows031To061(47), CudaVersionRows006To022(11));
    assert CudaRowBacks(FunctionRows031To061(48), CudaVersionRows006To022(12));
    assert CudaRowBacks(FunctionRows031To061(49), CudaVersionRows006To022(13));
    assert CudaRowBacks(FunctionRows031To061(50), CudaVersionRows006To022(14));
  }

  lemma FunctionSlice051To054Backed()
    ensures forall i | 51 <= i < 55 :: NeedsCudaRow(FunctionRows031To061(i)) ==> BackedByCudaVersionRows006To022(FunctionRows031To061(i))
    ensures forall i | 51 <= i < 55 :: HasHipStatus(FunctionRows031To061(i)) ==> BackedByHipVersionRow(FunctionRows031To061(i))
    ensures forall i | 51 <= i < 55 :: HipTargetFlagged(FunctionRows031To061(i))
  {
    assert CudaRowBacks(FunctionRows031To061(51), CudaVersionRows006To022(15));
    assert CudaRowBacks(FunctionRows031To061(52), CudaVersionRows006To022(16));
    assert CudaRowBacks(FunctionRows031To061(53), CudaVersionRows006To022(17));
    assert CudaRowBacks(FunctionRows031To061(54), CudaVersionRows006To022(18));
  }

  lemma FunctionSlice055To058Backed()
    ensures forall i | 55 <= i < 59 :: NeedsCudaRow(FunctionRows031To061(i)) ==> BackedByCudaVersionRows006To022(FunctionRows031To061(i))
    ensures forall i | 55 <= i < 59 :: HasHipStatus(FunctionRows031To061(i)) ==> BackedByHipVersionRow(FunctionRows031To061(i))
    ensures forall i | 55 <= i < 59 :: HipTargetFlagged(FunctionRows031To061(i))
  {
    assert CudaRowBacks(FunctionRows031To061(55), CudaVersionRows006To022(19));
    assert CudaRowBacks(FunctionRows031To061(56), CudaVersionRows006To022(20));
    assert CudaRowBacks(FunctionRows031To061(57), CudaVersionRows006To022(21));
  }

  lemma FunctionSlice059To061Backed()
    ensures forall i | 59 <= i < 62 :: NeedsCudaRow(FunctionRows031To061(i)) ==> BackedByCudaVersionRows006To022(FunctionRows031To061(i))
    ensures forall i | 59 <= i < 62 :: HasHipStatus(FunctionRows031To061(i)) ==> BackedByHipVersionRow(FunctionRows031To061(i))
    ensures forall i | 59 <= i < 62 :: HipTargetFlagged(FunctionRows031To061(i))
  {
    assert CudaRowBacks(FunctionRows031To061(60), CudaVersionRows006To022(22));
  }

  lemma FunctionRows031To061Backed()
    ensures forall i | 31 <= i < 62 :: NeedsCudaRow(FunctionRows031To061(i)) ==> BackedByCudaVersionRows006To022(FunctionRows031To061(i))
    ensures forall i | 31 <= i < 62 :: HasHipStatus(FunctionRows031To061(i)) ==> BackedByHipVersionRow(FunctionRows031To061(i))
    ensures forall i | 31 <= i < 62 :: HipTargetFlagged(FunctionRows031To061(i))
  {
    FunctionSlice031To034Backed();
    FunctionSlice035To038Backed();
    FunctionSlice039To042Backed();
    FunctionSlice043To046Backed();
    FunctionSlice047To050Backed();
    FunctionSlice051To054Backed();
    FunctionSlice055To058Backed();
    FunctionSlice059To061Backed();
  }

  lemma FunctionRows000To061Backed()
    ensures forall i | 0 <= i < 62 :: NeedsCudaRow(FunctionRows000To061(i)) ==> BackedByCudaVersionRows000To022(FunctionRows000To061(i))
    ensures forall i | 0 <= i < 62 :: HasHipStatus(FunctionRows000To061(i)) ==> BackedByHipVersionRow(FunctionRows000To061(i))
    ensures forall i | 0 <= i < 62 :: HipTargetFlagged(FunctionRows000To061(i))
  {
    forall i | 0 <= i < 62
      ensures NeedsCudaRow(FunctionRows000To061(i)) ==> BackedByCudaVersionRows000To022(FunctionRows000To061(i))
      ensures HasHipStatus(FunctionRows000To061(i)) ==> BackedByHipVersionRow(FunctionRows000To061(i))
      ensures HipTargetFlagged(FunctionRows000To061(i))
    {
      if i < 31 {
        FunctionRows000To030Backed();
        assert FunctionRows000To061(i) == FunctionRows000To030(i);
        if NeedsCudaRow(FunctionRows000To030(i)) {
          var j :| 0 <= j < 6 && CudaRowBacks(FunctionRows000To030(i), CudaVersionRows000To005(j));
          assert CudaRowBacks(FunctionRows000To061(i), CudaVersionRows000To022(j));
        }
      } else {
        FunctionRows031To061Backed();
        assert FunctionRows000To061(i) == FunctionRows031To061(i);
        if NeedsCudaRow(FunctionRows031To061(i)) {
          var j :| 6 <= j < 23 && CudaRowBacks(FunctionRows031To061(i), CudaVersionRows006To022(j));
          assert CudaRowBacks(FunctionRows000To061(i), CudaVersionRows000To022(j));
        }
      }
    }
  }

  lemma FunctionSlice062To065Backed()
    ensures forall i | 62 <= i < 66 :: NeedsCudaRow(FunctionRows062To092(i)) ==> BackedByCudaVersionRows023To042(FunctionRows062To092(i))
    ensures forall i | 62 <= i < 66 :: HasHipStatus(FunctionRows062To092(i)) ==> BackedByHipVersionRow(FunctionRows062To092(i))
    ensures forall i | 62 <= i < 66 :: HipTargetFlagged(FunctionRows062To092(i))
  {
  }

  lemma FunctionSlice066To069Backed()
    ensures forall i | 66 <= i < 70 :: NeedsCudaRow(FunctionRows062To092(i)) ==> BackedByCudaVersionRows023To042(FunctionRows062To092(i))
    ensures forall i | 66 <= i < 70 :: HasHipStatus(FunctionRows062To092(i)) ==> BackedByHipVersionRow(FunctionRows062To092(i))
    ensures forall i | 66 <= i < 70 :: HipTargetFlagged(FunctionRows062To092(i))
  {
    assert CudaRowBacks(FunctionRows062To092(66), CudaVersionRows023To042(23));
    assert CudaRowBacks(FunctionRows062To092(67), CudaVersionRows023To042(24));
    assert CudaRowBacks(FunctionRows062To092(68), CudaVersionRows023To042(25));
    assert CudaRowBacks(FunctionRows062To092(69), CudaVersionRows023To042(26));
  }

  lemma FunctionSlice070To073Backed()
    ensures forall i | 70 <= i < 74 :: NeedsCudaRow(FunctionRows062To092(i)) ==> BackedByCudaVersionRows023To042(FunctionRows062To092(i))
    ensures forall i | 70 <= i < 74 :: HasHipStatus(FunctionRows062To092(i)) ==> BackedByHipVersionRow(FunctionRows062To092(i))
    ensures forall i | 70 <= i < 74 :: HipTargetFlagged(FunctionRows062To092(i))
  {
    assert CudaRowBacks(FunctionRows062To092(70), CudaVersionRows023To042(27));
    assert CudaRowBacks(FunctionRows062To092(71), CudaVersionRows023To042(28));
    assert CudaRowBacks(FunctionRows062To092(72), CudaVersionRows023To042(29));
    assert CudaRowBacks(FunctionRows062To092(73), CudaVersionRows023To042(30));
  }

  lemma FunctionSlice074To077Backed()
    ensures forall i | 74 <= i < 78 :: NeedsCudaRow(FunctionRows062To092(i)) ==> BackedByCudaVersionRows023To042(FunctionRows062To092(i))
    ensures forall i | 74 <= i < 78 :: HasHipStatus(FunctionRows062To092(i)) ==> BackedByHipVersionRow(FunctionRows062To092(i))
    ensures forall i | 74 <= i < 78 :: HipTargetFlagged(FunctionRows062To092(i))
  {
    assert CudaRowBacks(FunctionRows062To092(74), CudaVersionRows023To042(31));
    assert CudaRowBacks(FunctionRows062To092(75), CudaVersionRows023To042(32));
  }

  lemma FunctionSlice078To081Backed()
    ensures forall i | 78 <= i < 82 :: NeedsCudaRow(FunctionRows062To092(i)) ==> BackedByCudaVersionRows023To042(FunctionRows062To092(i))
    ensures forall i | 78 <= i < 82 :: HasHipStatus(FunctionRows062To092(i)) ==> BackedByHipVersionRow(FunctionRows062To092(i))
    ensures forall i | 78 <= i < 82 :: HipTargetFlagged(FunctionRows062To092(i))
  {
    assert CudaRowBacks(FunctionRows062To092(79), CudaVersionRows023To042(35));
  }

  lemma FunctionSlice082To085Backed()
    ensures forall i | 82 <= i < 86 :: NeedsCudaRow(FunctionRows062To092(i)) ==> BackedByCudaVersionRows023To042(FunctionRows062To092(i))
    ensures forall i | 82 <= i < 86 :: HasHipStatus(FunctionRows062To092(i)) ==> BackedByHipVersionRow(FunctionRows062To092(i))
    ensures forall i | 82 <= i < 86 :: HipTargetFlagged(FunctionRows062To092(i))
  {
  }

  lemma FunctionSlice086To089Backed()
    ensures forall i | 86 <= i < 90 :: NeedsCudaRow(FunctionRows062To092(i)) ==> BackedByCudaVersionRows023To042(FunctionRows062To092(i))
    ensures forall i | 86 <= i < 90 :: HasHipStatus(FunctionRows062To092(i)) ==> BackedByHipVersionRow(FunctionRows062To092(i))
    ensures forall i | 86 <= i < 90 :: HipTargetFlagged(FunctionRows062To092(i))
  {
  }

  lemma FunctionSlice090To092Backed()
    ensures forall i | 90 <= i < 93 :: NeedsCudaRow(FunctionRows062To092(i)) ==> BackedByCudaVersionRows023To042(FunctionRows062To092(i))
    ensures forall i | 90 <= i < 93 :: HasHipStatus(FunctionRows062To092(i)) ==> BackedByHipVersionRow(FunctionRows062To092(i))
    ensures forall i | 90 <= i < 93 :: HipTargetFlagged(FunctionRows062To092(i))
  {
  }

  lemma FunctionRows062To092Backed()
    ensures forall i | 62 <= i < 93 :: NeedsCudaRow(FunctionRows062To092(i)) ==> BackedByCudaVersionRows023To042(FunctionRows062To092(i))
    ensures forall i | 62 <= i < 93 :: HasHipStatus(FunctionRows062To092(i)) ==> BackedByHipVersionRow(FunctionRows062To092(i))
    ensures forall i | 62 <= i < 93 :: HipTargetFlagged(FunctionRows062To092(i))
  {
    FunctionSlice062To065Backed();
    FunctionSlice066To069Backed();
    FunctionSlice070To073Backed();
    FunctionSlice074To077Backed();
    FunctionSlice078To081Backed();
    FunctionSlice082To085Backed();
    FunctionSlice086To089Backed();
    FunctionSlice090To092Backed();
  }

  lemma FunctionSlice093To096Backed()
    ensures forall i | 93 <= i < 97 :: NeedsCudaRow(FunctionRows093To123(i)) ==> BackedByCudaVersionRows043To062(FunctionRows093To123(i))
    ensures forall i | 93 <= i < 97 :: HasHipStatus(FunctionRows093To123(i)) ==> BackedByHipVersionRow(FunctionRows093To123(i))
    ensures forall i | 93 <= i < 97 :: HipTargetFlagged(FunctionRows093To123(i))
  {
    assert CudaRowBacks(FunctionRows093To123(93), CudaVersionRows043To062(43));
  }

  lemma FunctionSlice097To100Backed()
    ensures forall i | 97 <= i < 101 :: NeedsCudaRow(FunctionRows093To123(i)) ==> BackedByCudaVersionRows043To062(FunctionRows093To123(i))
    ensures forall i | 97 <= i < 101 :: HasHipStatus(FunctionRows093To123(i)) ==> BackedByHipVersionRow(FunctionRows093To123(i))
    ensures forall i | 97 <= i < 101 :: HipTargetFlagged(FunctionRows093To123(i))
  {
  }

  lemma FunctionSlice101To104Backed()
    ensures forall i | 101 <= i < 105 :: NeedsCudaRow(FunctionRows093To123(i)) ==> BackedByCudaVersionRows043To062(FunctionRows093To123(i))
    ensures forall i | 101 <= i < 105 :: HasHipStatus(FunctionRows093To123(i)) ==> BackedByHipVersionRow(FunctionRows093To123(i))
    ensures forall i | 101 <= i < 105 :: HipTargetFlagged(FunctionRows093To123(i))
  {
  }

  lemma FunctionSlice105To108Backed()
    ensures forall i | 105 <= i < 109 :: NeedsCudaRow(FunctionRows093To123(i)) ==> BackedByCudaVersionRows043To062(FunctionRows093To123(i))
    ensures forall i | 105 <= i < 109 :: HasHipStatus(FunctionRows093To123(i)) ==> BackedByHipVersionRow(FunctionRows093To123(i))
    ensures forall i | 105 <= i < 109 :: HipTargetFlagged(FunctionRows093To123(i))
  {
  }

  lemma FunctionSlice109To112Backed()
    ensures forall i | 109 <= i < 113 :: NeedsCudaRow(FunctionRows093To123(i)) ==> BackedByCudaVersionRows043To062(FunctionRows093To123(i))
    ensures forall i | 109 <= i < 113 :: HasHipStatus(FunctionRows093To123(i)) ==> BackedByHipVersionRow(FunctionRows093To123(i))
    ensures forall i | 109 <= i < 113 :: HipTargetFlagged(FunctionRows093To123(i))
  {
  }

  lemma FunctionSlice113To116Backed()
    ensures forall i | 113 <= i < 117 :: NeedsCudaRow(FunctionRows093To123(i)) ==> BackedByCudaVersionRows043To062(FunctionRows093To123(i))
    ensures forall i | 113 <= i < 117 :: HasHipStatus(FunctionRows093To123(i)) ==> BackedByHipVersionRow(FunctionRows093To123(i))
    ensures forall i | 113 <= i < 117 :: HipTargetFlagged(FunctionRows093To123(i))
  {
  }

  lemma FunctionSlice117To120Backed()
    ensures forall i | 117 <= i < 121 :: NeedsCudaRow(FunctionRows093To123(i)) ==> BackedByCudaVersionRows043To062(FunctionRows093To123(i))
    ensures forall i | 117 <= i < 121 :: HasHipStatus(FunctionRows093To123(i)) ==> BackedByHipVersionRow(FunctionRows093To123(i))
    ensures forall i | 117 <= i < 121 :: HipTargetFlagged(FunctionRows093To123(i))
  {
  }

  lemma FunctionSlice121To123Backed()
    ensures forall i | 121 <= i < 124 :: NeedsCudaRow(FunctionRows093To123(i)) ==> BackedByCudaVersionRows043To062(FunctionRows093To123(i))
    ensures forall i | 121 <= i < 124 :: HasHipStatus(FunctionRows093To123(i)) ==> BackedByHipVersionRow(FunctionRows093To123(i))
    ensures forall i | 121 <= i < 124 :: HipTargetFlagged(FunctionRows093To123(i))
  {
  }

  lemma FunctionRows093To123Backed()
    ensures forall i | 93 <= i < 124 :: NeedsCudaRow(FunctionRows093To123(i)) ==> BackedByCudaVersionRows043To062(FunctionRows093To123(i))
    ensures forall i | 93 <= i < 124 :: HasHipStatus(FunctionRows093To123(i)) ==> BackedByHipVersionRow(FunctionRows093To123(i))
    ensures forall i | 93 <= i < 124 :: HipTargetFlagged(FunctionRows093To123(i))
  {
    FunctionSlice093To096Backed();
    FunctionSlice097To100Backed();
    FunctionSlice101To104Backed();
    FunctionSlice105To108Backed();
    FunctionSlice109To112Backed();
    FunctionSlice113To116Backed();
    FunctionSlice117To120Backed();
    FunctionSlice121To123Backed();
  }

  lemma FunctionRows062To123Backed()
    ensures forall i | 62 <= i < 124 :: NeedsCudaRow(FunctionRows062To123(i)) ==> BackedByCudaVersionRows023To062(FunctionRows062To123(i))
    ensures forall i | 62 <= i < 124 :: HasHipStatus(FunctionRows062To123(i)) ==> BackedByHipVersionRow(FunctionRows062To123(i))
    ensures forall i | 62 <= i < 124 :: HipTargetFlagged(FunctionRows062To123(i))
  {
    forall i | 62 <= i < 124
      ensures NeedsCudaRow(FunctionRows062To123(i)) ==> BackedByCudaVersionRows023To062(FunctionRows062To123(i))
      ensures HasHipStatus(FunctionRows062To123(i)) ==> BackedByHipVersionRow(FunctionRows062To123(i))
      ensures HipTargetFlagged(FunctionRows062To123(i))
    {
      if i < 93 {
        FunctionRows062To092Backed();
        assert FunctionRows062To123(i) == FunctionRows062To092(i);
        if NeedsCudaRow(FunctionRows062To092(i)) {
          var j :| 23 <= j < 43 && CudaRowBacks(FunctionRows062To092(i), CudaVersionRows023To042(j));
          assert CudaRowBacks(FunctionRows062To123(i), CudaVersionRows023To062(j));
        }
      } else {
        FunctionRows093To123Backed();
        assert FunctionRows062To123(i) == FunctionRows093To123(i);
        if NeedsCudaRow(FunctionRows093To123(i)) {
          var j :| 43 <= j < 63 && CudaRowBacks(FunctionRows093To123(i), CudaVersionRows043To062(j));
          assert CudaRowBacks(FunctionRows062To123(i), CudaVersionRows023To062(j));
        }
      }
    }
  }

  lemma FunctionSlice124To127Backed()
    ensures forall i | 124 <= i < 128 :: NeedsCudaRow(FunctionRows124To153(i)) ==> BackedByCudaVersionRows063To082(FunctionRows124To153(i))
    ensures forall i | 124 <= i < 128 :: HasHipStatus(FunctionRows124To153(i)) ==> BackedByHipVersionRow(FunctionRows124To153(i))
    ensures forall i | 124 <= i < 128 :: HipTargetFlagged(FunctionRows124To153(i))
  {
  }

  lemma FunctionSlice128To131Backed()
    ensures forall i | 128 <= i < 132 :: NeedsCudaRow(FunctionRows124To153(i)) ==> BackedByCudaVersionRows063To082(FunctionRows124To153(i))
    ensures forall i | 128 <= i < 132 :: HasHipStatus(FunctionRows124To153(i)) ==> BackedByHipVersionRow(FunctionRows124To153(i))
    ensures forall i | 128 <= i < 132 :: HipTargetFlagged(FunctionRows124To153(i))
  {
  }

  lemma FunctionSlice132To135Backed()
    ensures forall i | 132 <= i < 136 :: NeedsCudaRow(FunctionRows124To153(i)) ==> BackedByCudaVersionRows063To082(FunctionRows124To153(i))
    ensures forall i | 132 <= i < 136 :: HasHipStatus(FunctionRows124To153(i)) ==> BackedByHipVersionRow(FunctionRows124To153(i))
    ensures forall i | 132 <= i < 136 :: HipTargetFlagged(FunctionRows124To153(i))
  {
    assert CudaRowBacks(FunctionRows124To153(135), CudaVersionRows063To082(69));
  }

  lemma FunctionSlice136To139Backed()
    ensures forall i | 136 <= i < 140 :: NeedsCudaRow(FunctionRows124To153(i)) ==> BackedByCudaVersionRows063To082(FunctionRows124To153(i))
    ensures forall i | 136 <= i < 140 :: HasHipStatus(FunctionRows124To153(i)) ==> BackedByHipVersionRow(FunctionRows124To153(i))
    ensures forall i | 136 <= i < 140 :: HipTargetFlagged(FunctionRows124To153(i))
  {
    assert CudaRowBacks(FunctionRows124To153(138), CudaVersionRows063To082(70));
    assert CudaRowBacks(FunctionRows124To153(139), CudaVersionRows063To082(71));
  }

  lemma FunctionSlice140To143Backed()
    ensures forall i | 140 <= i < 144 :: NeedsCudaRow(FunctionRows124To153(i)) ==> BackedByCudaVersionRows063To082(FunctionRows124To153(i))
    ensures forall i | 140 <= i < 144 :: HasHipStatus(FunctionRows124To153(i)) ==> BackedByHipVersionRow(FunctionRows124To153(i))
    ensures forall i | 140 <= i < 144 :: HipTargetFlagged(FunctionRows124To153(i))
  {
    assert CudaRowBacks(FunctionRows124To153(141), CudaVersionRows063To082(72));
    assert CudaRowBacks(FunctionRows124To153(142), CudaVersionRows063To082(73));
    assert CudaRowBacks(FunctionRows124To153(143), CudaVersionRows063To082(74));
  }

  lemma FunctionSlice144To147Backed()
    ensures forall i | 144 <= i < 148 :: NeedsCudaRow(FunctionRows124To153(i)) ==> BackedByCudaVersionRows063To082(FunctionRows124To153(i))
    ensures forall i | 144 <= i < 148 :: HasHipStatus(FunctionRows124To153(i)) ==> BackedByHipVersionRow(FunctionRows124To153(i))
    ensures forall i | 144 <= i < 148 :: HipTargetFlagged(FunctionRows124To153(i))
  {
    assert CudaRowBacks(FunctionRows124To153(144), CudaVersionRows063To082(75));
    assert CudaRowBacks(FunctionRows124To153(145), CudaVersionRows063To082(76));
    assert CudaRowBacks(FunctionRows124To153(146), CudaVersionRows063To082(77));
    assert CudaRowBacks(FunctionRows124To153(147), CudaVersionRows063To082(78));
  }

  lemma FunctionSlice148To151Backed()
    ensures forall i | 148 <= i < 152 :: NeedsCudaRow(FunctionRows124To153(i)) ==> BackedByCudaVersionRows063To082(FunctionRows124To153(i))
    ensures forall i | 148 <= i < 152 :: HasHipStatus(FunctionRows124To153(i)) ==> BackedByHipVersionRow(FunctionRows124To153(i))
    ensures forall i | 148 <= i < 152 :: HipTargetFlagged(FunctionRows124To153(i))
  {
    assert CudaRowBacks(FunctionRows124To153(148), CudaVersionRows063To082(79));
    assert HipRowBacks(FunctionRows124To153(149), HipVersionRow(31));
    assert HipRowBacks(FunctionRows124To153(150), HipVersionRow(32));
  }

  lemma FunctionSlice152To153Backed()
    ensures forall i | 152 <= i < 154 :: NeedsCudaRow(FunctionRows124To153(i)) ==> BackedByCudaVersionRows063To082(FunctionRows124To153(i))
    ensures forall i | 152 <= i < 154 :: HasHipStatus(FunctionRows124To153(i)) ==> BackedByHipVersionRow(FunctionRows124To153(i))
    ensures forall i | 152 <= i < 154 :: HipTargetFlagged(FunctionRows124To153(i))
  {
  }

  lemma FunctionRows124To153Backed()
    ensures forall i | 124 <= i < 154 :: NeedsCudaRow(FunctionRows124To153(i)) ==> BackedByCudaVersionRows063To082(FunctionRows124To153(i))
    ensures forall i | 124 <= i < 154 :: HasHipStatus(FunctionRows124To153(i)) ==> BackedByHipVersionRow(FunctionRows124To153(i))
    ensures forall i | 124 <= i < 154 :: HipTargetFlagged(FunctionRows124To153(i))
  {
    FunctionSlice124To127Backed();
    FunctionSlice128To131Backed();
    FunctionSlice132To135Backed();
    FunctionSlice136To139Backed();
    FunctionSlice140To143Backed();
    FunctionSlice144To147Backed();
    FunctionSlice148To151Backed();
    FunctionSlice152To153Backed();
  }

  lemma FunctionSlice154To157Backed()
    ensures forall i | 154 <= i < 158 :: NeedsCudaRow(FunctionRows154To183(i)) ==> BackedByCudaVersionRows083To112(FunctionRows154To183(i))
    ensures forall i | 154 <= i < 158 :: HasHipStatus(FunctionRows154To183(i)) ==> BackedByHipVersionRow(FunctionRows154To183(i))
    ensures forall i | 154 <= i < 158 :: HipTargetFlagged(FunctionRows154To183(i))
  {
  }

  lemma FunctionSlice158To161Backed()
    ensures forall i | 158 <= i < 162 :: NeedsCudaRow(FunctionRows154To183(i)) ==> BackedByCudaVersionRows083To112(FunctionRows154To183(i))
    ensures forall i | 158 <= i < 162 :: HasHipStatus(FunctionRows154To183(i)) ==> BackedByHipVersionRow(FunctionRows154To183(i))
    ensures forall i | 158 <= i < 162 :: HipTargetFlagged(FunctionRows154To183(i))
  {
  }

  lemma FunctionSlice162To165Backed()
    ensures forall i | 162 <= i < 166 :: NeedsCudaRow(FunctionRows154To183(i)) ==> BackedByCudaVersionRows083To112(FunctionRows154To183(i))
    ensures forall i | 162 <= i < 166 :: HasHipStatus(FunctionRows154To183(i)) ==> BackedByHipVersionRow(FunctionRows154To183(i))
    ensures forall i | 162 <= i < 166 :: HipTargetFlagged(FunctionRows154To183(i))
  {
  }

  lemma FunctionSlice166To169Backed()
    ensures forall i | 166 <= i < 170 :: NeedsCudaRow(FunctionRows154To183(i)) ==> BackedByCudaVersionRows083To112(FunctionRows154To183(i))
    ensures forall i | 166 <= i < 170 :: HasHipStatus(FunctionRows154To183(i)) ==> BackedByHipVersionRow(FunctionRows154To183(i))
    ensures forall i | 166 <= i < 170 :: HipTargetFlagged(FunctionRows154To183(i))
  {
  }

  lemma FunctionSlice170To173Backed()
    ensures forall i | 170 <= i < 174 :: NeedsCudaRow(FunctionRows154To183(i)) ==> BackedByCudaVersionRows083To112(FunctionRows154To183(i))
    ensures forall i | 170 <= i < 174 :: HasHipStatus(FunctionRows154To183(i)) ==> BackedByHipVersionRow(FunctionRows154To183(i))
    ensures forall i | 170 <= i < 174 :: HipTargetFlagged(FunctionRows154To183(i))
  {
  }

  lemma FunctionSlice174To177Backed()
    ensures forall i | 174 <= i < 178 :: NeedsCudaRow(FunctionRows154To183(i)) ==> BackedByCudaVersionRows083To112(FunctionRows154To183(i))
    ensures forall i | 174 <= i < 178 :: HasHipStatus(FunctionRows154To183(i)) ==> BackedByHipVersionRow(FunctionRows154To183(i))
    ensures forall i | 174 <= i < 178 :: HipTargetFlagged(FunctionRows154To183(i))
  {
  }

  lemma FunctionSlice178To181Backed()
    ensures forall i | 178 <= i < 182 :: NeedsCudaRow(FunctionRows154To183(i)) ==> BackedByCudaVersionRows083To112(FunctionRows154To183(i))
    ensures forall i | 178 <= i < 182 :: HasHipStatus(FunctionRows154To183(i)) ==> BackedByHipVersionRow(FunctionRows154To183(i))
    ensures forall i | 178 <= i < 182 :: HipTargetFlagged(FunctionRows154To183(i))
  {
  }

  lemma FunctionSlice182To183Backed()
    ensures forall i | 182 <= i < 184 :: NeedsCudaRow(FunctionRows154To183(i)) ==> BackedByCudaVersionRows083To112(FunctionRows154To183(i))
    ensures forall i | 182 <= i < 184 :: HasHipStatus(FunctionRows154To183(i)) ==> BackedByHipVersionRow(FunctionRows154To183(i))
    ensures forall i | 182 <= i < 184 :: HipTargetFlagged(FunctionRows154To183(i))
  {
  }

  lemma FunctionRows154To183Backed()
    ensures forall i | 154 <= i < 184 :: NeedsCudaRow(FunctionRows154To183(i)) ==> BackedByCudaVersionRows083To112(FunctionRows154To183(i))
    ensures forall i | 154 <= i < 184 :: HasHipStatus(FunctionRows154To183(i)) ==> BackedByHipVersionRow(FunctionRows154To183(i))
    ensures forall i | 154 <= i < 184 :: HipTargetFlagged(FunctionRows154To183(i))
  {
    FunctionSlice154To157Backed();
    FunctionSlice158To161Backed();
    FunctionSlice162To165Backed();
    FunctionSlice166To169Backed();
    FunctionSlice170To173Backed();
    FunctionSlice174To177Backed();
    FunctionSlice178To181Backed();
    FunctionSlice182To183Backed();
  }

  lemma FunctionRows124To183Backed()
    ensures forall i | 124 <= i < 184 :: NeedsCudaRow(FunctionRows124To183(i)) ==> BackedByCudaVersionRows063To112(FunctionRows124To183(i))
    ensures forall i | 124 <= i < 184 :: HasHipStatus(FunctionRows124To183(i)) ==> BackedByHipVersionRow(FunctionRows124To183(i))
    ensures forall i | 124 <= i < 184 :: HipTargetFlagged(FunctionRows124To183(i))
  {
    forall i | 124 <= i < 184
      ensures NeedsCudaRow(FunctionRows124To183(i)) ==> BackedByCudaVersionRows063To112(FunctionRows124To183(i))
      ensures HasHipStatus(FunctionRows124To183(i)) ==> BackedByHipVersionRow(FunctionRows124To183(i))
      ensures HipTargetFlagged(FunctionRows124To183(i))
    {
      if i < 154 {
        FunctionRows124To153Backed();
        assert FunctionRows124To183(i) == FunctionRows124To153(i);
        if NeedsCudaRow(FunctionRows124To153(i)) {
          var j :| 63 <= j < 83 && CudaRowBacks(FunctionRows124To153(i), CudaVersionRows063To082(j));
          assert CudaRowBacks(FunctionRows124To183(i), CudaVersionRows063To112(j));
        }
      } else {
        FunctionRows154To183Backed();
        assert FunctionRows124To183(i) == FunctionRows154To183(i);
        if NeedsCudaRow(FunctionRows154To183(i)) {
          var j :| 83 <= j < 113 && CudaRowBacks(FunctionRows154To183(i), CudaVersionRows083To112(j));
          assert CudaRowBacks(FunctionRows124To183(i), CudaVersionRows063To112(j));
        }
      }
    }
  }

  lemma FunctionSlice184To187Backed()
    ensures forall i | 184 <= i < 188 :: NeedsCudaRow(FunctionRows184To213(i)) ==> BackedByCudaVersionRows113To142(FunctionRows184To213(i))
    ensures forall i | 184 <= i < 188 :: HasHipStatus(FunctionRows184To213(i)) ==> BackedByHipVersionRow(FunctionRows184To213(i))
    ensures forall i | 184 <= i < 188 :: HipTargetFlagged(FunctionRows184To213(i))
  {
  }

  lemma FunctionSlice188To191Backed()
    ensures forall i | 188 <= i < 192 :: NeedsCudaRow(FunctionRows184To213(i)) ==> BackedByCudaVersionRows113To142(FunctionRows184To213(i))
    ensures forall i | 188 <= i < 192 :: HasHipStatus(FunctionRows184To213(i)) ==> BackedByHipVersionRow(FunctionRows184To213(i))
    ensures forall i | 188 <= i < 192 :: HipTargetFlagged(FunctionRows184To213(i))
  {
  }

  lemma FunctionSlice192To195Backed()
    ensures forall i | 192 <= i < 196 :: NeedsCudaRow(FunctionRows184To213(i)) ==> BackedByCudaVersionRows113To142(FunctionRows184To213(i))
    ensures forall i | 192 <= i < 196 :: HasHipStatus(FunctionRows184To213(i)) ==> BackedByHipVersionRow(FunctionRows184To213(i))
    ensures forall i | 192 <= i < 196 :: HipTargetFlagged(FunctionRows184To213(i))
  {
  }

  lemma FunctionSlice196To199Backed()
    ensures forall i | 196 <= i < 200 :: NeedsCudaRow(FunctionRows184To213(i)) ==> BackedByCudaVersionRows113To142(FunctionRows184To213(i))
    ensures forall i | 196 <= i < 200 :: HasHipStatus(FunctionRows184To213(i)) ==> BackedByHipVersionRow(FunctionRows184To213(i))
    ensures forall i | 196 <= i < 200 :: HipTargetFlagged(FunctionRows184To213(i))
  {
  }

  lemma FunctionSlice200To203Backed()
    ensures forall i | 200 <= i < 204 :: NeedsCudaRow(FunctionRows184To213(i)) ==> BackedByCudaVersionRows113To142(FunctionRows184To213(i))
    ensures forall i | 200 <= i < 204 :: HasHipStatus(FunctionRows184To213(i)) ==> BackedByHipVersionRow(FunctionRows184To213(i))
    ensures forall i | 200 <= i < 204 :: HipTargetFlagged(FunctionRows184To213(i))
  {
  }

  lemma FunctionSlice204To207Backed()
    ensures forall i | 204 <= i < 208 :: NeedsCudaRow(FunctionRows184To213(i)) ==> BackedByCudaVersionRows113To142(FunctionRows184To213(i))
    ensures forall i | 204 <= i < 208 :: HasHipStatus(FunctionRows184To213(i)) ==> BackedByHipVersionRow(FunctionRows184To213(i))
    ensures forall i | 204 <= i < 208 :: HipTargetFlagged(FunctionRows184To213(i))
  {
  }

  lemma FunctionSlice208To211Backed()
    ensures forall i | 208 <= i < 212 :: NeedsCudaRow(FunctionRows184To213(i)) ==> BackedByCudaVersionRows113To142(FunctionRows184To213(i))
    ensures forall i | 208 <= i < 212 :: HasHipStatus(FunctionRows184To213(i)) ==> BackedByHipVersionRow(FunctionRows184To213(i))
    ensures forall i | 208 <= i < 212 :: HipTargetFlagged(FunctionRows184To213(i))
  {
  }

  lemma FunctionSlice212To213Backed()
    ensures forall i | 212 <= i < 214 :: NeedsCudaRow(FunctionRows184To213(i)) ==> BackedByCudaVersionRows113To142(FunctionRows184To213(i))
    ensures forall i | 212 <= i < 214 :: HasHipStatus(FunctionRows184To213(i)) ==> BackedByHipVersionRow(FunctionRows184To213(i))
    ensures forall i | 212 <= i < 214 :: HipTargetFlagged(FunctionRows184To213(i))
  {
  }

  lemma FunctionRows184To213Backed()
    ensures forall i | 184 <= i < 214 :: NeedsCudaRow(FunctionRows184To213(i)) ==> BackedByCudaVersionRows113To142(FunctionRows184To213(i))
    ensures forall i | 184 <= i < 214 :: HasHipStatus(FunctionRows184To213(i)) ==> BackedByHipVersionRow(FunctionRows184To213(i))
    ensures forall i | 184 <= i < 214 :: HipTargetFlagged(FunctionRows184To213(i))
  {
    FunctionSlice184To187Backed();
    FunctionSlice188To191Backed();
    FunctionSlice192To195Backed();
    FunctionSlice196To199Backed();
    FunctionSlice200To203Backed();
    FunctionSlice204To207Backed();
    FunctionSlice208To211Backed();
    FunctionSlice212To213Backed();
  }

  lemma FunctionSlice214To217Backed()
    ensures forall i | 214 <= i < 218 :: NeedsCudaRow(FunctionRows214To243(i)) ==> BackedByCudaVersionRows143To156(FunctionRows214To243(i))
    ensures forall i | 214 <= i < 218 :: HasHipStatus(FunctionRows214To243(i)) ==> BackedByHipVersionRow(FunctionRows214To243(i))
    ensures forall i | 214 <= i < 218 :: HipTargetFlagged(FunctionRows214To243(i))
  {
  }

  lemma FunctionSlice218To221Backed()
    ensures forall i | 218 <= i < 222 :: NeedsCudaRow(FunctionRows214To243(i)) ==> BackedByCudaVersionRows143To156(FunctionRows214To243(i))
    ensures forall i | 218 <= i < 222 :: HasHipStatus(FunctionRows214To243(i)) ==> BackedByHipVersionRow(FunctionRows214To243(i))
    ensures forall i | 218 <= i < 222 :: HipTargetFlagged(FunctionRows214To243(i))
  {
  }

  lemma FunctionSlice222To225Backed()
    ensures forall i | 222 <= i < 226 :: NeedsCudaRow(FunctionRows214To243(i)) ==> BackedByCudaVersionRows143To156(FunctionRows214To243(i))
    ensures forall i | 222 <= i < 226 :: HasHipStatus(FunctionRows214To243(i)) ==> BackedByHipVersionRow(FunctionRows214To243(i))
    ensures forall i | 222 <= i < 226 :: HipTargetFlagged(FunctionRows214To243(i))
  {
  }

  lemma FunctionSlice226To229Backed()
    ensures forall i | 226 <= i < 230 :: NeedsCudaRow(FunctionRows214To243(i)) ==> BackedByCudaVersionRows143To156(FunctionRows214To243(i))
    ensures forall i | 226 <= i < 230 :: HasHipStatus(FunctionRows214To243(i)) ==> BackedByHipVersionRow(FunctionRows214To243(i))
    ensures forall i | 226 <= i < 230 :: HipTargetFlagged(FunctionRows214To243(i))
  {
  }

  lemma FunctionSlice230To233Backed()
    ensures forall i | 230 <= i < 234 :: NeedsCudaRow(FunctionRows214To243(i)) ==> BackedByCudaVersionRows143To156(FunctionRows214To243(i))
    ensures forall i | 230 <= i < 234 :: HasHipStatus(FunctionRows214To243(i)) ==> BackedByHipVersionRow(FunctionRows214To243(i))
    ensures forall i | 230 <= i < 234 :: HipTargetFlagged(FunctionRows214To243(i))
  {
  }

  lemma FunctionSlice234To237Backed()
    ensures forall i | 234 <= i < 238 :: NeedsCudaRow(FunctionRows214To243(i)) ==> BackedByCudaVersionRows143To156(FunctionRows214To243(i))
    ensures forall i | 234 <= i < 238 :: HasHipStatus(FunctionRows214To243(i)) ==> BackedByHipVersionRow(FunctionRows214To243(i))
    ensures forall i | 234 <= i < 238 :: HipTargetFlagged(FunctionRows214To243(i))
  {
  }

  lemma FunctionSlice238To241Backed()
    ensures forall i | 238 <= i < 242 :: NeedsCudaRow(FunctionRows214To243(i)) ==> BackedByCudaVersionRows143To156(FunctionRows214To243(i))
    ensures forall i | 238 <= i < 242 :: HasHipStatus(FunctionRows214To243(i)) ==> BackedByHipVersionRow(FunctionRows214To243(i))
    ensures forall i | 238 <= i < 242 :: HipTargetFlagged(FunctionRows214To243(i))
  {
  }

  lemma FunctionSlice242To243Backed()
    ensures forall i | 242 <= i < 244 :: NeedsCudaRow(FunctionRows214To243(i)) ==> BackedByCudaVersionRows143To156(FunctionRows214To243(i))
    ensures forall i | 242 <= i < 244 :: HasHipStatus(FunctionRows214To243(i)) ==> BackedByHipVersionRow(FunctionRows214To243(i))
    ensures forall i | 242 <= i < 244 :: HipTargetFlagged(FunctionRows214To243(i))
  {
  }

  lemma FunctionRows214To243Backed()
    ensures forall i | 214 <= i < 244 :: NeedsCudaRow(FunctionRows214To243(i)) ==> BackedByCudaVersionRows143To156(FunctionRows214To243(i))
    ensures forall i | 214 <= i < 244 :: HasHipStatus(FunctionRows214To243(i)) ==> BackedByHipVersionRow(FunctionRows214To243(i))
    ensures forall i | 214 <= i < 244 :: HipTargetFlagged(FunctionRows214To243(i))
  {
    FunctionSlice214To217Backed();
    FunctionSlice218To221Backed();
    FunctionSlice222To225Backed();
    FunctionSlice226To229Backed();
    FunctionSlice230To233Backed();
    FunctionSlice234To237Backed();
    FunctionSlice238To241Backed();
    FunctionSlice242To243Backed();
  }

  lemma FunctionRows184To243Backed()
    ensures forall i | 184 <= i < 244 :: NeedsCudaRow(FunctionRows184To243(i)) ==> BackedByCudaVersionRows113To156(FunctionRows184To243(i))
    ensures forall i | 184 <= i < 244 :: HasHipStatus(FunctionRows184To243(i)) ==> BackedByHipVersionRow(FunctionRows184To243(i))
    ensures forall i | 184 <= i < 244 :: HipTargetFlagged(FunctionRows184To243(i))
  {
    forall i | 184 <= i < 244
      ensures NeedsCudaRow(FunctionRows184To243(i)) ==> BackedByCudaVersionRows113To156(FunctionRows184To243(i))
      ensures HasHipStatus(FunctionRows184To243(i)) ==> BackedByHipVersionRow(FunctionRows184To243(i))
      ensures HipTargetFlagged(FunctionRows184To243(i))
    {
      if i < 214 {
        FunctionRows184To213Backed();
        assert FunctionRows184To243(i) == FunctionRows184To213(i);
        if NeedsCudaRow(FunctionRows184To213(i)) {
          var j :| 113 <= j < 143 && CudaRowBacks(FunctionRows184To213(i), CudaVersionRows113To142(j));
          assert CudaRowBacks(FunctionRows184To243(i), CudaVersionRows113To156(j));
        }
      } else {
        FunctionRows214To243Backed();
        assert FunctionRows184To243(i) == FunctionRows214To243(i);
        if NeedsCudaRow(FunctionRows214To243(i)) {
          var j :| 143 <= j < 157 && CudaRowBacks(FunctionRows214To243(i), CudaVersionRows143To156(j));
          assert CudaRowBacks(FunctionRows184To243(i), CudaVersionRows113To156(j));
        }
      }
    }
  }

  lemma FunctionSlice244To247Backed()
    ensures forall i | 244 <= i < 248 :: NeedsCudaRow(FunctionRows244To273(i)) ==> BackedByCudaVersionRows157To177(FunctionRows244To273(i))
    ensures forall i | 244 <= i < 248 :: HasHipStatus(FunctionRows244To273(i)) ==> BackedByHipVersionRow(FunctionRows244To273(i))
    ensures forall i | 244 <= i < 248 :: HipTargetFlagged(FunctionRows244To273(i))
  {
  }

  lemma FunctionSlice248To251Backed()
    ensures forall i | 248 <= i < 252 :: NeedsCudaRow(FunctionRows244To273(i)) ==> BackedByCudaVersionRows157To177(FunctionRows244To273(i))
    ensures forall i | 248 <= i < 252 :: HasHipStatus(FunctionRows244To273(i)) ==> BackedByHipVersionRow(FunctionRows244To273(i))
    ensures forall i | 248 <= i < 252 :: HipTargetFlagged(FunctionRows244To273(i))
  {
  }

  lemma FunctionSlice252To255Backed()
    ensures forall i | 252 <= i < 256 :: NeedsCudaRow(FunctionRows244To273(i)) ==> BackedByCudaVersionRows157To177(FunctionRows244To273(i))
    ensures forall i | 252 <= i < 256 :: HasHipStatus(FunctionRows244To273(i)) ==> BackedByHipVersionRow(FunctionRows244To273(i))
    ensures forall i | 252 <= i < 256 :: HipTargetFlagged(FunctionRows244To273(i))
  {
  }

  lemma FunctionSlice256To259Backed()
    ensures forall i | 256 <= i < 260 :: NeedsCudaRow(FunctionRows244To273(i)) ==> BackedByCudaVersionRows157To177(FunctionRows244To273(i))
    ensures forall i | 256 <= i < 260 :: HasHipStatus(FunctionRows244To273(i)) ==> BackedByHipVersionRow(FunctionRows244To273(i))
    ensures forall i | 256 <= i < 260 :: HipTargetFlagged(FunctionRows244To273(i))
  {
    assert CudaRowBacks(FunctionRows244To273(256), CudaVersionRows157To177(163));
    assert CudaRowBacks(FunctionRows244To273(258), CudaVersionRows157To177(165));
    assert CudaRowBacks(FunctionRows244To273(259), CudaVersionRows157To177(166));
  }

  lemma FunctionSlice260To263Backed()
    ensures forall i | 260 <= i < 264 :: NeedsCudaRow(FunctionRows244To273(i)) ==> BackedByCudaVersionRows157To177(FunctionRows244To273(i))
    ensures forall i | 260 <= i < 264 :: HasHipStatus(FunctionRows244To273(i)) ==> BackedByHipVersionRow(FunctionRows244To273(i))
    ensures forall i | 260 <= i < 264 :: HipTargetFlagged(FunctionRows244To273(i))
  {
    assert CudaRowBacks(FunctionRows244To273(260), CudaVersionRows157To177(167));
  }

  lemma FunctionSlice264To267Backed()
    ensures forall i | 264 <= i < 268 :: NeedsCudaRow(FunctionRows244To273(i)) ==> BackedByCudaVersionRows157To177(FunctionRows244To273(i))
    ensures forall i | 264 <= i < 268 :: HasHipStatus(FunctionRows244To273(i)) ==> BackedByHipVersionRow(FunctionRows244To273(i))
    ensures forall i | 264 <= i < 268 :: HipTargetFlagged(FunctionRows244To273(i))
  {
  }

  lemma FunctionSlice268To271Backed()
    ensures forall i | 268 <= i < 272 :: NeedsCudaRow(FunctionRows244To273(i)) ==> BackedByCudaVersionRows157To177(FunctionRows244To273(i))
    ensures forall i | 268 <= i < 272 :: HasHipStatus(FunctionRows244To273(i)) ==> BackedByHipVersionRow(FunctionRows244To273(i))
    ensures forall i | 268 <= i < 272 :: HipTargetFlagged(FunctionRows244To273(i))
  {
  }

  lemma FunctionSlice272To273Backed()
    ensures forall i | 272 <= i < 274 :: NeedsCudaRow(FunctionRows244To273(i)) ==> BackedByCudaVersionRows157To177(FunctionRows244To273(i))
    ensures forall i | 272 <= i < 274 :: HasHipStatus(FunctionRows244To273(i)) ==> BackedByHipVersionRow(FunctionRows244To273(i))
    ensures forall i | 272 <= i < 274 :: HipTargetFlagged(FunctionRows244To273(i))
  {
  }

  lemma FunctionRows244To273Backed()
    ensures forall i | 244 <= i < 274 :: NeedsCudaRow(FunctionRows244To273(i)) ==> BackedByCudaVersionRows157To177(FunctionRows244To273(i))
    ensures forall i | 244 <= i < 274 :: HasHipStatus(FunctionRows244To273(i)) ==> BackedByHipVersionRow(FunctionRows244To273(i))
    ensures forall i | 244 <= i < 274 :: HipTargetFlagged(FunctionRows244To273(i))
  {
    FunctionSlice244To247Backed();
    FunctionSlice248To251Backed();
    FunctionSlice252To255Backed();
    FunctionSlice256To259Backed();
    FunctionSlice260To263Backed();
    FunctionSlice264To267Backed();
    FunctionSlice268To271Backed();
    FunctionSlice272To273Backed();
  }

  lemma FunctionSlice274To277Backed()
    ensures forall i | 274 <= i < 278 :: NeedsCudaRow(FunctionRows274To303(i)) ==> BackedByCudaVersionRows178To189(FunctionRows274To303(i))
    ensures forall i | 274 <= i < 278 :: HasHipStatus(FunctionRows274To303(i)) ==> BackedByHipVersionRow(FunctionRows274To303(i))
    ensures forall i | 274 <= i < 278 :: HipTargetFlagged(FunctionRows274To303(i))
  {
  }

  lemma FunctionSlice278To281Backed()
    ensures forall i | 278 <= i < 282 :: NeedsCudaRow(FunctionRows274To303(i)) ==> BackedByCudaVersionRows178To189(FunctionRows274To303(i))
    ensures forall i | 278 <= i < 282 :: HasHipStatus(FunctionRows274To303(i)) ==> BackedByHipVersionRow(FunctionRows274To303(i))
    ensures forall i | 278 <= i < 282 :: HipTargetFlagged(FunctionRows274To303(i))
  {
  }

  lemma FunctionSlice282To285Backed()
    ensures forall i | 282 <= i < 286 :: NeedsCudaRow(FunctionRows274To303(i)) ==> BackedByCudaVersionRows178To189(FunctionRows274To303(i))
    ensures forall i | 282 <= i < 286 :: HasHipStatus(FunctionRows274To303(i)) ==> BackedByHipVersionRow(FunctionRows274To303(i))
    ensures forall i | 282 <= i < 286 :: HipTargetFlagged(FunctionRows274To303(i))
  {
  }

  lemma FunctionSlice286To289Backed()
    ensures forall i | 286 <= i < 290 :: NeedsCudaRow(FunctionRows274To303(i)) ==> BackedByCudaVersionRows178To189(FunctionRows274To303(i))
    ensures forall i | 286 <= i < 290 :: HasHipStatus(FunctionRows274To303(i)) ==> BackedByHipVersionRow(FunctionRows274To303(i))
    ensures forall i | 286 <= i < 290 :: HipTargetFlagged(FunctionRows274To303(i))
  {
  }

  lemma FunctionSlice290To293Backed()
    ensures forall i | 290 <= i < 294 :: NeedsCudaRow(FunctionRows274To303(i)) ==> BackedByCudaVersionRows178To189(FunctionRows274To303(i))
    ensures forall i | 290 <= i < 294 :: HasHipStatus(FunctionRows274To303(i)) ==> BackedByHipVersionRow(FunctionRows274To303(i))
    ensures forall i | 290 <= i < 294 :: HipTargetFlagged(FunctionRows274To303(i))
  {
  }

  lemma FunctionSlice294To297Backed()
    ensures forall i | 294 <= i < 298 :: NeedsCudaRow(FunctionRows274To303(i)) ==> BackedByCudaVersionRows178To189(FunctionRows274To303(i))
    ensures forall i | 294 <= i < 298 :: HasHipStatus(FunctionRows274To303(i)) ==> BackedByHipVersionRow(FunctionRows274To303(i))
    ensures forall i | 294 <= i < 298 :: HipTargetFlagged(FunctionRows274To303(i))
  {
  }

  lemma FunctionSlice298To301Backed()
    ensures forall i | 298 <= i < 302 :: NeedsCudaRow(FunctionRows274To303(i)) ==> BackedByCudaVersionRows178To189(FunctionRows274To303(i))
    ensures forall i | 298 <= i < 302 :: HasHipStatus(FunctionRows274To303(i)) ==> BackedByHipVersionRow(FunctionRows274To303(i))
    ensures forall i | 298 <= i < 302 :: HipTargetFlagged(FunctionRows274To303(i))
  {
  }

  lemma FunctionSlice302To303Backed()
    ensures forall i | 302 <= i < 304 :: NeedsCudaRow(FunctionRows274To303(i)) ==> BackedByCudaVersionRows178To189(FunctionRows274To303(i))
    ensures forall i | 302 <= i < 304 :: HasHipStatus(FunctionRows274To303(i)) ==> BackedByHipVersionRow(FunctionRows274To303(i))
    ensures forall i | 302 <= i < 304 :: HipTargetFlagged(FunctionRows274To303(i))
  {
  }

  lemma FunctionRows274To303Backed()
    ensures forall i | 274 <= i < 304 :: NeedsCudaRow(FunctionRows274To303(i)) ==> BackedByCudaVersionRows178To189(FunctionRows274To303(i))
    ensures forall i | 274 <= i < 304 :: HasHipStatus(FunctionRows274To303(i)) ==> BackedByHipVersionRow(FunctionRows274To303(i))
    ensures forall i | 274 <= i < 304 :: HipTargetFlagged(FunctionRows274To303(i))
  {
    FunctionSlice274To277Backed();
    FunctionSlice278To281Backed();
    FunctionSlice282To285Backed();
    FunctionSlice286To289Backed();
    FunctionSlice290To293Backed();
    FunctionSlice294To297Backed();
    FunctionSlice298To301Backed();
    FunctionSlice302To303Backed();
  }

  lemma FunctionRows244To303Backed()
    ensures forall i | 244 <= i < 304 :: NeedsCudaRow(FunctionRows244To303(i)) ==> BackedByCudaVersionRows157To189(FunctionRows244To303(i))
    ensures forall i | 244 <= i < 304 :: HasHipStatus(FunctionRows244To303(i)) ==> BackedByHipVersionRow(FunctionRows244To303(i))
    ensures forall i | 244 <= i < 304 :: HipTargetFlagged(FunctionRows244To303(i))
  {
    forall i | 244 <= i < 304
      ensures NeedsCudaRow(FunctionRows244To303(i)) ==> BackedByCudaVersionRows157To189(FunctionRows244To303(i))
      ensures HasHipStatus(FunctionRows244To303(i)) ==> BackedByHipVersionRow(FunctionRows244To303(i))
      ensures HipTargetFlagged(FunctionRows244To303(i))
    {
      if i < 274 {
        FunctionRows244To273Backed();
        assert FunctionRows244To303(i) == FunctionRows244To273(i);
        if NeedsCudaRow(FunctionRows244To273(i)) {
          var j :| 157 <= j < 178 && CudaRowBacks(FunctionRows244To273(i), CudaVersionRows157To177(j));
          assert CudaRowBacks(FunctionRows244To303(i), CudaVersionRows157To189(j));
        }
      } else {
        FunctionRows274To303Backed();
        assert FunctionRows244To303(i) == FunctionRows274To303(i);
        if NeedsCudaRow(FunctionRows274To303(i)) {
          var j :| 178 <= j < 190 && CudaRowBacks(FunctionRows274To303(i), CudaVersionRows178To189(j));
          assert CudaRowBacks(FunctionRows244To303(i), CudaVersionRows157To189(j));
        }
      }
    }
  }

  lemma FunctionSlice304To307Backed()
    ensures forall i | 304 <= i < 308 :: NeedsCudaRow(FunctionRows304To333(i)) ==> BackedByCudaVersionRows190To210(FunctionRows304To333(i))
    ensures forall i | 304 <= i < 308 :: HasHipStatus(FunctionRows304To333(i)) ==> BackedByHipVersionRow(FunctionRows304To333(i))
    ensures forall i | 304 <= i < 308 :: HipTargetFlagged(FunctionRows304To333(i))
  {
  }

  lemma FunctionSlice308To311Backed()
    ensures forall i | 308 <= i < 312 :: NeedsCudaRow(FunctionRows304To333(i)) ==> BackedByCudaVersionRows190To210(FunctionRows304To333(i))
    ensures forall i | 308 <= i < 312 :: HasHipStatus(FunctionRows304To333(i)) ==> BackedByHipVersionRow(FunctionRows304To333(i))
    ensures forall i | 308 <= i < 312 :: HipTargetFlagged(FunctionRows304To333(i))
  {
  }

  lemma FunctionSlice312To315Backed()
    ensures forall i | 312 <= i < 316 :: NeedsCudaRow(FunctionRows304To333(i)) ==> BackedByCudaVersionRows190To210(FunctionRows304To333(i))
    ensures forall i | 312 <= i < 316 :: HasHipStatus(FunctionRows304To333(i)) ==> BackedByHipVersionRow(FunctionRows304To333(i))
    ensures forall i | 312 <= i < 316 :: HipTargetFlagged(FunctionRows304To333(i))
  {
  }

  lemma FunctionSlice316To319Backed()
    ensures forall i | 316 <= i < 320 :: NeedsCudaRow(FunctionRows304To333(i)) ==> BackedByCudaVersionRows190To210(FunctionRows304To333(i))
    ensures forall i | 316 <= i < 320 :: HasHipStatus(FunctionRows304To333(i)) ==> BackedByHipVersionRow(FunctionRows304To333(i))
    ensures forall i | 316 <= i < 320 :: HipTargetFlagged(FunctionRows304To333(i))
  {
  }

  lemma FunctionSlice320To323Backed()
    ensures forall i | 320 <= i < 324 :: NeedsCudaRow(FunctionRows304To333(i)) ==> BackedByCudaVersionRows190To210(FunctionRows304To333(i))
    ensures forall i | 320 <= i < 324 :: HasHipStatus(FunctionRows304To333(i)) ==> BackedByHipVersionRow(FunctionRows304To333(i))
    ensures forall i | 320 <= i < 324 :: HipTargetFlagged(FunctionRows304To333(i))
  {
  }

  lemma FunctionSlice324To327Backed()
    ensures forall i | 324 <= i < 328 :: NeedsCudaRow(FunctionRows304To333(i)) ==> BackedByCudaVersionRows190To210(FunctionRows304To333(i))
    ensures forall i | 324 <= i < 328 :: HasHipStatus(FunctionRows304To333(i)) ==> BackedByHipVersionRow(FunctionRows304To333(i))
    ensures forall i | 324 <= i < 328 :: HipTargetFlagged(FunctionRows304To333(i))
  {
  }

  lemma FunctionSlice328To331Backed()
    ensures forall i | 328 <= i < 332 :: NeedsCudaRow(FunctionRows304To333(i)) ==> BackedByCudaVersionRows190To210(FunctionRows304To333(i))
    ensures forall i | 328 <= i < 332 :: HasHipStatus(FunctionRows304To333(i)) ==> BackedByHipVersionRow(FunctionRows304To333(i))
    ensures forall i | 328 <= i < 332 :: HipTargetFlagged(FunctionRows304To333(i))
  {
  }

  lemma FunctionSlice332To333Backed()
    ensures forall i | 332 <= i < 334 :: NeedsCudaRow(FunctionRows304To333(i)) ==> BackedByCudaVersionRows190To210(FunctionRows304To333(i))
    ensures forall i | 332 <= i < 334 :: HasHipStatus(FunctionRows304To333(i)) ==> BackedByHipVersionRow(FunctionRows304To333(i))
    ensures forall i | 332 <= i < 334 :: HipTargetFlagged(FunctionRows304To333(i))
  {
  }

  lemma FunctionRows304To333Backed()
    ensures forall i | 304 <= i < 334 :: NeedsCudaRow(FunctionRows304To333(i)) ==> BackedByCudaVersionRows190To210(FunctionRows304To333(i))
    ensures forall i | 304 <= i < 334 :: HasHipStatus(FunctionRows304To333(i)) ==> BackedByHipVersionRow(FunctionRows304To333(i))
    ensures forall i | 304 <= i < 334 :: HipTargetFlagged(FunctionRows304To333(i))
  {
    FunctionSlice304To307Backed();
    FunctionSlice308To311Backed();
    FunctionSlice312To315Backed();
    FunctionSlice316To319Backed();
    FunctionSlice320To323Backed();
    FunctionSlice324To327Backed();
    FunctionSlice328To331Backed();
    FunctionSlice332To333Backed();
  }

  lemma FunctionSlice334To337Backed()
    ensures forall i | 334 <= i < 338 :: !NeedsCudaRow(FunctionRows334To363(i))
    ensures forall i | 334 <= i < 338 :: HasHipStatus(FunctionRows334To363(i)) ==> BackedByHipVersionRow(FunctionRows334To363(i))
    ensures forall i | 334 <= i < 338 :: HipTargetFlagged(FunctionRows334To363(i))
  {
  }

  lemma FunctionSlice338To341Backed()
    ensures forall i | 338 <= i < 342 :: !NeedsCudaRow(FunctionRows334To363(i))
    ensures forall i | 338 <= i < 342 :: HasHipStatus(FunctionRows334To363(i)) ==> BackedByHipVersionRow(FunctionRows334To363(i))
    ensures forall i | 338 <= i < 342 :: HipTargetFlagged(FunctionRows334To363(i))
  {
  }

  lemma FunctionSlice342To345Backed()
    ensures forall i | 342 <= i < 346 :: !NeedsCudaRow(FunctionRows334To363(i))
    ensures forall i | 342 <= i < 346 :: HasHipStatus(FunctionRows334To363(i)) ==> BackedByHipVersionRow(FunctionRows334To363(i))
    ensures forall i | 342 <= i < 346 :: HipTargetFlagged(FunctionRows334To363(i))
  {
  }

  lemma FunctionSlice346To349Backed()
    ensures forall i | 346 <= i < 350 :: !NeedsCudaRow(FunctionRows334To363(i))
    ensures forall i | 346 <= i < 350 :: HasHipStatus(FunctionRows334To363(i)) ==> BackedByHipVersionRow(FunctionRows334To363(i))
    ensures forall i | 346 <= i < 350 :: HipTargetFlagged(FunctionRows334To363(i))
  {
  }

  lemma FunctionSlice350To353Backed()
    ensures forall i | 350 <= i < 354 :: !NeedsCudaRow(FunctionRows334To363(i))
    ensures forall i | 350 <= i < 354 :: HasHipStatus(FunctionRows334To363(i)) ==> BackedByHipVersionRow(FunctionRows334To363(i))
    ensures forall i | 350 <= i < 354 :: HipTargetFlagged(FunctionRows334To363(i))
  {
  }

  lemma FunctionSlice354To357Backed()
    ensures forall i | 354 <= i < 358 :: !NeedsCudaRow(FunctionRows334To363(i))
    ensures forall i | 354 <= i < 358 :: HasHipStatus(FunctionRows334To363(i)) ==> BackedByHipVersionRow(FunctionRows334To363(i))
    ensures forall i | 354 <= i < 358 :: HipTargetFlagged(FunctionRows334To363(i))
  {
  }

  lemma FunctionSlice358To361Backed()
    ensures forall i | 358 <= i < 362 :: !NeedsCudaRow(FunctionRows334To363(i))
    ensures forall i | 358 <= i < 362 :: HasHipStatus(FunctionRows334To363(i)) ==> BackedByHipVersionRow(FunctionRows334To363(i))
    ensures forall i | 358 <= i < 362 :: HipTargetFlagged(FunctionRows334To363(i))
  {
  }

  lemma FunctionSlice362To363Backed()
    ensures forall i | 362 <= i < 364 :: !NeedsCudaRow(FunctionRows334To363(i))
    ensures forall i | 362 <= i < 364 :: HasHipStatus(FunctionRows334To363(i)) ==> BackedByHipVersionRow(FunctionRows334To363(i))
    ensures forall i | 362 <= i < 364 :: HipTargetFlagged(FunctionRows334To363(i))
  {
  }

  lemma FunctionRows334To363Backed()
    ensures forall i | 334 <= i < 364 :: !NeedsCudaRow(FunctionRows334To363(i))
    ensures forall i | 334 <= i < 364 :: HasHipStatus(FunctionRows334To363(i)) ==> BackedByHipVersionRow(FunctionRows334To363(i))
    ensures forall i | 334 <= i < 364 :: HipTargetFlagged(FunctionRows334To363(i))
  {
    FunctionSlice334To337Backed();
    FunctionSlice338To341Backed();
    FunctionSlice342To345Backed();
    FunctionSlice346To349Backed();
    FunctionSlice350To353Backed();
    FunctionSlice354To357Backed();
    FunctionSlice358To361Backed();
    FunctionSlice362To363Backed();
  }

  lemma FunctionRows304To363Backed()
    ensures forall i | 304 <= i < 364 :: NeedsCudaRow(FunctionRows304To363(i)) ==> BackedByCudaVersionRows190To210(FunctionRows304To363(i))
    ensures forall i | 304 <= i < 364 :: HasHipStatus(FunctionRows304To363(i)) ==> BackedByHipVersionRow(FunctionRows304To363(i))
    ensures forall i | 304 <= i < 364 :: HipTargetFlagged(FunctionRows304To363(i))
  {
    forall i | 304 <= i < 364
      ensures NeedsCudaRow(FunctionRows304To363(i)) ==> BackedByCudaVersionRows190To210(FunctionRows304To363(i))
      ensures HasHipStatus(FunctionRows304To363(i)) ==> BackedByHipVersionRow(FunctionRows304To363(i))
      ensures HipTargetFlagged(FunctionRows304To363(i))
    {
      if i < 334 {
        FunctionRows304To333Backed();
        assert FunctionRows304To363(i) == FunctionRows304To333(i);
        if NeedsCudaRow(FunctionRows304To333(i)) {
          var j :| 190 <= j < 211 && CudaRowBacks(FunctionRows304To333(i), CudaVersionRows190To210(j));
          assert CudaRowBacks(FunctionRows304To363(i), CudaVersionRows190To210(j));
        }
      } else {
        FunctionRows334To363Backed();
        assert FunctionRows304To363(i) == FunctionRows334To363(i);
      }
    }
  }

  lemma FunctionSlice364To367Backed()
    ensures forall i | 364 <= i < 368 :: !NeedsCudaRow(FunctionRows364To393(i))
    ensures forall i | 364 <= i < 368 :: HasHipStatus(FunctionRows364To393(i)) ==> BackedByHipVersionRow(FunctionRows364To393(i))
    ensures forall i | 364 <= i < 368 :: HipTargetFlagged(FunctionRows364To393(i))
  {
  }

  lemma FunctionSlice368To371Backed()
    ensures forall i | 368 <= i < 372 :: !NeedsCudaRow(FunctionRows364To393(i))
    ensures forall i | 368 <= i < 372 :: HasHipStatus(FunctionRows364To393(i)) ==> BackedByHipVersionRow(FunctionRows364To393(i))
    ensures forall i | 368 <= i < 372 :: HipTargetFlagged(FunctionRows364To393(i))
  {
  }

  lemma FunctionSlice372To375Backed()
    ensures forall i | 372 <= i < 376 :: !NeedsCudaRow(FunctionRows364To393(i))
    ensures forall i | 372 <= i < 376 :: HasHipStatus(FunctionRows364To393(i)) ==> BackedByHipVersionRow(FunctionRows364To393(i))
    ensures forall i | 372 <= i < 376 :: HipTargetFlagged(FunctionRows364To393(i))
  {
  }

  lemma FunctionSlice376To379Backed()
    ensures forall i | 376 <= i < 380 :: !NeedsCudaRow(FunctionRows364To393(i))
    ensures forall i | 376 <= i < 380 :: HasHipStatus(FunctionRows364To393(i)) ==> BackedByHipVersionRow(FunctionRows364To393(i))
    ensures forall i | 376 <= i < 380 :: HipTargetFlagged(FunctionRows364To393(i))
  {
  }

  lemma FunctionSlice380To383Backed()
    ensures forall i | 380 <= i < 384 :: !NeedsCudaRow(FunctionRows364To393(i))
    ensures forall i | 380 <= i < 384 :: HasHipStatus(FunctionRows364To393(i)) ==> BackedByHipVersionRow(FunctionRows364To393(i))
    ensures forall i | 380 <= i < 384 :: HipTargetFlagged(FunctionRows364To393(i))
  {
  }

  lemma FunctionSlice384To387Backed()
    ensures forall i | 384 <= i < 388 :: !NeedsCudaRow(FunctionRows364To393(i))
    ensures forall i | 384 <= i < 388 :: HasHipStatus(FunctionRows364To393(i)) ==> BackedByHipVersionRow(FunctionRows364To393(i))
    ensures forall i | 384 <= i < 388 :: HipTargetFlagged(FunctionRows364To393(i))
  {
  }

  lemma FunctionSlice388To391Backed()
    ensures forall i | 388 <= i < 392 :: !NeedsCudaRow(FunctionRows364To393(i))
    ensures forall i | 388 <= i < 392 :: HasHipStatus(FunctionRows364To393(i)) ==> BackedByHipVersionRow(FunctionRows364To393(i))
    ensures forall i | 388 <= i < 392 :: HipTargetFlagged(FunctionRows364To393(i))
  {
  }

  lemma FunctionSlice392To393Backed()
    ensures forall i | 392 <= i < 394 :: !NeedsCudaRow(FunctionRows364To393(i))
    ensures forall i | 392 <= i < 394 :: HasHipStatus(FunctionRows364To393(i)) ==> BackedByHipVersionRow(FunctionRows364To393(i))
    ensures forall i | 392 <= i < 394 :: HipTargetFlagged(FunctionRows364To393(i))
  {
  }

  lemma FunctionRows364To393Backed()
    ensures forall i | 364 <= i < 394 :: !NeedsCudaRow(FunctionRows364To393(i))
    ensures forall i | 364 <= i < 394 :: HasHipStatus(FunctionRows364To393(i)) ==> BackedByHipVersionRow(FunctionRows364To393(i))
    ensures forall i | 364 <= i < 394 :: HipTargetFlagged(FunctionRows364To393(i))
  {
    FunctionSlice364To367Backed();
    FunctionSlice368To371Backed();
    FunctionSlice372To375Backed();
    FunctionSlice376To379Backed();
    FunctionSlice380To383Backed();
    FunctionSlice384To387Backed();
    FunctionSlice388To391Backed();
    FunctionSlice392To393Backed();
  }

  lemma FunctionSlice394To397Backed()
    ensures forall i | 394 <= i < 398 :: NeedsCudaRow(FunctionRows394To423(i)) ==> BackedByCudaVersionRows211To222(FunctionRows394To423(i))
    ensures forall i | 394 <= i < 398 :: HasHipStatus(FunctionRows394To423(i)) ==> BackedByHipVersionRow(FunctionRows394To423(i))
    ensures forall i | 394 <= i < 398 :: HipTargetFlagged(FunctionRows394To423(i))
  {
  }

  lemma FunctionSlice398To401Backed()
    ensures forall i | 398 <= i < 402 :: NeedsCudaRow(FunctionRows394To423(i)) ==> BackedByCudaVersionRows211To222(FunctionRows394To423(i))
    ensures forall i | 398 <= i < 402 :: HasHipStatus(FunctionRows394To423(i)) ==> BackedByHipVersionRow(FunctionRows394To423(i))
    ensures forall i | 398 <= i < 402 :: HipTargetFlagged(FunctionRows394To423(i))
  {
  }

  lemma FunctionSlice402To405Backed()
    ensures forall i | 402 <= i < 406 :: NeedsCudaRow(FunctionRows394To423(i)) ==> BackedByCudaVersionRows211To222(FunctionRows394To423(i))
    ensures forall i | 402 <= i < 406 :: HasHipStatus(FunctionRows394To423(i)) ==> BackedByHipVersionRow(FunctionRows394To423(i))
    ensures forall i | 402 <= i < 406 :: HipTargetFlagged(FunctionRows394To423(i))
  {
    assert CudaRowBacks(FunctionRows394To423(402), CudaVersionRows211To222(213));
    assert CudaRowBacks(FunctionRows394To423(403), CudaVersionRows211To222(214));
  }

  lemma FunctionSlice406To409Backed()
    ensures forall i | 406 <= i < 410 :: NeedsCudaRow(FunctionRows394To423(i)) ==> BackedByCudaVersionRows211To222(FunctionRows394To423(i))
    ensures forall i | 406 <= i < 410 :: HasHipStatus(FunctionRows394To423(i)) ==> BackedByHipVersionRow(FunctionRows394To423(i))
    ensures forall i | 406 <= i < 410 :: HipTargetFlagged(FunctionRows394To423(i))
  {
  }

  lemma FunctionSlice410To413Backed()
    ensures forall i | 410 <= i < 414 :: NeedsCudaRow(FunctionRows394To423(i)) ==> BackedByCudaVersionRows211To222(FunctionRows394To423(i))
    ensures forall i | 410 <= i < 414 :: HasHipStatus(FunctionRows394To423(i)) ==> BackedByHipVersionRow(FunctionRows394To423(i))
    ensures forall i | 410 <= i < 414 :: HipTargetFlagged(FunctionRows394To423(i))
  {
  }

  lemma FunctionSlice414To417Backed()
    ensures forall i | 414 <= i < 418 :: NeedsCudaRow(FunctionRows394To423(i)) ==> BackedByCudaVersionRows211To222(FunctionRows394To423(i))
    ensures forall i | 414 <= i < 418 :: HasHipStatus(FunctionRows394To423(i)) ==> BackedByHipVersionRow(FunctionRows394To423(i))
    ensures forall i | 414 <= i < 418 :: HipTargetFlagged(FunctionRows394To423(i))
  {
    assert CudaRowBacks(FunctionRows394To423(416), CudaVersionRows211To222(218));
    assert CudaRowBacks(FunctionRows394To423(417), CudaVersionRows211To222(219));
  }

  lemma FunctionSlice418To421Backed()
    ensures forall i | 418 <= i < 422 :: NeedsCudaRow(FunctionRows394To423(i)) ==> BackedByCudaVersionRows211To222(FunctionRows394To423(i))
    ensures forall i | 418 <= i < 422 :: HasHipStatus(FunctionRows394To423(i)) ==> BackedByHipVersionRow(FunctionRows394To423(i))
    ensures forall i | 418 <= i < 422 :: HipTargetFlagged(FunctionRows394To423(i))
  {
    assert CudaRowBacks(FunctionRows394To423(418), CudaVersionRows211To222(220));
    assert CudaRowBacks(FunctionRows394To423(419), CudaVersionRows211To222(221));
    assert CudaRowBacks(FunctionRows394To423(420), CudaVersionRows211To222(222));
  }

  lemma FunctionSlice422To423Backed()
    ensures forall i | 422 <= i < 424 :: NeedsCudaRow(FunctionRows394To423(i)) ==> BackedByCudaVersionRows211To222(FunctionRows394To423(i))
    ensures forall i | 422 <= i < 424 :: HasHipStatus(FunctionRows394To423(i)) ==> BackedByHipVersionRow(FunctionRows394To423(i))
    ensures forall i | 422 <= i < 424 :: HipTargetFlagged(FunctionRows394To423(i))
  {
  }

  lemma FunctionRows394To423Backed()
    ensures forall i | 394 <= i < 424 :: NeedsCudaRow(FunctionRows394To423(i)) ==> BackedByCudaVersionRows211To222(FunctionRows394To423(i))
    ensures forall i | 394 <= i < 424 :: HasHipStatus(FunctionRows394To423(i)) ==> BackedByHipVersionRow(FunctionRows394To423(i))
    ensures forall i | 394 <= i < 424 :: HipTargetFlagged(FunctionRows394To423(i))
  {
    FunctionSlice394To397Backed();
    FunctionSlice398To401Backed();
    FunctionSlice402To405Backed();
    FunctionSlice406To409Backed();
    FunctionSlice410To413Backed();
    FunctionSlice414To417Backed();
    FunctionSlice418To421Backed();
    FunctionSlice422To423Backed();
  }

  lemma FunctionRows364To423Backed()
    ensures forall i | 364 <= i < 424 :: NeedsCudaRow(FunctionRows364To423(i)) ==> BackedByCudaVersionRows211To222(FunctionRows364To423(i))
    ensures forall i | 364 <= i < 424 :: HasHipStatus(FunctionRows364To423(i)) ==> BackedByHipVersionRow(FunctionRows364To423(i))
    ensures forall i | 364 <= i < 424 :: HipTargetFlagged(FunctionRows364To423(i))
  {
    forall i | 364 <= i < 424
      ensures NeedsCudaRow(FunctionRows364To423(i)) ==> BackedByCudaVersionRows211To222(FunctionRows364To423(i))
      ensures HasHipStatus(FunctionRows364To423(i)) ==> BackedByHipVersionRow(FunctionRows364To423(i))
      ensures HipTargetFlagged(FunctionRows364To423(i))
    {
      if i < 394 {
        FunctionRows364To393Backed();
        assert FunctionRows364To423(i) == FunctionRows364To393(i);
      } else {
        FunctionRows394To423Backed();
        assert FunctionRows364To423(i) == FunctionRows394To423(i);
        if NeedsCudaRow(FunctionRows394To423(i)) {
          var j :| 211 <= j < 223 && CudaRowBacks(FunctionRows394To423(i), CudaVersionRows211To222(j));
          assert CudaRowBacks(FunctionRows364To423(i), CudaVersionRows211To222(j));
        }
      }
    }
  }

  lemma FunctionSlice424To427Backed()
    ensures forall i | 424 <= i < 428 :: NeedsCudaRow(FunctionRows424To453(i)) ==> BackedByCudaVersionRows223To239(FunctionRows424To453(i))
    ensures forall i | 424 <= i < 428 :: HasHipStatus(FunctionRows424To453(i)) ==> BackedByHipVersionRow(FunctionRows424To453(i))
    ensures forall i | 424 <= i < 428 :: HipTargetFlagged(FunctionRows424To453(i))
  {
  }

  lemma FunctionSlice428To431Backed()
    ensures forall i | 428 <= i < 432 :: NeedsCudaRow(FunctionRows424To453(i)) ==> BackedByCudaVersionRows223To239(FunctionRows424To453(i))
    ensures forall i | 428 <= i < 432 :: HasHipStatus(FunctionRows424To453(i)) ==> BackedByHipVersionRow(FunctionRows424To453(i))
    ensures forall i | 428 <= i < 432 :: HipTargetFlagged(FunctionRows424To453(i))
  {
  }

  lemma FunctionSlice432To435Backed()
    ensures forall i | 432 <= i < 436 :: NeedsCudaRow(FunctionRows424To453(i)) ==> BackedByCudaVersionRows223To239(FunctionRows424To453(i))
    ensures forall i | 432 <= i < 436 :: HasHipStatus(FunctionRows424To453(i)) ==> BackedByHipVersionRow(FunctionRows424To453(i))
    ensures forall i | 432 <= i < 436 :: HipTargetFlagged(FunctionRows424To453(i))
  {
  }

  lemma FunctionSlice436To439Backed()
    ensures forall i | 436 <= i < 440 :: NeedsCudaRow(FunctionRows424To453(i)) ==> BackedByCudaVersionRows223To239(FunctionRows424To453(i))
    ensures forall i | 436 <= i < 440 :: HasHipStatus(FunctionRows424To453(i)) ==> BackedByHipVersionRow(FunctionRows424To453(i))
    ensures forall i | 436 <= i < 440 :: HipTargetFlagged(FunctionRows424To453(i))
  {
  }

  lemma FunctionSlice440To443Backed()
    ensures forall i | 440 <= i < 444 :: NeedsCudaRow(FunctionRows424To453(i)) ==> BackedByCudaVersionRows223To239(FunctionRows424To453(i))
    ensures forall i | 440 <= i < 444 :: HasHipStatus(FunctionRows424To453(i)) ==> BackedByHipVersionRow(FunctionRows424To453(i))
    ensures forall i | 440 <= i < 444 :: HipTargetFlagged(FunctionRows424To453(i))
  {
  }

  lemma FunctionSlice444To447Backed()
    ensures forall i | 444 <= i < 448 :: NeedsCudaRow(FunctionRows424To453(i)) ==> BackedByCudaVersionRows223To239(FunctionRows424To453(i))
    ensures forall i | 444 <= i < 448 :: HasHipStatus(FunctionRows424To453(i)) ==> BackedByHipVersionRow(FunctionRows424To453(i))
    ensures forall i | 444 <= i < 448 :: HipTargetFlagged(FunctionRows424To453(i))
  {
  }

  lemma FunctionSlice448To451Backed()
    ensures forall i | 448 <= i < 452 :: NeedsCudaRow(FunctionRows424To453(i)) ==> BackedByCudaVersionRows223To239(FunctionRows424To453(i))
    ensures forall i | 448 <= i < 452 :: HasHipStatus(FunctionRows424To453(i)) ==> BackedByHipVersionRow(FunctionRows424To453(i))
    ensures forall i | 448 <= i < 452 :: HipTargetFlagged(FunctionRows424To453(i))
  {
  }

  lemma FunctionSlice452To453Backed()
    ensures forall i | 452 <= i < 454 :: NeedsCudaRow(FunctionRows424To453(i)) ==> BackedByCudaVersionRows223To239(FunctionRows424To453(i))
    ensures forall i | 452 <= i < 454 :: HasHipStatus(FunctionRows424To453(i)) ==> BackedByHipVersionRow(FunctionRows424To453(i))
    ensures forall i | 452 <= i < 454 :: HipTargetFlagged(FunctionRows424To453(i))
  {
  }

  lemma FunctionRows424To453Backed()
    ensures forall i | 424 <= i < 454 :: NeedsCudaRow(FunctionRows424To453(i)) ==> BackedByCudaVersionRows223To239(FunctionRows424To453(i))
    ensures forall i | 424 <= i < 454 :: HasHipStatus(FunctionRows424To453(i)) ==> BackedByHipVersionRow(FunctionRows424To453(i))
    ensures forall i | 424 <= i < 454 :: HipTargetFlagged(FunctionRows424To453(i))
  {
    FunctionSlice424To427Backed();
    FunctionSlice428To431Backed();
    FunctionSlice432To435Backed();
    FunctionSlice436To439Backed();
    FunctionSlice440To443Backed();
    FunctionSlice444To447Backed();
    FunctionSlice448To451Backed();
    FunctionSlice452To453Backed();
  }

  lemma FunctionSlice454To457Backed()
    ensures forall i | 454 <= i < 458 :: NeedsCudaRow(FunctionRows454To483(i)) ==> BackedByCudaVersionRows240To261(FunctionRows454To483(i))
    ensures forall i | 454 <= i < 458 :: HasHipStatus(FunctionRows454To483(i)) ==> BackedByHipVersionRow(FunctionRows454To483(i))
    ensures forall i | 454 <= i < 458 :: HipTargetFlagged(FunctionRows454To483(i))
  {
  }

  lemma FunctionSlice458To461Backed()
    ensures forall i | 458 <= i < 462 :: NeedsCudaRow(FunctionRows454To483(i)) ==> BackedByCudaVersionRows240To261(FunctionRows454To483(i))
    ensures forall i | 458 <= i < 462 :: HasHipStatus(FunctionRows454To483(i)) ==> BackedByHipVersionRow(FunctionRows454To483(i))
    ensures forall i | 458 <= i < 462 :: HipTargetFlagged(FunctionRows454To483(i))
  {
  }

  lemma FunctionSlice462To465Backed()
    ensures forall i | 462 <= i < 466 :: NeedsCudaRow(FunctionRows454To483(i)) ==> BackedByCudaVersionRows240To261(FunctionRows454To483(i))
    ensures forall i | 462 <= i < 466 :: HasHipStatus(FunctionRows454To483(i)) ==> BackedByHipVersionRow(FunctionRows454To483(i))
    ensures forall i | 462 <= i < 466 :: HipTargetFlagged(FunctionRows454To483(i))
  {
    assert CudaRowBacks(FunctionRows454To483(465), CudaVersionRows240To261(248));
  }

  lemma FunctionSlice466To469Backed()
    ensures forall i | 466 <= i < 470 :: NeedsCudaRow(FunctionRows454To483(i)) ==> BackedByCudaVersionRows240To261(FunctionRows454To483(i))
    ensures forall i | 466 <= i < 470 :: HasHipStatus(FunctionRows454To483(i)) ==> BackedByHipVersionRow(FunctionRows454To483(i))
    ensures forall i | 466 <= i < 470 :: HipTargetFlagged(FunctionRows454To483(i))
  {
    assert CudaRowBacks(FunctionRows454To483(466), CudaVersionRows240To261(249));
  }

  lemma FunctionSlice470To473Backed()
    ensures forall i | 470 <= i < 474 :: NeedsCudaRow(FunctionRows454To483(i)) ==> BackedByCudaVersionRows240To261(FunctionRows454To483(i))
    ensures forall i | 470 <= i < 474 :: HasHipStatus(FunctionRows454To483(i)) ==> BackedByHipVersionRow(FunctionRows454To483(i))
    ensures forall i | 470 <= i < 474 :: HipTargetFlagged(FunctionRows454To483(i))
  {
  }

  lemma FunctionSlice474To477Backed()
    ensures forall i | 474 <= i < 478 :: NeedsCudaRow(FunctionRows454To483(i)) ==> BackedByCudaVersionRows240To261(FunctionRows454To483(i))
    ensures forall i | 474 <= i < 478 :: HasHipStatus(FunctionRows454To483(i)) ==> BackedByHipVersionRow(FunctionRows454To483(i))
    ensures forall i | 474 <= i < 478 :: HipTargetFlagged(FunctionRows454To483(i))
  {
    assert CudaRowBacks(FunctionRows454To483(475), CudaVersionRows240To261(253));
    assert CudaRowBacks(FunctionRows454To483(476), CudaVersionRows240To261(254));
    assert CudaRowBacks(FunctionRows454To483(477), CudaVersionRows240To261(255));
    assert HipRowBacks(FunctionRows454To483(477), HipVersionRow(103));
  }

  lemma FunctionSlice478To481Backed()
    ensures forall i | 478 <= i < 482 :: NeedsCudaRow(FunctionRows454To483(i)) ==> BackedByCudaVersionRows240To261(FunctionRows454To483(i))
    ensures forall i | 478 <= i < 482 :: HasHipStatus(FunctionRows454To483(i)) ==> BackedByHipVersionRow(FunctionRows454To483(i))
    ensures forall i | 478 <= i < 482 :: HipTargetFlagged(FunctionRows454To483(i))
  {
    assert CudaRowBacks(FunctionRows454To483(478), CudaVersionRows240To261(256));
    assert HipRowBacks(FunctionRows454To483(478), HipVersionRow(104));
    assert CudaRowBacks(FunctionRows454To483(479), CudaVersionRows240To261(257));
    assert HipRowBacks(FunctionRows454To483(479), HipVersionRow(103));
    assert CudaRowBacks(FunctionRows454To483(480), CudaVersionRows240To261(258));
    assert HipRowBacks(FunctionRows454To483(480), HipVersionRow(105));
    assert CudaRowBacks(FunctionRows454To483(481), CudaVersionRows240To261(259));
  }

  lemma FunctionSlice482To483Backed()
    ensures forall i | 482 <= i < 484 :: NeedsCudaRow(FunctionRows454To483(i)) ==> BackedByCudaVersionRows240To261(FunctionRows454To483(i))
    ensures forall i | 482 <= i < 484 :: HasHipStatus(FunctionRows454To483(i)) ==> BackedByHipVersionRow(FunctionRows454To483(i))
    ensures forall i | 482 <= i < 484 :: HipTargetFlagged(FunctionRows454To483(i))
  {
    assert CudaRowBacks(FunctionRows454To483(482), CudaVersionRows240To261(260));
    assert HipRowBacks(FunctionRows454To483(482), HipVersionRow(106));
    assert CudaRowBacks(FunctionRows454To483(483), CudaVersionRows240To261(261));
    assert HipRowBacks(FunctionRows454To483(483), HipVersionRow(107));
  }

  lemma FunctionRows454To483Backed()
    ensures forall i | 454 <= i < 484 :: NeedsCudaRow(FunctionRows454To483(i)) ==> BackedByCudaVersionRows240To261(FunctionRows454To483(i))
    ensures forall i | 454 <= i < 484 :: HasHipStatus(FunctionRows454To483(i)) ==> BackedByHipVersionRow(FunctionRows454To483(i))
    ensures forall i | 454 <= i < 484 :: HipTargetFlagged(FunctionRows454To483(i))
  {
    FunctionSlice454To457Backed();
    FunctionSlice458To461Backed();
    FunctionSlice462To465Backed();
    FunctionSlice466To469Backed();
    FunctionSlice470To473Backed();
    FunctionSlice474To477Backed();
    FunctionSlice478To481Backed();
    FunctionSlice482To483Backed();
  }

  lemma FunctionSlice484To487Backed()
    ensures forall i | 484 <= i < 488 :: NeedsCudaRow(FunctionRows484To513(i)) ==> BackedByCudaVersionRows262To286(FunctionRows484To513(i))
    ensures forall i | 484 <= i < 488 :: HasHipStatus(FunctionRows484To513(i)) ==> BackedByHipVersionRow(FunctionRows484To513(i))
    ensures forall i | 484 <= i < 488 :: HipTargetFlagged(FunctionRows484To513(i))
  {
    assert CudaRowBacks(FunctionRows484To513(484), CudaVersionRows262To286(262));
    assert HipRowBacks(FunctionRows484To513(484), HipVersionRow(108));
    assert CudaRowBacks(FunctionRows484To513(485), CudaVersionRows262To286(263));
    assert HipRowBacks(FunctionRows484To513(485), HipVersionRow(109));
    assert CudaRowBacks(FunctionRows484To513(486), CudaVersionRows262To286(264));
    assert HipRowBacks(FunctionRows484To513(486), HipVersionRow(111));
    assert CudaRowBacks(FunctionRows484To513(487), CudaVersionRows262To286(265));
    assert HipRowBacks(FunctionRows484To513(487), HipVersionRow(112));
  }

  lemma FunctionSlice488To491Backed()
    ensures forall i | 488 <= i < 492 :: NeedsCudaRow(FunctionRows484To513(i)) ==> BackedByCudaVersionRows262To286(FunctionRows484To513(i))
    ensures forall i | 488 <= i < 492 :: HasHipStatus(FunctionRows484To513(i)) ==> BackedByHipVersionRow(FunctionRows484To513(i))
    ensures forall i | 488 <= i < 492 :: HipTargetFlagged(FunctionRows484To513(i))
  {
    assert CudaRowBacks(FunctionRows484To513(488), CudaVersionRows262To286(266));
    assert HipRowBacks(FunctionRows484To513(488), HipVersionRow(113));
    assert CudaRowBacks(FunctionRows484To513(489), CudaVersionRows262To286(267));
    assert HipRowBacks(FunctionRows484To513(489), HipVersionRow(110));
    assert CudaRowBacks(FunctionRows484To513(490), CudaVersionRows262To286(268));
    assert HipRowBacks(FunctionRows484To513(490), HipVersionRow(114));
    assert CudaRowBacks(FunctionRows484To513(491), CudaVersionRows262To286(269));
    assert HipRowBacks(FunctionRows484To513(491), HipVersionRow(115));
  }

  lemma FunctionSlice492To495Backed()
    ensures forall i | 492 <= i < 496 :: NeedsCudaRow(FunctionRows484To513(i)) ==> BackedByCudaVersionRows262To286(FunctionRows484To513(i))
    ensures forall i | 492 <= i < 496 :: HasHipStatus(FunctionRows484To513(i)) ==> BackedByHipVersionRow(FunctionRows484To513(i))
    ensures forall i | 492 <= i < 496 :: HipTargetFlagged(FunctionRows484To513(i))
  {
    assert HipRowBacks(FunctionRows484To513(492), HipVersionRow(115));
    assert HipRowBacks(FunctionRows484To513(493), HipVersionRow(115));
    assert CudaRowBacks(FunctionRows484To513(494), CudaVersionRows262To286(270));
    assert HipRowBacks(FunctionRows484To513(494), HipVersionRow(116));
    assert CudaRowBacks(FunctionRows484To513(495), CudaVersionRows262To286(271));
    assert HipRowBacks(FunctionRows484To513(495), HipVersionRow(114));
  }

  lemma FunctionSlice496To499Backed()
    ensures forall i | 496 <= i < 500 :: NeedsCudaRow(FunctionRows484To513(i)) ==> BackedByCudaVersionRows262To286(FunctionRows484To513(i))
    ensures forall i | 496 <= i < 500 :: HasHipStatus(FunctionRows484To513(i)) ==> BackedByHipVersionRow(FunctionRows484To513(i))
    ensures forall i | 496 <= i < 500 :: HipTargetFlagged(FunctionRows484To513(i))
  {
    assert CudaRowBacks(FunctionRows484To513(496), CudaVersionRows262To286(272));
    assert HipRowBacks(FunctionRows484To513(496), HipVersionRow(117));
    assert CudaRowBacks(FunctionRows484To513(497), CudaVersionRows262To286(273));
    assert HipRowBacks(FunctionRows484To513(497), HipVersionRow(118));
    assert CudaRowBacks(FunctionRows484To513(498), CudaVersionRows262To286(274));
    assert HipRowBacks(FunctionRows484To513(498), HipVersionRow(119));
    assert CudaRowBacks(FunctionRows484To513(499), CudaVersionRows262To286(275));
    assert HipRowBacks(FunctionRows484To513(499), HipVersionRow(120));
  }

  lemma FunctionSlice500To503Backed()
    ensures forall i | 500 <= i < 504 :: NeedsCudaRow(FunctionRows484To513(i)) ==> BackedByCudaVersionRows262To286(FunctionRows484To513(i))
    ensures forall i | 500 <= i < 504 :: HasHipStatus(FunctionRows484To513(i)) ==> BackedByHipVersionRow(FunctionRows484To513(i))
    ensures forall i | 500 <= i < 504 :: HipTargetFlagged(FunctionRows484To513(i))
  {
    assert CudaRowBacks(FunctionRows484To513(500), CudaVersionRows262To286(276));
    assert HipRowBacks(FunctionRows484To513(500), HipVersionRow(121));
    assert CudaRowBacks(FunctionRows484To513(501), CudaVersionRows262To286(277));
    assert HipRowBacks(FunctionRows484To513(501), HipVersionRow(122));
    assert CudaRowBacks(FunctionRows484To513(502), CudaVersionRows262To286(278));
    assert HipRowBacks(FunctionRows484To513(502), HipVersionRow(123));
    assert CudaRowBacks(FunctionRows484To513(503), CudaVersionRows262To286(279));
    assert HipRowBacks(FunctionRows484To513(503), HipVersionRow(124));
  }

  lemma FunctionSlice504To507Backed()
    ensures forall i | 504 <= i < 508 :: NeedsCudaRow(FunctionRows484To513(i)) ==> BackedByCudaVersionRows262To286(FunctionRows484To513(i))
    ensures forall i | 504 <= i < 508 :: HasHipStatus(FunctionRows484To513(i)) ==> BackedByHipVersionRow(FunctionRows484To513(i))
    ensures forall i | 504 <= i < 508 :: HipTargetFlagged(FunctionRows484To513(i))
  {
    assert CudaRowBacks(FunctionRows484To513(504), CudaVersionRows262To286(280));
    assert HipRowBacks(FunctionRows484To513(504), HipVersionRow(125));
    assert CudaRowBacks(FunctionRows484To513(505), CudaVersionRows262To286(281));
    assert HipRowBacks(FunctionRows484To513(505), HipVersionRow(126));
  }

  lemma FunctionSlice508To511Backed()
    ensures forall i | 508 <= i < 512 :: NeedsCudaRow(FunctionRows484To513(i)) ==> BackedByCudaVersionRows262To286(FunctionRows484To513(i))
    ensures forall i | 508 <= i < 512 :: HasHipStatus(FunctionRows484To513(i)) ==> BackedByHipVersionRow(FunctionRows484To513(i))
    ensures forall i | 508 <= i < 512 :: HipTargetFlagged(FunctionRows484To513(i))
  {
  }

  lemma FunctionSlice512To513Backed()
    ensures forall i | 512 <= i < 514 :: NeedsCudaRow(FunctionRows484To513(i)) ==> BackedByCudaVersionRows262To286(FunctionRows484To513(i))
    ensures forall i | 512 <= i < 514 :: HasHipStatus(FunctionRows484To513(i)) ==> BackedByHipVersionRow(FunctionRows484To513(i))
    ensures forall i | 512 <= i < 514 :: HipTargetFlagged(FunctionRows484To513(i))
  {
  }

  lemma FunctionRows484To513Backed()
    ensures forall i | 484 <= i < 514 :: NeedsCudaRow(FunctionRows484To513(i)) ==> BackedByCudaVersionRows262To286(FunctionRows484To513(i))
    ensures forall i | 484 <= i < 514 :: HasHipStatus(FunctionRows484To513(i)) ==> BackedByHipVersionRow(FunctionRows484To513(i))
    ensures forall i | 484 <= i < 514 :: HipTargetFlagged(FunctionRows484To513(i))
  {
    FunctionSlice484To487Backed();
    FunctionSlice488To491Backed();
    FunctionSlice492To495Backed();
    FunctionSlice496To499Backed();
    FunctionSlice500To503Backed();
    FunctionSlice504To507Backed();
    FunctionSlice508To511Backed();
    FunctionSlice512To513Backed();
  }

  lemma FunctionRows424To513Backed()
    ensures forall i | 424 <= i < 514 :: NeedsCudaRow(FunctionRows424To513(i)) ==> BackedByCudaVersionRows223To286(FunctionRows424To513(i))
    ensures forall i | 424 <= i < 514 :: HasHipStatus(FunctionRows424To513(i)) ==> BackedByHipVersionRow(FunctionRows424To513(i))
    ensures forall i | 424 <= i < 514 :: HipTargetFlagged(FunctionRows424To513(i))
  {
    forall i | 424 <= i < 514
      ensures NeedsCudaRow(FunctionRows424To513(i)) ==> BackedByCudaVersionRows223To286(FunctionRows424To513(i))
      ensures HasHipStatus(FunctionRows424To513(i)) ==> BackedByHipVersionRow(FunctionRows424To513(i))
      ensures HipTargetFlagged(FunctionRows424To513(i))
    {
      if i < 454 {
        FunctionRows424To453Backed();
        assert FunctionRows424To513(i) == FunctionRows424To453(i);
        if NeedsCudaRow(FunctionRows424To453(i)) {
          var j :| 223 <= j < 240 && CudaRowBacks(FunctionRows424To453(i), CudaVersionRows223To239(j));
          assert CudaRowBacks(FunctionRows424To513(i), CudaVersionRows223To286(j));
        }
      } else if i < 484 {
        FunctionRows454To483Backed();
        assert FunctionRows424To513(i) == FunctionRows454To483(i);
        if NeedsCudaRow(FunctionRows454To483(i)) {
          var j :| 240 <= j < 262 && CudaRowBacks(FunctionRows454To483(i), CudaVersionRows240To261(j));
          assert CudaRowBacks(FunctionRows424To513(i), CudaVersionRows223To286(j));
        }
      } else {
        FunctionRows484To513Backed();
        assert FunctionRows424To513(i) == FunctionRows484To513(i);
        if NeedsCudaRow(FunctionRows484To513(i)) {
          var j :| 262 <= j < 287 && CudaRowBacks(FunctionRows484To513(i), CudaVersionRows262To286(j));
          assert CudaRowBacks(FunctionRows424To513(i), CudaVersionRows223To286(j));
        }
      }
    }
  }

  lemma FunctionRowBacked()
    ensures forall i | 0 <= i < 514 :: NeedsCudaRow(FunctionRow(i)) ==> BackedByCudaVersionRow(FunctionRow(i))
    ensures forall i | 0 <= i < 514 :: HasHipStatus(FunctionRow(i)) ==> BackedByHipVersionRow(FunctionRow(i))
    ensures forall i | 0 <= i < 514 :: HipTargetFlagged(FunctionRow(i))
  {
    forall i | 0 <= i < 514
      ensures NeedsCudaRow(FunctionRow(i)) ==> BackedByCudaVersionRow(FunctionRow(i))
      ensures HasHipStatus(FunctionRow(i)) ==> BackedByHipVersionRow(FunctionRow(i))
      ensures HipTargetFlagged(FunctionRow(i))
    {
      if i < 62 {
        FunctionRows000To061Backed();
        assert FunctionRow(i) == FunctionRows000To061(i);
        if NeedsCudaRow(FunctionRows000To061(i)) {
          var j :| 0 <= j < 23 && CudaRowBacks(FunctionRows000To061(i), CudaVersionRows000To022(j));
          assert CudaRowBacks(FunctionRow(i), CudaVersionRow(j));
        }
      } else if i < 124 {
        FunctionRows062To123Backed();
        assert FunctionRow(i) == FunctionRows062To123(i);
        if NeedsCudaRow(FunctionRows062To123(i)) {
          var j :| 23 <= j < 63 && CudaRowBacks(FunctionRows062To123(i), CudaVersionRows023To062(j));
          assert CudaRowBacks(FunctionRow(i), CudaVersionRow(j));
        }
      } else if i < 184 {
        FunctionRows124To183Backed();
        assert FunctionRow(i) == FunctionRows124To183(i);
        if NeedsCudaRow(FunctionRows124To183(i)) {
          var j :| 63 <= j < 113 && CudaRowBacks(FunctionRows124To183(i), CudaVersionRows063To112(j));
          assert CudaRowBacks(FunctionRow(i), CudaVersionRow(j));
        }
      } else if i < 244 {
        FunctionRows184To243Backed();
        assert FunctionRow(i) == FunctionRows184To243(i);
        if NeedsCudaRow(FunctionRows184To243(i)) {
          var j :| 113 <= j < 157 && CudaRowBacks(FunctionRows184To243(i), CudaVersionRows113To156(j));
          assert CudaRowBacks(FunctionRow(i), CudaVersionRow(j));
        }
      } else if i < 304 {
        FunctionRows244To303Backed();
        assert FunctionRow(i) == FunctionRows244To303(i);
        if NeedsCudaRow(FunctionRows244To303(i)) {
          var j :| 157 <= j < 190 && CudaRowBacks(FunctionRows244To303(i), CudaVersionRows157To189(j));
          assert CudaRowBacks(FunctionRow(i), CudaVersionRow(j));
        }
      } else if i < 364 {
        FunctionRows304To363Backed();
        assert FunctionRow(i) == FunctionRows304To363(i);
        if NeedsCudaRow(FunctionRows304To363(i)) {
          var j :| 190 <= j < 211 && CudaRowBacks(FunctionRows304To363(i), CudaVersionRows190To210(j));
          assert CudaRowBacks(FunctionRow(i), CudaVersionRow(j));
        }
      } else if i < 424 {
        FunctionRows364To423Backed();
        assert FunctionRow(i) == FunctionRows364To423(i);
        if NeedsCudaRow(FunctionRows364To423(i)) {
          var j :| 211 <= j < 223 && CudaRowBacks(FunctionRows364To423(i), CudaVersionRows211To222(j));
          assert CudaRowBacks(FunctionRow(i), CudaVersionRow(j));
        }
      } else {
        FunctionRows424To513Backed();
        assert FunctionRow(i) == FunctionRows424To513(i);
        if NeedsCudaRow(FunctionRows424To513(i)) {
          var j :| 223 <= j < 287 && CudaRowBacks(FunctionRows424To513(i), CudaVersionRows223To286(j));
          assert CudaRowBacks(FunctionRow(i), CudaVersionRow(j));
        }
      }
    }
  }
}
