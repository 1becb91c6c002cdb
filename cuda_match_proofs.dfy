/** Every CUDA version row belongs to a function row and agrees with its flags. */
module CudaMatchProofs {
  import opened DriverTypes
  import opened DriverRules
  import opened FunctionTable
  import opened CudaVersionTable

  /** The CUDA version row `e` matches one of the function rows 0 to 30. */
  ghost predicate MatchedByFunctionRows000To030(e: (string, CudaVersions))
  {
    exists i | 0 <= i < 31 :: CudaRowMatches(e, FunctionRows000To030(i))
  }

  lemma FunctionRows000To030CudaMatched()
    ensures forall j | 0 <= j < 6 :: MatchedByFunctionRows000To030(CudaVersionRows000To005(j))
  {
    assert CudaRowMatches(CudaVersionRows000To005(0), FunctionRows000To030(9));
    assert CudaRowMatches(CudaVersionRows000To005(1), FunctionRows000To030(10));
    assert CudaRowMatches(CudaVersionRows000To005(2), FunctionRows000To030(11));
    assert CudaRowMatches(CudaVersionRows000To005(3), FunctionRows000To030(15));
    assert CudaRowMatches(CudaVersionRows000To005(4), FunctionRows000To030(25));
    assert CudaRowMatches(CudaVersionRows000To005(5), FunctionRows000To030(27));
  }

  /** The CUDA version row `e` matches one of the function rows 31 to 61. */
  ghost predicate MatchedByFunctionRows031To061(e: (string, CudaVersions))
  {
    exists i | 31 <= i < 62 :: CudaRowMatches(e, FunctionRows031To061(i))
  }

  lemma CudaVersionSlice006To013Matched()
    ensures forall j | 6 <= j < 14 :: MatchedByFunctionRows031To061(CudaVersionRows006To022(j))
  {
    assert CudaRowMatches(CudaVersionRows006To022(6), FunctionRows031To061(35));
    assert CudaRowMatches(CudaVersionRows006To022(7), FunctionRows031To061(41));
    assert CudaRowMatches(CudaVersionRows006To022(8), FunctionRows031To061(42));
    assert CudaRowMatches(CudaVersionRows006To022(9), FunctionRows031To061(45));
    assert CudaRowMatches(CudaVersionRows006To022(10), FunctionRows031To061(46));
    assert CudaRowMatches(CudaVersionRows006To022(11), FunctionRows031To061(47));
    assert CudaRowMatches(CudaVersionRows006To022(12), FunctionRows031To061(48));
    assert CudaRowMatches(CudaVersionRows006To022(13), FunctionRows031To061(49));
  }

  lemma CudaVersionSlice014To021Matched()
    ensures forall j | 14 <= j < 22 :: MatchedByFunctionRows031To061(CudaVersionRows006To022(j))
  {
    assert CudaRowMatches(CudaVersionRows006To022(14), FunctionRows031To061(50));
    assert CudaRowMatches(CudaVersionRows006To022(15), FunctionRows031To061(51));
    assert CudaRowMatches(CudaVersionRows006To022(16), FunctionRows031To061(52));
    assert CudaRowMatches(CudaVersionRows006To022(17), FunctionRows031To061(53));
    assert CudaRowMatches(CudaVersionRows006To022(18), FunctionRows031To061(54));
    assert CudaRowMatches(CudaVersionRows006To022(19), FunctionRows031To061(55));
    assert CudaRowMatches(CudaVersionRows006To022(20), FunctionRows031To061(56));
    assert CudaRowMatches(CudaVersionRows006To022(21), FunctionRows031To061(57));
  }

  lemma CudaVersionSlice022To022Matched()
    ensures forall j | 22 <= j < 23 :: MatchedByFunctionRows031To061(CudaVersionRows006To022(j))
  {
    assert CudaRowMatches(CudaVersionRows006To022(22), FunctionRows031To061(60));
  }

  lemma FunctionRows031To061CudaMatched()
    ensures forall j | 6 <= j < 23 :: MatchedByFunctionRows031To061(CudaVersionRows006To022(j))
  {
    CudaVersionSlice006To013Matched();
    CudaVersionSlice014To021Matched();
    CudaVersionSlice022To022Matched();
  }

  /** The CUDA version row `e` matches one of the function rows 0 to 61. */
  ghost predicate MatchedByFunctionRows000To061(e: (string, CudaVersions))
  {
    exists i | 0 <= i < 62 :: CudaRowMatches(e, FunctionRows000To061(i))
  }

  lemma FunctionRows000To061CudaMatched()
    ensures forall j | 0 <= j < 23 :: MatchedByFunctionRows000To061(CudaVersionRows000To022(j))
  {
    forall j | 0 <= j < 23
      ensures MatchedByFunctionRows000To061(CudaVersionRows000To022(j))
    {
      if j < 6 {
        FunctionRows000To030CudaMatched();
        var i :| 0 <= i < 31 && CudaRowMatches(CudaVersionRows000To005(j), FunctionRows000To030(i));
        assert CudaRowMatches(CudaVersionRows000To022(j), FunctionRows000To061(i));
      } else {
        FunctionRows031To061CudaMatched();
        var i :| 31 <= i < 62 && CudaRowMatches(CudaVersionRows006To022(j), FunctionRows031To061(i));
        assert CudaRowMatches(CudaVersionRows000To022(j), FunctionRows000To061(i));
      }
    }
  }

  /** The CUDA version row `e` matches one of the function rows 62 to 92. */
  ghost predicate MatchedByFunctionRows062To092(e: (string, CudaVersions))
  {
    exists i | 62 <= i < 93 :: CudaRowMatches(e, FunctionRows062To092(i))
  }

  lemma CudaVersionSlice023To030Matched()
    ensures forall j | 23 <= j < 31 :: MatchedByFunctionRows062To092(CudaVersionRows023To042(j))
  {
    assert CudaRowMatches(CudaVersionRows023To042(23), FunctionRows062To092(66));
    assert CudaRowMatches(CudaVersionRows023To042(24), FunctionRows062To092(67));
    assert CudaRowMatches(CudaVersionRows023To042(25), FunctionRows062To092(68));
    assert CudaRowMatches(CudaVersionRows023To042(26), FunctionRows062To092(69));
    assert CudaRowMatches(CudaVersionRows023To042(27), FunctionRows062To092(70));
    assert CudaRowMatches(CudaVersionRows023To042(28), FunctionRows062To092(71));
    assert CudaRowMatches(CudaVersionRows023To042(29), FunctionRows062To092(72));
    assert CudaRowMatches(CudaVersionRows023To042(30), FunctionRows062To092(73));
  }

  lemma CudaVersionSlice031To038Matched()
    ensures forall j | 31 <= j < 39 :: MatchedByFunctionRows062To092(CudaVersionRows023To042(j))
  {
    assert CudaRowMatches(CudaVersionRows023To042(31), FunctionRows062To092(74));
    assert CudaRowMatches(CudaVersionRows023To042(32), FunctionRows062To092(75));
    assert CudaRowMatches(CudaVersionRows023To042(33), FunctionRows062To092(76));
    assert CudaRowMatches(CudaVersionRows023To042(34), FunctionRows062To092(77));
    assert CudaRowMatches(CudaVersionRows023To042(35), FunctionRows062To092(79));
    assert CudaRowMatches(CudaVersionRows023To042(36), FunctionRows062To092(84));
    assert CudaRowMatches(CudaVersionRows023To042(37), FunctionRows062To092(85));
    assert CudaRowMatches(CudaVersionRows023To042(38), FunctionRows062To092(86));
  }

  lemma CudaVersionSlice039To042Matched()
    ensures forall j | 39 <= j < 43 :: MatchedByFunctionRows062To092(CudaVersionRows023To042(j))
  {
    assert CudaRowMatches(CudaVersionRows023To042(39), FunctionRows062To092(87));
    assert CudaRowMatches(CudaVersionRows023To042(40), FunctionRows062To092(88));
    assert CudaRowMatches(CudaVersionRows023To042(41), FunctionRows062To092(90));
    assert CudaRowMatches(CudaVersionRows023To042(42), FunctionRows062To092(91));
  }

  lemma FunctionRows062To092CudaMatched()
    ensures forall j | 23 <= j < 43 :: MatchedByFunctionRows062To092(CudaVersionRows023To042(j))
  {
    CudaVersionSlice023To030Matched();
    CudaVersionSlice031To038Matched();
    CudaVersionSlice039To042Matched();
  }

  /** The CUDA version row `e` matches one of the function rows 93 to 123. */
  ghost predicate MatchedByFunctionRows093To123(e: (string, CudaVersions))
  {
    exists i | 93 <= i < 124 :: CudaRowMatches(e, FunctionRows093To123(i))
  }

  lemma CudaVersionSlice043To050Matched()
    ensures forall j | 43 <= j < 51 :: MatchedByFunctionRows093To123(CudaVersionRows043To062(j))
  {
    assert CudaRowMatches(CudaVersionRows043To062(43), FunctionRows093To123(93));
    assert CudaRowMatches(CudaVersionRows043To062(44), FunctionRows093To123(94));
    assert CudaRowMatches(CudaVersionRows043To062(45), FunctionRows093To123(95));
    assert CudaRowMatches(CudaVersionRows043To062(46), FunctionRows093To123(96));
    assert CudaRowMatches(CudaVersionRows043To062(47), FunctionRows093To123(97));
    assert CudaRowMatches(CudaVersionRows043To062(48), FunctionRows093To123(100));
    assert CudaRowMatches(CudaVersionRows043To062(49), FunctionRows093To123(102));
    assert CudaRowMatches(CudaVersionRows043To062(50), FunctionRows093To123(105));
  }

  lemma CudaVersionSlice051To058Matched()
    ensures forall j | 51 <= j < 59 :: MatchedByFunctionRows093To123(CudaVersionRows043To062(j))
  {
    assert CudaRowMatches(CudaVersionRows043To062(51), FunctionRows093To123(106));
    assert CudaRowMatches(CudaVersionRows043To062(52), FunctionRows093To123(107));
    assert CudaRowMatches(CudaVersionRows043To062(53), FunctionRows093To123(111));
    assert CudaRowMatches(CudaVersionRows043To062(54), FunctionRows093To123(112));
    assert CudaRowMatches(CudaVersionRows043To062(55), FunctionRows093To123(113));
    assert CudaRowMatches(CudaVersionRows043To062(56), FunctionRows093To123(114));
    assert CudaRowMatches(CudaVersionRows043To062(57), FunctionRows093To123(115));
    assert CudaRowMatches(CudaVersionRows043To062(58), FunctionRows093To123(116));
  }

  lemma CudaVersionSlice059To062Matched()
    ensures forall j | 59 <= j < 63 :: MatchedByFunctionRows093To123(CudaVersionRows043To062(j))
  {
    assert CudaRowMatches(CudaVersionRows043To062(59), FunctionRows093To123(117));
    assert CudaRowMatches(CudaVersionRows043To062(60), FunctionRows093To123(118));
    assert CudaRowMatches(CudaVersionRows043To062(61), FunctionRows093To123(119));
    assert CudaRowMatches(CudaVersionRows043To062(62), FunctionRows093To123(121));
  }

  lemma FunctionRows093To123CudaMatched()
    ensures forall j | 43 <= j < 63 :: MatchedByFunctionRows093To123(CudaVersionRows043To062(j))
  {
    CudaVersionSlice043To050Matched();
    CudaVersionSlice051To058Matched();
    CudaVersionSlice059To062Matched();
  }

  /** The CUDA version row `e` matches one of the function rows 62 to 123. */
  ghost predicate MatchedByFunctionRows062To123(e: (string, CudaVersions))
  {
    exists i | 62 <= i < 124 :: CudaRowMatches(e, FunctionRows062To123(i))
  }

  lemma FunctionRows062To123CudaMatched()
    ensures forall j | 23 <= j < 63 :: MatchedByFunctionRows062To123(CudaVersionRows023To062(j))
  {
    forall j | 23 <= j < 63
      ensures MatchedByFunctionRows062To123(CudaVersionRows023To062(j))
    {
      if j < 43 {
        FunctionRows062To092CudaMatched();
        var i :| 62 <= i < 93 && CudaRowMatches(CudaVersionRows023To042(j), FunctionRows062To092(i));
        assert CudaRowMatches(CudaVersionRows023To062(j), FunctionRows062To123(i));
      } else {
        FunctionRows093To123CudaMatched();
        var i :| 93 <= i < 124 && CudaRowMatches(CudaVersionRows043To062(j), FunctionRows093To123(i));
        assert CudaRowMatches(CudaVersionRows023To062(j), FunctionRows062To123(i));
      }
    }
  }

  /** The CUDA version row `e` matches one of the function rows 124 to 153. */
  ghost predicate MatchedByFunctionRows124To153(e: (string, CudaVersions))
  {
    exists i | 124 <= i < 154 :: CudaRowMatches(e, FunctionRows124To153(i))
  }

  lemma CudaVersionSlice063To070Matched()
    ensures forall j | 63 <= j < 71 :: MatchedByFunctionRows124To153(CudaVersionRows063To082(j))
  {
    assert CudaRowMatches(CudaVersionRows063To082(63), FunctionRows124To153(127));
    assert CudaRowMatches(CudaVersionRows063To082(64), FunctionRows124To153(129));
    assert CudaRowMatches(CudaVersionRows063To082(65), FunctionRows124To153(130));
    assert CudaRowMatches(CudaVersionRows063To082(66), FunctionRows124To153(131));
    assert CudaRowMatches(CudaVersionRows063To082(67), FunctionRows124To153(133));
    assert CudaRowMatches(CudaVersionRows063To082(68), FunctionRows124To153(134));
    assert CudaRowMatches(CudaVersionRows063To082(69), FunctionRows124To153(135));
    assert CudaRowMatches(CudaVersionRows063To082(70), FunctionRows124To153(138));
  }

  lemma CudaVersionSlice071To078Matched()
    ensures forall j | 71 <= j < 79 :: MatchedByFunctionRows124To153(CudaVersionRows063To082(j))
  {
    assert CudaRowMatches(CudaVersionRows063To082(71), FunctionRows124To153(139));
    assert CudaRowMatches(CudaVersionRows063To082(72), FunctionRows124To153(141));
    assert CudaRowMatches(CudaVersionRows063To082(73), FunctionRows124To153(142));
    assert CudaRowMatches(CudaVersionRows063To082(74), FunctionRows124To153(143));
    assert CudaRowMatches(CudaVersionRows063To082(75), FunctionRows124To153(144));
    assert CudaRowMatches(CudaVersionRows063To082(76), FunctionRows124To153(145));
    assert CudaRowMatches(CudaVersionRows063To082(77), FunctionRows124To153(146));
    assert CudaRowMatches(CudaVersionRows063To082(78), FunctionRows124To153(147));
  }

  lemma CudaVersionSlice079To082Matched()
    ensures forall j | 79 <= j < 83 :: MatchedByFunctionRows124To153(CudaVersionRows063To082(j))
  {
    assert CudaRowMatches(CudaVersionRows063To082(79), FunctionRows124To153(148));
    assert CudaRowMatches(CudaVersionRows063To082(80), FunctionRows124To153(151));
    assert CudaRowMatches(CudaVersionRows063To082(81), FunctionRows124To153(152));
    assert CudaRowMatches(CudaVersionRows063To082(82), FunctionRows124To153(153));
  }

  lemma FunctionRows124To153CudaMatched()
    ensures forall j | 63 <= j < 83 :: MatchedByFunctionRows124To153(CudaVersionRows063To082(j))
  {
    CudaVersionSlice063To070Matched();
    CudaVersionSlice071To078Matched();
    CudaVersionSlice079To082Matched();
  }

  /** The CUDA version row `e` matches one of the function rows 154 to 183. */
  ghost predicate MatchedByFunctionRows154To183(e: (string, CudaVersions))
  {
    exists i | 154 <= i < 184 :: CudaRowMatches(e, FunctionRows154To183(i))
  }

  lemma CudaVersionSlice083To090Matched()
    ensures forall j | 83 <= j < 91 :: MatchedByFunctionRows154To183(CudaVersionRows083To112(j))
  {
    assert CudaRowMatches(CudaVersionRows083To112(83), FunctionRows154To183(154));
    assert CudaRowMatches(CudaVersionRows083To112(84), FunctionRows154To183(155));
    assert CudaRowMatches(CudaVersionRows083To112(85), FunctionRows154To183(156));
    assert CudaRowMatches(CudaVersionRows083To112(86), FunctionRows154To183(157));
    assert CudaRowMatches(CudaVersionRows083To112(87), FunctionRows154To183(158));
    assert CudaRowMatches(CudaVersionRows083To112(88), FunctionRows154To183(159));
    assert CudaRowMatches(CudaVersionRows083To112(89), FunctionRows154To183(160));
    assert CudaRowMatches(CudaVersionRows083To112(90), FunctionRows154To183(161));
  }

  lemma CudaVersionSlice091To098Matched()
    ensures forall j | 91 <= j < 99 :: MatchedByFunctionRows154To183(CudaVersionRows083To112(j))
  {
    assert CudaRowMatches(CudaVersionRows083To112(91), FunctionRows154To183(162));
    assert CudaRowMatches(CudaVersionRows083To112(92), FunctionRows154To183(163));
    assert CudaRowMatches(CudaVersionRows083To112(93), FunctionRows154To183(164));
    assert CudaRowMatches(CudaVersionRows083To112(94), FunctionRows154To183(165));
    assert CudaRowMatches(CudaVersionRows083To112(95), FunctionRows154To183(166));
    assert CudaRowMatches(CudaVersionRows083To112(96), FunctionRows154To183(167));
    assert CudaRowMatches(CudaVersionRows083To112(97), FunctionRows154To183(168));
    assert CudaRowMatches(CudaVersionRows083To112(98), FunctionRows154To183(169));
  }

  lemma CudaVersionSlice099To106Matched()
    ensures forall j | 99 <= j < 107 :: MatchedByFunctionRows154To183(CudaVersionRows083To112(j))
  {
    assert CudaRowMatches(CudaVersionRows083To112(99), FunctionRows154To183(170));
    assert CudaRowMatches(CudaVersionRows083To112(100), FunctionRows154To183(171));
    assert CudaRowMatches(CudaVersionRows083To112(101), FunctionRows154To183(172));
    assert CudaRowMatches(CudaVersionRows083To112(102), FunctionRows154To183(173));
    assert CudaRowMatches(CudaVersionRows083To112(103), FunctionRows154To183(174));
    assert CudaRowMatches(CudaVersionRows083To112(104), FunctionRows154To183(175));
    assert CudaRowMatches(CudaVersionRows083To112(105), FunctionRows154To183(176));
    assert CudaRowMatches(CudaVersionRows083To112(106), FunctionRows154To183(177));
  }

  lemma CudaVersionSlice107To112Matched()
    ensures forall j | 107 <= j < 113 :: MatchedByFunctionRows154To183(CudaVersionRows083To112(j))
  {
    assert CudaRowMatches(CudaVersionRows083To112(107), FunctionRows154To183(178));
    assert CudaRowMatches(CudaVersionRows083To112(108), FunctionRows154To183(179));
    assert CudaRowMatches(CudaVersionRows083To112(109), FunctionRows154To183(180));
    assert CudaRowMatches(CudaVersionRows083To112(110), FunctionRows154To183(181));
    assert CudaRowMatches(CudaVersionRows083To112(111), FunctionRows154To183(182));
    assert CudaRowMatches(CudaVersionRows083To112(112), FunctionRows154To183(183));
  }

  lemma FunctionRows154To183CudaMatched()
    ensures forall j | 83 <= j < 113 :: MatchedByFunctionRows154To183(CudaVersionRows083To112(j))
  {
    CudaVersionSlice083To090Matched();
    CudaVersionSlice091To098Matched();
    CudaVersionSlice099To106Matched();
    CudaVersionSlice107To112Matched();
  }

  /** The CUDA version row `e` matches one of the function rows 124 to 183. */
  ghost predicate MatchedByFunctionRows124To183(e: (string, CudaVersions))
  {
    exists i | 124 <= i < 184 :: CudaRowMatches(e, FunctionRows124To183(i))
  }

  lemma FunctionRows124To183CudaMatched()
    ensures forall j | 63 <= j < 113 :: MatchedByFunctionRows124To183(CudaVersionRows063To112(j))
  {
    forall j | 63 <= j < 113
      ensures MatchedByFunctionRows124To183(CudaVersionRows063To112(j))
    {
      if j < 83 {
        FunctionRows124To153CudaMatched();
        var i :| 124 <= i < 154 && CudaRowMatches(CudaVersionRows063To082(j), FunctionRows124To153(i));
        assert CudaRowMatches(CudaVersionRows063To112(j), FunctionRows124To183(i));
      } else {
        FunctionRows154To183CudaMatched();
        var i :| 154 <= i < 184 && CudaRowMatches(CudaVersionRows083To112(j), FunctionRows154To183(i));
        assert CudaRowMatches(CudaVersionRows063To112(j), FunctionRows124To183(i));
      }
    }
  }

  /** The CUDA version row `e` matches one of the function rows 184 to 213. */
  ghost predicate MatchedByFunctionRows184To213(e: (string, CudaVersions))
  {
    exists i | 184 <= i < 214 :: CudaRowMatches(e, FunctionRows184To213(i))
  }

  lemma CudaVersionSlice113To120Matched()
    ensures forall j | 113 <= j < 121 :: MatchedByFunctionRows184To213(CudaVersionRows113To142(j))
  {
    assert CudaRowMatches(CudaVersionRows113To142(113), FunctionRows184To213(184));
    assert CudaRowMatches(CudaVersionRows113To142(114), FunctionRows184To213(185));
    assert CudaRowMatches(CudaVersionRows113To142(115), FunctionRows184To213(186));
    assert CudaRowMatches(CudaVersionRows113To142(116), FunctionRows184To213(187));
    assert CudaRowMatches(CudaVersionRows113To142(117), FunctionRows184To213(188));
    assert CudaRowMatches(CudaVersionRows113To142(118), FunctionRows184To213(189));
    assert CudaRowMatches(CudaVersionRows113To142(119), FunctionRows184To213(190));
    assert CudaRowMatches(CudaVersionRows113To142(120), FunctionRows184To213(191));
  }

  lemma CudaVersionSlice121To128Matched()
    ensures forall j | 121 <= j < 129 :: MatchedByFunctionRows184To213(CudaVersionRows113To142(j))
  {
    assert CudaRowMatches(CudaVersionRows113To142(121), FunctionRows184To213(192));
    assert CudaRowMatches(CudaVersionRows113To142(122), FunctionRows184To213(193));
    assert CudaRowMatches(CudaVersionRows113To142(123), FunctionRows184To213(194));
    assert CudaRowMatches(CudaVersionRows113To142(124), FunctionRows184To213(195));
    assert CudaRowMatches(CudaVersionRows113To142(125), FunctionRows184To213(196));
    assert CudaRowMatches(CudaVersionRows113To142(126), FunctionRows184To213(197));
    assert CudaRowMatches(CudaVersionRows113To142(127), FunctionRows184To213(198));
    assert CudaRowMatches(CudaVersionRows113To142(128), FunctionRows184To213(199));
  }

  lemma CudaVersionSlice129To136Matched()
    ensures forall j | 129 <= j < 137 :: MatchedByFunctionRows184To213(CudaVersionRows113To142(j))
  {
    assert CudaRowMatches(CudaVersionRows113To142(129), FunctionRows184To213(200));
    assert CudaRowMatches(CudaVersionRows113To142(130), FunctionRows184To213(201));
    assert CudaRowMatches(CudaVersionRows113To142(131), FunctionRows184To213(202));
    assert CudaRowMatches(CudaVersionRows113To142(132), FunctionRows184To213(203));
    assert CudaRowMatches(CudaVersionRows113To142(133), FunctionRows184To213(204));
    assert CudaRowMatches(CudaVersionRows113To142(134), FunctionRows184To213(205));
    assert CudaRowMatches(CudaVersionRows113To142(135), FunctionRows184To213(206));
    assert CudaRowMatches(CudaVersionRows113To142(136), FunctionRows184To213(207));
  }

  lemma CudaVersionSlice137To142Matched()
    ensures forall j | 137 <= j < 143 :: MatchedByFunctionRows184To213(CudaVersionRows113To142(j))
  {
    assert CudaRowMatches(CudaVersionRows113To142(137), FunctionRows184To213(208));
    assert CudaRowMatches(CudaVersionRows113To142(138), FunctionRows184To213(209));
    assert CudaRowMatches(CudaVersionRows113To142(139), FunctionRows184To213(210));
    assert CudaRowMatches(CudaVersionRows113To142(140), FunctionRows184To213(211));
    assert CudaRowMatches(CudaVersionRows113To142(141), FunctionRows184To213(212));
    assert CudaRowMatches(CudaVersionRows113To142(142), FunctionRows184To213(213));
  }

  lemma FunctionRows184To213CudaMatched()
    ensures forall j | 113 <= j < 143 :: MatchedByFunctionRows184To213(CudaVersionRows113To142(j))
  {
    CudaVersionSlice113To120Matched();
    CudaVersionSlice121To128Matched();
    CudaVersionSlice129To136Matched();
    CudaVersionSlice137To142Matched();
  }

  /** The CUDA version row `e` matches one of the function rows 214 to 243. */
  ghost predicate MatchedByFunctionRows214To243(e: (string, CudaVersions))
  {
    exists i | 214 <= i < 244 :: CudaRowMatches(e, FunctionRows214To243(i))
  }

  lemma CudaVersionSlice143To150Matched()
    ensures forall j | 143 <= j < 151 :: MatchedByFunctionRows214To243(CudaVersionRows143To156(j))
  {
    assert CudaRowMatches(CudaVersionRows143To156(143), FunctionRows214To243(214));
    assert CudaRowMatches(CudaVersionRows143To156(144), FunctionRows214To243(215));
    assert CudaRowMatches(CudaVersionRows143To156(145), FunctionRows214To243(216));
    assert CudaRowMatches(CudaVersionRows143To156(146), FunctionRows214To243(217));
    assert CudaRowMatches(CudaVersionRows143To156(147), FunctionRows214To243(218));
    assert CudaRowMatches(CudaVersionRows143To156(148), FunctionRows214To243(219));
    assert CudaRowMatches(CudaVersionRows143To156(149), FunctionRows214To243(220));
    assert CudaRowMatches(CudaVersionRows143To156(150), FunctionRows214To243(221));
  }

  lemma CudaVersionSlice151To156Matched()
    ensures forall j | 151 <= j < 157 :: MatchedByFunctionRows214To243(CudaVersionRows143To156(j))
  {
    assert CudaRowMatches(CudaVersionRows143To156(151), FunctionRows214To243(222));
    assert CudaRowMatches(CudaVersionRows143To156(152), FunctionRows214To243(223));
    assert CudaRowMatches(CudaVersionRows143To156(153), FunctionRows214To243(224));
    assert CudaRowMatches(CudaVersionRows143To156(154), FunctionRows214To243(225));
    assert CudaRowMatches(CudaVersionRows143To156(155), FunctionRows214To243(229));
    assert CudaRowMatches(CudaVersionRows143To156(156), FunctionRows214To243(233));
  }

  lemma FunctionRows214To243CudaMatched()
    ensures forall j | 143 <= j < 157 :: MatchedByFunctionRows214To243(CudaVersionRows143To156(j))
  {
    CudaVersionSlice143To150Matched();
    CudaVersionSlice151To156Matched();
  }

  /** The CUDA version row `e` matches one of the function rows 184 to 243. */
  ghost predicate MatchedByFunctionRows184To243(e: (string, CudaVersions))
  {
    exists i | 184 <= i < 244 :: CudaRowMatches(e, FunctionRows184To243(i))
  }

  lemma FunctionRows184To243CudaMatched()
    ensures forall j | 113 <= j < 157 :: MatchedByFunctionRows184To243(CudaVersionRows113To156(j))
  {
    forall j | 113 <= j < 157
      ensures MatchedByFunctionRows184To243(CudaVersionRows113To156(j))
    {
      if j < 143 {
        FunctionRows184To213CudaMatched();
        var i :| 184 <= i < 214 && CudaRowMatches(CudaVersionRows113To142(j), FunctionRows184To213(i));
        assert CudaRowMatches(CudaVersionRows113To156(j), FunctionRows184To243(i));
      } else {
        FunctionRows214To243CudaMatched();
        var i :| 214 <= i < 244 && CudaRowMatches(CudaVersionRows143To156(j), FunctionRows214To243(i));
        assert CudaRowMatches(CudaVersionRows113To156(j), FunctionRows184To243(i));
      }
    }
  }

  /** The CUDA version row `e` matches one of the function rows 244 to 273. */
  ghost predicate MatchedByFunctionRows244To273(e: (string, CudaVersions))
  {
    exists i | 244 <= i < 274 :: CudaRowMatches(e, FunctionRows244To273(i))
  }

  lemma CudaVersionSlice157To164Matched()
    ensures forall j | 157 <= j < 165 :: MatchedByFunctionRows244To273(CudaVersionRows157To177(j))
  {
    assert CudaRowMatches(CudaVersionRows157To177(157), FunctionRows244To273(244));
    assert CudaRowMatches(CudaVersionRows157To177(158), FunctionRows244To273(245));
    assert CudaRowMatches(CudaVersionRows157To177(159), FunctionRows244To273(252));
    assert CudaRowMatches(CudaVersionRows157To177(160), FunctionRows244To273(253));
    assert CudaRowMatches(CudaVersionRows157To177(161), FunctionRows244To273(254));
    assert CudaRowMatches(CudaVersionRows157To177(162), FunctionRows244To273(255));
    assert CudaRowMatches(CudaVersionRows157To177(163), FunctionRows244To273(256));
    assert CudaRowMatches(CudaVersionRows157To177(164), FunctionRows244To273(257));
  }

  lemma CudaVersionSlice165To172Matched()
    ensures forall j | 165 <= j < 173 :: MatchedByFunctionRows244To273(CudaVersionRows157To177(j))
  {
    assert CudaRowMatches(CudaVersionRows157To177(165), FunctionRows244To273(258));
    assert CudaRowMatches(CudaVersionRows157To177(166), FunctionRows244To273(259));
    assert CudaRowMatches(CudaVersionRows157To177(167), FunctionRows244To273(260));
    assert CudaRowMatches(CudaVersionRows157To177(168), FunctionRows244To273(261));
    assert CudaRowMatches(CudaVersionRows157To177(169), FunctionRows244To273(263));
    assert CudaRowMatches(CudaVersionRows157To177(170), FunctionRows244To273(264));
    assert CudaRowMatches(CudaVersionRows157To177(171), FunctionRows244To273(265));
    assert CudaRowMatches(CudaVersionRows157To177(172), FunctionRows244To273(266));
  }

  lemma CudaVersionSlice173To177Matched()
    ensures forall j | 173 <= j < 178 :: MatchedByFunctionRows244To273(CudaVersionRows157To177(j))
  {
    assert CudaRowMatches(CudaVersionRows157To177(173), FunctionRows244To273(267));
    assert CudaRowMatches(CudaVersionRows157To177(174), FunctionRows244To273(268));
    assert CudaRowMatches(CudaVersionRows157To177(175), FunctionRows244To273(269));
    assert CudaRowMatches(CudaVersionRows157To177(176), FunctionRows244To273(270));
    assert CudaRowMatches(CudaVersionRows157To177(177), FunctionRows244To273(271));
  }

  lemma FunctionRows244To273CudaMatched()
    ensures forall j | 157 <= j < 178 :: MatchedByFunctionRows244To273(CudaVersionRows157To177(j))
  {
    CudaVersionSlice157To164Matched();
    CudaVersionSlice165To172Matched();
    CudaVersionSlice173To177Matched();
  }

  /** The CUDA version row `e` matches one of the function rows 274 to 303. */
  ghost predicate MatchedByFunctionRows274To303(e: (string, CudaVersions))
  {
    exists i | 274 <= i < 304 :: CudaRowMatches(e, FunctionRows274To303(i))
  }

  lemma CudaVersionSlice178To185Matched()
    ensures forall j | 178 <= j < 186 :: MatchedByFunctionRows274To303(CudaVersionRows178To189(j))
  {
    assert CudaRowMatches(CudaVersionRows178To189(178), FunctionRows274To303(280));
    assert CudaRowMatches(CudaVersionRows178To189(179), FunctionRows274To303(281));
    assert CudaRowMatches(CudaVersionRows178To189(180), FunctionRows274To303(282));
    assert CudaRowMatches(CudaVersionRows178To189(181), FunctionRows274To303(284));
    assert CudaRowMatches(CudaVersionRows178To189(182), FunctionRows274To303(285));
    assert CudaRowMatches(CudaVersionRows178To189(183), FunctionRows274To303(292));
    assert CudaRowMatches(CudaVersionRows178To189(184), FunctionRows274To303(293));
    assert CudaRowMatches(CudaVersionRows178To189(185), FunctionRows274To303(295));
  }

  lemma CudaVersionSlice186To189Matched()
    ensures forall j | 186 <= j < 190 :: MatchedByFunctionRows274To303(CudaVersionRows178To189(j))
  {
    assert CudaRowMatches(CudaVersionRows178To189(186), FunctionRows274To303(298));
    assert CudaRowMatches(CudaVersionRows178To189(187), FunctionRows274To303(301));
    assert CudaRowMatches(CudaVersionRows178To189(188), FunctionRows274To303(302));
    assert CudaRowMatches(CudaVersionRows178To189(189), FunctionRows274To303(303));
  }

  lemma FunctionRows274To303CudaMatched()
    ensures forall j | 178 <= j < 190 :: MatchedByFunctionRows274To303(CudaVersionRows178To189(j))
  {
    CudaVersionSlice178To185Matched();
    CudaVersionSlice186To189Matched();
  }

  /** The CUDA version row `e` matches one of the function rows 244 to 303. */
  ghost predicate MatchedByFunctionRows244To303(e: (string, CudaVersions))
  {
    exists i | 244 <= i < 304 :: CudaRowMatches(e, FunctionRows244To303(i))
  }

  lemma FunctionRows244To303CudaMatched()
    ensures forall j | 157 <= j < 190 :: MatchedByFunctionRows244To303(CudaVersionRows157To189(j))
  {
    forall j | 157 <= j < 190
      ensures MatchedByFunctionRows244To303(CudaVersionRows157To189(j))
    {
      if j < 178 {
        FunctionRows244To273CudaMatched();
        var i :| 244 <= i < 274 && CudaRowMatches(CudaVersionRows157To177(j), FunctionRows244To273(i));
        assert CudaRowMatches(CudaVersionRows157To189(j), FunctionRows244To303(i));
      } else {
        FunctionRows274To303CudaMatched();
        var i :| 274 <= i < 304 && CudaRowMatches(CudaVersionRows178To189(j), FunctionRows274To303(i));
        assert CudaRowMatches(CudaVersionRows157To189(j), FunctionRows244To303(i));
      }
    }
  }

  /** The CUDA version row `e` matches one of the function rows 304 to 333. */
  ghost predicate MatchedByFunctionRows304To333(e: (string, CudaVersions))
  {
    exists i | 304 <= i < 334 :: CudaRowMatches(e, FunctionRows304To333(i))
  }

  lemma CudaVersionSlice190To197Matched()
    ensures forall j | 190 <= j < 198 :: MatchedByFunctionRows304To333(CudaVersionRows190To210(j))
  {
    assert CudaRowMatches(CudaVersionRows190To210(190), FunctionRows304To333(313));
    assert CudaRowMatches(CudaVersionRows190To210(191), FunctionRows304To333(314));
    assert CudaRowMatches(CudaVersionRows190To210(192), FunctionRows304To333(315));
    assert CudaRowMatches(CudaVersionRows190To210(193), FunctionRows304To333(316));
    assert CudaRowMatches(CudaVersionRows190To210(194), FunctionRows304To333(317));
    assert CudaRowMatches(CudaVersionRows190To210(195), FunctionRows304To333(318));
    assert CudaRowMatches(CudaVersionRows190To210(196), FunctionRows304To333(319));
    assert CudaRowMatches(CudaVersionRows190To210(197), FunctionRows304To333(320));
  }

  lemma CudaVersionSlice198To205Matched()
    ensures forall j | 198 <= j < 206 :: MatchedByFunctionRows304To333(CudaVersionRows190To210(j))
  {
    assert CudaRowMatches(CudaVersionRows190To210(198), FunctionRows304To333(321));
    assert CudaRowMatches(CudaVersionRows190To210(199), FunctionRows304To333(322));
    assert CudaRowMatches(CudaVersionRows190To210(200), FunctionRows304To333(323));
    assert CudaRowMatches(CudaVersionRows190To210(201), FunctionRows304To333(324));
    assert CudaRowMatches(CudaVersionRows190To210(202), FunctionRows304To333(325));
    assert CudaRowMatches(CudaVersionRows190To210(203), FunctionRows304To333(326));
    assert CudaRowMatches(CudaVersionRows190To210(204), FunctionRows304To333(327));
    assert CudaRowMatches(CudaVersionRows190To210(205), FunctionRows304To333(328));
  }

  lemma CudaVersionSlice206To210Matched()
    ensures forall j | 206 <= j < 211 :: MatchedByFunctionRows304To333(CudaVersionRows190To210(j))
  {
    assert CudaRowMatches(CudaVersionRows190To210(206), FunctionRows304To333(329));
    assert CudaRowMatches(CudaVersionRows190To210(207), FunctionRows304To333(330));
    assert CudaRowMatches(CudaVersionRows190To210(208), FunctionRows304To333(331));
    assert CudaRowMatches(CudaVersionRows190To210(209), FunctionRows304To333(332));
    assert CudaRowMatches(CudaVersionRows190To210(210), FunctionRows304To333(333));
  }

  lemma FunctionRows304To333CudaMatched()
    ensures forall j | 190 <= j < 211 :: MatchedByFunctionRows304To333(CudaVersionRows190To210(j))
  {
    CudaVersionSlice190To197Matched();
    CudaVersionSlice198To205Matched();
    CudaVersionSlice206To210Matched();
  }

  /** The CUDA version row `e` matches one of the function rows 304 to 363. */
  ghost predicate MatchedByFunctionRows304To363(e: (string, CudaVersions))
  {
    exists i | 304 <= i < 364 :: CudaRowMatches(e, FunctionRows304To363(i))
  }

  lemma FunctionRows304To363CudaMatched()
    ensures forall j | 190 <= j < 211 :: MatchedByFunctionRows304To363(CudaVersionRows190To210(j))
  {
    forall j | 190 <= j < 211
      ensures MatchedByFunctionRows304To363(CudaVersionRows190To210(j))
    {
      {
        FunctionRows304To333CudaMatched();
        var i :| 304 <= i < 334 && CudaRowMatches(CudaVersionRows190To210(j), FunctionRows304To333(i));
        assert CudaRowMatches(CudaVersionRows190To210(j), FunctionRows304To363(i));
      }
    }
  }

  /** The CUDA version row `e` matches one of the function rows 394 to 423. */
  ghost predicate MatchedByFunctionRows394To423(e: (string, CudaVersions))
  {
    exists i | 394 <= i < 424 :: CudaRowMatches(e, FunctionRows394To423(i))
  }

  lemma CudaVersionSlice211To218Matched()
    ensures forall j | 211 <= j < 219 :: MatchedByFunctionRows394To423(CudaVersionRows211To222(j))
  {
    assert CudaRowMatches(CudaVersionRows211To222(211), FunctionRows394To423(397));
    assert CudaRowMatches(CudaVersionRows211To222(212), FunctionRows394To423(401));
    assert CudaRowMatches(CudaVersionRows211To222(213), FunctionRows394To423(402));
    assert CudaRowMatches(CudaVersionRows211To222(214), FunctionRows394To423(403));
    assert CudaRowMatches(CudaVersionRows211To222(215), FunctionRows394To423(409));
    assert CudaRowMatches(CudaVersionRows211To222(216), FunctionRows394To423(412));
    assert CudaRowMatches(CudaVersionRows211To222(217), FunctionRows394To423(415));
    assert CudaRowMatches(CudaVersionRows211To222(218), FunctionRows394To423(416));
  }

  lemma CudaVersionSlice219To222Matched()
    ensures forall j | 219 <= j < 223 :: MatchedByFunctionRows394To423(CudaVersionRows211To222(j))
  {
    assert CudaRowMatches(CudaVersionRows211To222(219), FunctionRows394To423(417));
    assert CudaRowMatches(CudaVersionRows211To222(220), FunctionRows394To423(418));
    assert CudaRowMatches(CudaVersionRows211To222(221), FunctionRows394To423(419));
    assert CudaRowMatches(CudaVersionRows211To222(222), FunctionRows394To423(420));
  }

  lemma FunctionRows394To423CudaMatched()
    ensures forall j | 211 <= j < 223 :: MatchedByFunctionRows394To423(CudaVersionRows211To222(j))
  {
    CudaVersionSlice211To218Matched();
    CudaVersionSlice219To222Matched();
  }

  /** The CUDA version row `e` matches one of the function rows 364 to 423. */
  ghost predicate MatchedByFunctionRows364To423(e: (string, CudaVersions))
  {
    exists i | 364 <= i < 424 :: CudaRowMatches(e, FunctionRows364To423(i))
  }

  lemma FunctionRows364To423CudaMatched()
    ensures forall j | 211 <= j < 223 :: MatchedByFunctionRows364To423(CudaVersionRows211To222(j))
  {
    forall j | 211 <= j < 223
      ensures MatchedByFunctionRows364To423(CudaVersionRows211To222(j))
    {
      {
        FunctionRows394To423CudaMatched();
        var i :| 394 <= i < 424 && CudaRowMatches(CudaVersionRows211To222(j), FunctionRows394To423(i));
        assert CudaRowMatches(CudaVersionRows211To222(j), FunctionRows364To423(i));
      }
    }
  }

  /** The CUDA version row `e` matches one of the function rows 424 to 453. */
  ghost predicate MatchedByFunctionRows424To453(e: (string, CudaVersions))
  {
    exists i | 424 <= i < 454 :: CudaRowMatches(e, FunctionRows424To453(i))
  }

  lemma CudaVersionSlice223To230Matched()
    ensures forall j | 223 <= j < 231 :: MatchedByFunctionRows424To453(CudaVersionRows223To239(j))
  {
    assert CudaRowMatches(CudaVersionRows223To239(223), FunctionRows424To453(424));
    assert CudaRowMatches(CudaVersionRows223To239(224), FunctionRows424To453(427));
    assert CudaRowMatches(CudaVersionRows223To239(225), FunctionRows424To453(430));
    assert CudaRowMatches(CudaVersionRows223To239(226), FunctionRows424To453(431));
    assert CudaRowMatches(CudaVersionRows223To239(227), FunctionRows424To453(432));
    assert CudaRowMatches(CudaVersionRows223To239(228), FunctionRows424To453(433));
    assert CudaRowMatches(CudaVersionRows223To239(229), FunctionRows424To453(434));
    assert CudaRowMatches(CudaVersionRows223To239(230), FunctionRows424To453(435));
  }

  lemma CudaVersionSlice231To238Matched()
    ensures forall j | 231 <= j < 239 :: MatchedByFunctionRows424To453(CudaVersionRows223To239(j))
  {
    assert CudaRowMatches(CudaVersionRows223To239(231), FunctionRows424To453(440));
    assert CudaRowMatches(CudaVersionRows223To239(232), FunctionRows424To453(441));
    assert CudaRowMatches(CudaVersionRows223To239(233), FunctionRows424To453(442));
    assert CudaRowMatches(CudaVersionRows223To239(234), FunctionRows424To453(443));
    assert CudaRowMatches(CudaVersionRows223To239(235), FunctionRows424To453(444));
    assert CudaRowMatches(CudaVersionRows223To239(236), FunctionRows424To453(446));
    assert CudaRowMatches(CudaVersionRows223To239(237), FunctionRows424To453(448));
    assert CudaRowMatches(CudaVersionRows223To239(238), FunctionRows424To453(450));
  }

  lemma CudaVersionSlice239To239Matched()
    ensures forall j | 239 <= j < 240 :: MatchedByFunctionRows424To453(CudaVersionRows223To239(j))
  {
    assert CudaRowMatches(CudaVersionRows223To239(239), FunctionRows424To453(452));
  }

  lemma FunctionRows424To453CudaMatched()
    ensures forall j | 223 <= j < 240 :: MatchedByFunctionRows424To453(CudaVersionRows223To239(j))
  {
    CudaVersionSlice223To230Matched();
    CudaVersionSlice231To238Matched();
    CudaVersionSlice239To239Matched();
  }

  /** The CUDA version row `e` matches one of the function rows 454 to 483. */
  ghost predicate MatchedByFunctionRows454To483(e: (string, CudaVersions))
  {
    exists i | 454 <= i < 484 :: CudaRowMatches(e, FunctionRows454To483(i))
  }

  lemma CudaVersionSlice240To247Matched()
    ensures forall j | 240 <= j < 248 :: MatchedByFunctionRows454To483(CudaVersionRows240To261(j))
  {
    assert CudaRowMatches(CudaVersionRows240To261(240), FunctionRows454To483(454));
    assert CudaRowMatches(CudaVersionRows240To261(241), FunctionRows454To483(455));
    assert CudaRowMatches(CudaVersionRows240To261(242), FunctionRows454To483(456));
    assert CudaRowMatches(CudaVersionRows240To261(243), FunctionRows454To483(457));
    assert CudaRowMatches(CudaVersionRows240To261(244), FunctionRows454To483(458));
    assert CudaRowMatches(CudaVersionRows240To261(245), FunctionRows454To483(459));
    assert CudaRowMatches(CudaVersionRows240To261(246), FunctionRows454To483(460));
    assert CudaRowMatches(CudaVersionRows240To261(247), FunctionRows454To483(461));
  }

  lemma CudaVersionSlice248To255Matched()
    ensures forall j | 248 <= j < 256 :: MatchedByFunctionRows454To483(CudaVersionRows240To261(j))
  {
    assert CudaRowMatches(CudaVersionRows240To261(248), FunctionRows454To483(465));
    assert CudaRowMatches(CudaVersionRows240To261(249), FunctionRows454To483(466));
    assert CudaRowMatches(CudaVersionRows240To261(250), FunctionRows454To483(467));
    assert CudaRowMatches(CudaVersionRows240To261(251), FunctionRows454To483(468));
    assert CudaRowMatches(CudaVersionRows240To261(252), FunctionRows454To483(469));
    assert CudaRowMatches(CudaVersionRows240To261(253), FunctionRows454To483(475));
    assert CudaRowMatches(CudaVersionRows240To261(254), FunctionRows454To483(476));
    assert CudaRowMatches(CudaVersionRows240To261(255), FunctionRows454To483(477));
  }

  lemma CudaVersionSlice256To261Matched()
    ensures forall j | 256 <= j < 262 :: MatchedByFunctionRows454To483(CudaVersionRows240To261(j))
  {
    assert CudaRowMatches(CudaVersionRows240To261(256), FunctionRows454To483(478));
    assert CudaRowMatches(CudaVersionRows240To261(257), FunctionRows454To483(479));
    assert CudaRowMatches(CudaVersionRows240To261(258), FunctionRows454To483(480));
    assert CudaRowMatches(CudaVersionRows240To261(259), FunctionRows454To483(481));
    assert CudaRowMatches(CudaVersionRows240To261(260), FunctionRows454To483(482));
    assert CudaRowMatches(CudaVersionRows240To261(261), FunctionRows454To483(483));
  }

  lemma FunctionRows454To483CudaMatched()
    ensures forall j | 240 <= j < 262 :: MatchedByFunctionRows454To483(CudaVersionRows240To261(j))
  {
    CudaVersionSlice240To247Matched();
    CudaVersionSlice248To255Matched();
    CudaVersionSlice256To261Matched();
  }

  /** The CUDA version row `e` matches one of the function rows 484 to 513. */
  ghost predicate MatchedByFunctionRows484To513(e: (string, CudaVersions))
  {
    exists i | 484 <= i < 514 :: CudaRowMatches(e, FunctionRows484To513(i))
  }

  lemma CudaVersionSlice262To269Matched()
    ensures forall j | 262 <= j < 270 :: MatchedByFunctionRows484To513(CudaVersionRows262To286(j))
  {
    assert CudaRowMatches(CudaVersionRows262To286(262), FunctionRows484To513(484));
    assert CudaRowMatches(CudaVersionRows262To286(263), FunctionRows484To513(485));
    assert CudaRowMatches(CudaVersionRows262To286(264), FunctionRows484To513(486));
    assert CudaRowMatches(CudaVersionRows262To286(265), FunctionRows484To513(487));
    assert CudaRowMatches(CudaVersionRows262To286(266), FunctionRows484To513(488));
    assert CudaRowMatches(CudaVersionRows262To286(267), FunctionRows484To513(489));
    assert CudaRowMatches(CudaVersionRows262To286(268), FunctionRows484To513(490));
    assert CudaRowMatches(CudaVersionRows262To286(269), FunctionRows484To513(491));
  }

  lemma CudaVersionSlice270To277Matched()
    ensures forall j | 270 <= j < 278 :: MatchedByFunctionRows484To513(CudaVersionRows262To286(j))
  {
    assert CudaRowMatches(CudaVersionRows262To286(270), FunctionRows484To513(494));
    assert CudaRowMatches(CudaVersionRows262To286(271), FunctionRows484To513(495));
    assert CudaRowMatches(CudaVersionRows262To286(272), FunctionRows484To513(496));
    assert CudaRowMatches(CudaVersionRows262To286(273), FunctionRows484To513(497));
    assert CudaRowMatches(CudaVersionRows262To286(274), FunctionRows484To513(498));
    assert CudaRowMatches(CudaVersionRows262To286(275), FunctionRows484To513(499));
    assert CudaRowMatches(CudaVersionRows262To286(276), FunctionRows484To513(500));
    assert CudaRowMatches(CudaVersionRows262To286(277), FunctionRows484To513(501));
  }

  lemma CudaVersionSlice278To285Matched()
    ensures forall j | 278 <= j < 286 :: MatchedByFunctionRows484To513(CudaVersionRows262To286(j))
  {
    assert CudaRowMatches(CudaVersionRows262To286(278), FunctionRows484To513(502));
    assert CudaRowMatches(CudaVersionRows262To286(279), FunctionRows484To513(503));
    assert CudaRowMatches(CudaVersionRows262To286(280), FunctionRows484To513(504));
    assert CudaRowMatches(CudaVersionRows262To286(281), FunctionRows484To513(505));
    assert CudaRowMatches(CudaVersionRows262To286(282), FunctionRows484To513(506));
    assert CudaRowMatches(CudaVersionRows262To286(283), FunctionRows484To513(507));
    assert CudaRowMatches(CudaVersionRows262To286(284), FunctionRows484To513(508));
    assert CudaRowMatches(CudaVersionRows262To286(285), FunctionRows484To513(509));
  }

  lemma CudaVersionSlice286To286Matched()
    ensures forall j | 286 <= j < 287 :: MatchedByFunctionRows484To513(CudaVersionRows262To286(j))
  {
    assert CudaRowMatches(CudaVersionRows262To286(286), FunctionRows484To513(513));
  }

  lemma FunctionRows484To513CudaMatched()
    ensures forall j | 262 <= j < 287 :: MatchedByFunctionRows484To513(CudaVersionRows262To286(j))
  {
    CudaVersionSlice262To269Matched();
    CudaVersionSlice270To277Matched();
    CudaVersionSlice278To285Matched();
    CudaVersionSlice286To286Matched();
  }

  /** The CUDA version row `e` matches one of the function rows 424 to 513. */
  ghost predicate MatchedByFunctionRows424To513(e: (string, CudaVersions))
  {
    exists i | 424 <= i < 514 :: CudaRowMatches(e, FunctionRows424To513(i))
  }

  lemma FunctionRows424To513CudaMatched()
    ensures forall j | 223 <= j < 287 :: MatchedByFunctionRows424To513(CudaVersionRows223To286(j))
  {
    forall j | 223 <= j < 287
      ensures MatchedByFunctionRows424To513(CudaVersionRows223To286(j))
    {
      if j < 240 {
        FunctionRows424To453CudaMatched();
        var i :| 424 <= i < 454 && CudaRowMatches(CudaVersionRows223To239(j), FunctionRows424To453(i));
        assert CudaRowMatches(CudaVersionRows223To286(j), FunctionRows424To513(i));
      } else if j < 262 {
        FunctionRows454To483CudaMatched();
        var i :| 454 <= i < 484 && CudaRowMatches(CudaVersionRows240To261(j), FunctionRows454To483(i));
        assert CudaRowMatches(CudaVersionRows223To286(j), FunctionRows424To513(i));
      } else {
        FunctionRows484To513CudaMatched();
        var i :| 484 <= i < 514 && CudaRowMatches(CudaVersionRows262To286(j), FunctionRows484To513(i));
        assert CudaRowMatches(CudaVersionRows223To286(j), FunctionRows424To513(i));
      }
    }
  }

  /** The CUDA version row `e` matches one of the function rows 0 to 513. */
  ghost predicate MatchedByFunctionRow(e: (string, CudaVersions))
  {
    exists i | 0 <= i < 514 :: CudaRowMatches(e, FunctionRow(i))
  }

  lemma FunctionRowCudaMatched()
    ensures forall j | 0 <= j < 287 :: MatchedByFunctionRow(CudaVersionRow(j))
  {
    forall j | 0 <= j < 287
      ensures MatchedByFunctionRow(CudaVersionRow(j))
    {
      if j < 23 {
        FunctionRows000To061CudaMatched();
        var i :| 0 <= i < 62 && CudaRowMatches(CudaVersionRows000To022(j), FunctionRows000To061(i));
        assert CudaRowMatches(CudaVersionRow(j), FunctionRow(i));
      } else if j < 63 {
        FunctionRows062To123CudaMatched();
        var i :| 62 <= i < 124 && CudaRowMatches(CudaVersionRows023To062(j), FunctionRows062To123(i));
        assert CudaRowMatches(CudaVersionRow(j), FunctionRow(i));
      } else if j < 113 {
        FunctionRows124To183CudaMatched();
        var i :| 124 <= i < 184 && CudaRowMatches(CudaVersionRows063To112(j), FunctionRows124To183(i));
        assert CudaRowMatches(CudaVersionRow(j), FunctionRow(i));
      } else if j < 157 {
        FunctionRows184To243CudaMatched();
        var i :| 184 <= i < 244 && CudaRowMatches(CudaVersionRows113To156(j), FunctionRows184To243(i));
        assert CudaRowMatches(CudaVersionRow(j), FunctionRow(i));
      } else if j < 190 {
        FunctionRows244To303CudaMatched();
        var i :| 244 <= i < 304 && CudaRowMatches(CudaVersionRows157To189(j), FunctionRows244To303(i));
        assert CudaRowMatches(CudaVersionRow(j), FunctionRow(i));
      } else if j < 211 {
        FunctionRows304To363CudaMatched();
        var i :| 304 <= i < 364 && CudaRowMatches(CudaVersionRows190To210(j), FunctionRows304To363(i));
        assert CudaRowMatches(CudaVersionRow(j), FunctionRow(i));
      } else if j < 223 {
        FunctionRows364To423CudaMatched();
        var i :| 364 <= i < 424 && CudaRowMatches(CudaVersionRows211To222(j), FunctionRows364To423(i));
        assert CudaRowMatches(CudaVersionRow(j), FunctionRow(i));
      } else {
        FunctionRows424To513CudaMatched();
        var i :| 424 <= i < 514 && CudaRowMatches(CudaVersionRows223To286(j), FunctionRows424To513(i));
        assert CudaRowMatches(CudaVersionRow(j), FunctionRow(i));
      }
    }
  }
}
