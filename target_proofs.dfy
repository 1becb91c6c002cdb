/** Every HIP version row is about a function some CUDA function translates to. */
module TargetProofs {
  import opened FunctionTable
  import opened HipVersionTable

  /** Some function row translates to the HIP function `name`. */
  ghost predicate IsFunctionTarget(name: string)
  {
    exists i | 0 <= i < 514 :: FunctionRow(i).1.hipName == name
  }

  lemma HipVersionSlice000To007Targeted()
    ensures forall j | 0 <= j < 8 :: IsFunctionTarget(HipVersionRows000To026(j).0)
  {
    assert FunctionRow(0).1.hipName == HipVersionRows000To026(0).0;
    assert FunctionRow(4).1.hipName == HipVersionRows000To026(1).0;
    assert FunctionRow(6).1.hipName == HipVersionRows000To026(2).0;
    assert FunctionRow(13).1.hipName == HipVersionRows000To026(3).0;
    assert FunctionRow(16).1.hipName == HipVersionRows000To026(4).0;
    assert FunctionRow(19).1.hipName == HipVersionRows000To026(5).0;
    assert FunctionRow(20).1.hipName == HipVersionRows000To026(6).0;
    assert FunctionRow(21).1.hipName == HipVersionRows000To026(7).0;
  }

  lemma HipVersionSlice008To015Targeted()
    ensures forall j | 8 <= j < 16 :: IsFunctionTarget(HipVersionRows000To026(j).0)
  {
    assert FunctionRow(22).1.hipName == HipVersionRows000To026(8).0;
    assert FunctionRow(23).1.hipName == HipVersionRows000To026(9).0;
    assert FunctionRow(24).1.hipName == HipVersionRows000To026(10).0;
    assert FunctionRow(26).1.hipName == HipVersionRows000To026(11).0;
    assert FunctionRow(29).1.hipName == HipVersionRows000To026(12).0;
    assert FunctionRow(31).1.hipName == HipVersionRows000To026(13).0;
    assert FunctionRow(33).1.hipName == HipVersionRows000To026(14).0;
    assert FunctionRow(36).1.hipName == HipVersionRows000To026(15).0;
  }

  lemma HipVersionSlice016To023Targeted()
    ensures forall j | 16 <= j < 24 :: IsFunctionTarget(HipVersionRows000To026(j).0)
  {
    assert FunctionRow(37).1.hipName == HipVersionRows000To026(16).0;
    assert FunctionRow(39).1.hipName == HipVersionRows000To026(17).0;
    assert FunctionRow(40).1.hipName == HipVersionRows000To026(18).0;
    assert FunctionRow(79).1.hipName == HipVersionRows000To026(19).0;
    assert FunctionRow(80).1.hipName == HipVersionRows000To026(20).0;
    assert FunctionRow(89).1.hipName == HipVersionRows000To026(21).0;
    assert FunctionRow(30).1.hipName == HipVersionRows000To026(22).0;
    assert FunctionRow(95).1.hipName == HipVersionRows000To026(23).0;
  }

  lemma HipVersionSlice024To026Targeted()
    ensures forall j | 24 <= j < 27 :: IsFunctionTarget(HipVersionRows000To026(j).0)
  {
    assert FunctionRow(98).1.hipName == HipVersionRows000To026(24).0;
    assert FunctionRow(99).1.hipName == HipVersionRows000To026(25).0;
    assert FunctionRow(101).1.hipName == HipVersionRows000To026(26).0;
  }

  lemma HipVersionRows000To026Targeted()
    ensures forall j | 0 <= j < 27 :: IsFunctionTarget(HipVersionRows000To026(j).0)
  {
    HipVersionSlice000To007Targeted();
    HipVersionSlice008To015Targeted();
    HipVersionSlice016To023Targeted();
    HipVersionSlice024To026Targeted();
  }

  lemma HipVersionSlice027To034Targeted()
    ensures forall j | 27 <= j < 35 :: IsFunctionTarget(HipVersionRows027To053(j).0)
  {
    assert FunctionRow(103).1.hipName == HipVersionRows027To053(27).0;
    assert FunctionRow(104).1.hipName == HipVersionRows027To053(28).0;
    assert FunctionRow(108).1.hipName == HipVersionRows027To053(29).0;
    assert FunctionRow(110).1.hipName == HipVersionRows027To053(30).0;
    assert FunctionRow(149).1.hipName == HipVersionRows027To053(31).0;
    assert FunctionRow(150).1.hipName == HipVersionRows027To053(32).0;
    assert FunctionRow(338).1.hipName == HipVersionRows027To053(33).0;
    assert FunctionRow(341).1.hipName == HipVersionRows027To053(34).0;
  }

  lemma HipVersionSlice035To042Targeted()
    ensures forall j | 35 <= j < 43 :: IsFunctionTarget(HipVersionRows027To053(j).0)
  {
    assert FunctionRow(342).1.hipName == HipVersionRows027To053(35).0;
    assert FunctionRow(422).1.hipName == HipVersionRows027To053(36).0;
    assert FunctionRow(132).1.hipName == HipVersionRows027To053(37).0;
    assert FunctionRow(231).1.hipName == HipVersionRows027To053(38).0;
    assert FunctionRow(239).1.hipName == HipVersionRows027To053(39).0;
    assert FunctionRow(246).1.hipName == HipVersionRows027To053(40).0;
    assert FunctionRow(280).1.hipName == HipVersionRows027To053(41).0;
    assert FunctionRow(281).1.hipName == HipVersionRows027To053(42).0;
  }

  lemma HipVersionSlice043To050Targeted()
    ensures forall j | 43 <= j < 51 :: IsFunctionTarget(HipVersionRows027To053(j).0)
  {
    assert FunctionRow(286).1.hipName == HipVersionRows027To053(43).0;
    assert FunctionRow(289).1.hipName == HipVersionRows027To053(44).0;
    assert FunctionRow(292).1.hipName == HipVersionRows027To053(45).0;
    assert FunctionRow(293).1.hipName == HipVersionRows027To053(46).0;
    assert FunctionRow(298).1.hipName == HipVersionRows027To053(47).0;
    assert FunctionRow(299).1.hipName == HipVersionRows027To053(48).0;
    assert FunctionRow(301).1.hipName == HipVersionRows027To053(49).0;
    assert FunctionRow(302).1.hipName == HipVersionRows027To053(50).0;
  }

  lemma HipVersionSlice051To053Targeted()
    ensures forall j | 51 <= j < 54 :: IsFunctionTarget(HipVersionRows027To053(j).0)
  {
    assert FunctionRow(313).1.hipName == HipVersionRows027To053(51).0;
    assert FunctionRow(314).1.hipName == HipVersionRows027To053(52).0;
    assert FunctionRow(315).1.hipName == HipVersionRows027To053(53).0;
  }

  lemma HipVersionRows027To053Targeted()
    ensures forall j | 27 <= j < 54 :: IsFunctionTarget(HipVersionRows027To053(j).0)
  {
    HipVersionSlice027To034Targeted();
    HipVersionSlice035To042Targeted();
    HipVersionSlice043To050Targeted();
    HipVersionSlice051To053Targeted();
  }

  lemma HipVersionSlice054To061Targeted()
    ensures forall j | 54 <= j < 62 :: IsFunctionTarget(HipVersionRows054To079(j).0)
  {
    assert FunctionRow(330).1.hipName == HipVersionRows054To079(54).0;
    assert FunctionRow(331).1.hipName == HipVersionRows054To079(55).0;
    assert FunctionRow(332).1.hipName == HipVersionRows054To079(56).0;
    assert FunctionRow(333).1.hipName == HipVersionRows054To079(57).0;
    assert FunctionRow(352).1.hipName == HipVersionRows054To079(58).0;
    assert FunctionRow(358).1.hipName == HipVersionRows054To079(59).0;
    assert FunctionRow(359).1.hipName == HipVersionRows054To079(60).0;
    assert FunctionRow(362).1.hipName == HipVersionRows054To079(61).0;
  }

  lemma HipVersionSlice062To069Targeted()
    ensures forall j | 62 <= j < 70 :: IsFunctionTarget(HipVersionRows054To079(j).0)
  {
    assert FunctionRow(363).1.hipName == HipVersionRows054To079(62).0;
    assert FunctionRow(366).1.hipName == HipVersionRows054To079(63).0;
    assert FunctionRow(370).1.hipName == HipVersionRows054To079(64).0;
    assert FunctionRow(371).1.hipName == HipVersionRows054To079(65).0;
    assert FunctionRow(335).1.hipName == HipVersionRows054To079(66).0;
    assert FunctionRow(336).1.hipName == HipVersionRows054To079(67).0;
    assert FunctionRow(376).1.hipName == HipVersionRows054To079(68).0;
    assert FunctionRow(377).1.hipName == HipVersionRows054To079(69).0;
  }

  lemma HipVersionSlice070To077Targeted()
    ensures forall j | 70 <= j < 78 :: IsFunctionTarget(HipVersionRows054To079(j).0)
  {
    assert FunctionRow(388).1.hipName == HipVersionRows054To079(70).0;
    assert FunctionRow(389).1.hipName == HipVersionRows054To079(71).0;
    assert FunctionRow(391).1.hipName == HipVersionRows054To079(72).0;
    assert FunctionRow(392).1.hipName == HipVersionRows054To079(73).0;
    assert FunctionRow(394).1.hipName == HipVersionRows054To079(74).0;
    assert FunctionRow(395).1.hipName == HipVersionRows054To079(75).0;
    assert FunctionRow(396).1.hipName == HipVersionRows054To079(76).0;
    assert FunctionRow(398).1.hipName == HipVersionRows054To079(77).0;
  }

  lemma HipVersionSlice078To079Targeted()
    ensures forall j | 78 <= j < 80 :: IsFunctionTarget(HipVersionRows054To079(j).0)
  {
    assert FunctionRow(399).1.hipName == HipVersionRows054To079(78).0;
    assert FunctionRow(403).1.hipName == HipVersionRows054To079(79).0;
  }

  lemma HipVersionRows054To079Targeted()
    ensures forall j | 54 <= j < 80 :: IsFunctionTarget(HipVersionRows054To079(j).0)
  {
    HipVersionSlice054To061Targeted();
    HipVersionSlice062To069Targeted();
    HipVersionSlice070To077Targeted();
    HipVersionSlice078To079Targeted();
  }

  lemma HipVersionSlice080To087Targeted()
    ensures forall j | 80 <= j < 88 :: IsFunctionTarget(HipVersionRows080To105(j).0)
  {
    assert FunctionRow(262).1.hipName == HipVersionRows080To105(80).0;
    assert FunctionRow(404).1.hipName == HipVersionRows080To105(81).0;
    assert FunctionRow(405).1.hipName == HipVersionRows080To105(82).0;
    assert FunctionRow(406).1.hipName == HipVersionRows080To105(83).0;
    assert FunctionRow(410).1.hipName == HipVersionRows080To105(84).0;
    assert FunctionRow(411).1.hipName == HipVersionRows080To105(85).0;
    assert FunctionRow(413).1.hipName == HipVersionRows080To105(86).0;
    assert FunctionRow(414).1.hipName == HipVersionRows080To105(87).0;
  }

  lemma HipVersionSlice088To095Targeted()
    ensures forall j | 88 <= j < 96 :: IsFunctionTarget(HipVersionRows080To105(j).0)
  {
    assert FunctionRow(408).1.hipName == HipVersionRows080To105(88).0;
    assert FunctionRow(421).1.hipName == HipVersionRows080To105(89).0;
    assert FunctionRow(442).1.hipName == HipVersionRows080To105(90).0;
    assert FunctionRow(443).1.hipName == HipVersionRows080To105(91).0;
    assert FunctionRow(448).1.hipName == HipVersionRows080To105(92).0;
    assert FunctionRow(452).1.hipName == HipVersionRows080To105(93).0;
    assert FunctionRow(454).1.hipName == HipVersionRows080To105(94).0;
    assert FunctionRow(456).1.hipName == HipVersionRows080To105(95).0;
  }

  lemma HipVersionSlice096To103Targeted()
    ensures forall j | 96 <= j < 104 :: IsFunctionTarget(HipVersionRows080To105(j).0)
  {
    assert FunctionRow(458).1.hipName == HipVersionRows080To105(96).0;
    assert FunctionRow(460).1.hipName == HipVersionRows080To105(97).0;
    assert FunctionRow(470).1.hipName == HipVersionRows080To105(98).0;
    assert FunctionRow(471).1.hipName == HipVersionRows080To105(99).0;
    assert FunctionRow(472).1.hipName == HipVersionRows080To105(100).0;
    assert FunctionRow(473).1.hipName == HipVersionRows080To105(101).0;
    assert FunctionRow(474).1.hipName == HipVersionRows080To105(102).0;
    assert FunctionRow(477).1.hipName == HipVersionRows080To105(103).0;
  }

  lemma HipVersionSlice104To105Targeted()
    ensures forall j | 104 <= j < 106 :: IsFunctionTarget(HipVersionRows080To105(j).0)
  {
    assert FunctionRow(478).1.hipName == HipVersionRows080To105(104).0;
    assert FunctionRow(480).1.hipName == HipVersionRows080To105(105).0;
  }

  lemma HipVersionRows080To105Targeted()
    ensures forall j | 80 <= j < 106 :: IsFunctionTarget(HipVersionRows080To105(j).0)
  {
    HipVersionSlice080To087Targeted();
    HipVersionSlice088To095Targeted();
    HipVersionSlice096To103Targeted();
    HipVersionSlice104To105Targeted();
  }

  lemma HipVersionSlice106To113Targeted()
    ensures forall j | 106 <= j < 114 :: IsFunctionTarget(HipVersionRows106To131(j).0)
  {
    assert FunctionRow(482).1.hipName == HipVersionRows106To131(106).0;
    assert FunctionRow(483).1.hipName == HipVersionRows106To131(107).0;
    assert FunctionRow(484).1.hipName == HipVersionRows106To131(108).0;
    assert FunctionRow(485).1.hipName == HipVersionRows106To131(109).0;
    assert FunctionRow(489).1.hipName == HipVersionRows106To131(110).0;
    assert FunctionRow(486).1.hipName == HipVersionRows106To131(111).0;
    assert FunctionRow(487).1.hipName == HipVersionRows106To131(112).0;
    assert FunctionRow(488).1.hipName == HipVersionRows106To131(113).0;
  }

  lemma HipVersionSlice114To121Targeted()
    ensures forall j | 114 <= j < 122 :: IsFunctionTarget(HipVersionRows106To131(j).0)
  {
    assert FunctionRow(490).1.hipName == HipVersionRows106To131(114).0;
    assert FunctionRow(491).1.hipName == HipVersionRows106To131(115).0;
    assert FunctionRow(494).1.hipName == HipVersionRows106To131(116).0;
    assert FunctionRow(496).1.hipName == HipVersionRows106To131(117).0;
    assert FunctionRow(497).1.hipName == HipVersionRows106To131(118).0;
    assert FunctionRow(498).1.hipName == HipVersionRows106To131(119).0;
    assert FunctionRow(499).1.hipName == HipVersionRows106To131(120).0;
    assert FunctionRow(500).1.hipName == HipVersionRows106To131(121).0;
  }

  lemma HipVersionSlice122To129Targeted()
    ensures forall j | 122 <= j < 130 :: IsFunctionTarget(HipVersionRows106To131(j).0)
  {
    assert FunctionRow(501).1.hipName == HipVersionRows106To131(122).0;
    assert FunctionRow(502).1.hipName == HipVersionRows106To131(123).0;
    assert FunctionRow(503).1.hipName == HipVersionRows106To131(124).0;
    assert FunctionRow(504).1.hipName == HipVersionRows106To131(125).0;
    assert FunctionRow(505).1.hipName == HipVersionRows106To131(126).0;
    assert FunctionRow(272).1.hipName == HipVersionRows106To131(127).0;
    assert FunctionRow(274).1.hipName == HipVersionRows106To131(128).0;
    assert FunctionRow(276).1.hipName == HipVersionRows106To131(129).0;
  }

  lemma HipVersionSlice130To131Targeted()
    ensures forall j | 130 <= j < 132 :: IsFunctionTarget(HipVersionRows106To131(j).0)
  {
    assert FunctionRow(277).1.hipName == HipVersionRows106To131(130).0;
    assert FunctionRow(279).1.hipName == HipVersionRows106To131(131).0;
  }

  lemma HipVersionRows106To131Targeted()
    ensures forall j | 106 <= j < 132 :: IsFunctionTarget(HipVersionRows106To131(j).0)
  {
    HipVersionSlice106To113Targeted();
    HipVersionSlice114To121Targeted();
    HipVersionSlice122To129Targeted();
    HipVersionSlice130To131Targeted();
  }

  lemma HipVersionRowTargeted()
    ensures forall j | 0 <= j < 132 :: IsFunctionTarget(HipVersionRow(j).0)
  {
    HipVersionRows000To026Targeted();
    HipVersionRows027To053Targeted();
    HipVersionRows054To079Targeted();
    HipVersionRows080To105Targeted();
    HipVersionRows106To131Targeted();
  }
}
