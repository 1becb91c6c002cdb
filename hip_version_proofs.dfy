/** Every row of the HIP version table is well formed, and its keys ascend. */
module HipVersionProofs {
  import opened DriverRules
  import opened KeyOrder
  import opened HipVersionTable
  import opened HipVersionKeys

  lemma HipVersionSlice000To003()
    ensures forall i | 0 <= i < 4 :: HipVersionsOk(HipVersionRows000To026(i))
    ensures forall i | 0 <= i < 4 :: Precedes(HipVersionRows000To026(i).0, HipVersionRows000To026(i + 1).0)
  {
    HipVersionKey000BeforeKey001();
    HipVersionKey001BeforeKey002();
    HipVersionKey002BeforeKey003();
    HipVersionKey003BeforeKey004();
  }

  lemma HipVersionSlice004To007()
    ensures forall i | 4 <= i < 8 :: HipVersionsOk(HipVersionRows000To026(i))
    ensures forall i | 4 <= i < 8 :: Precedes(HipVersionRows000To026(i).0, HipVersionRows000To026(i + 1).0)
  {
    HipVersionKey004BeforeKey005();
    HipVersionKey005BeforeKey006();
    HipVersionKey006BeforeKey007();
    HipVersionKey007BeforeKey008();
  }

  lemma HipVersionSlice008To011()
    ensures forall i | 8 <= i < 12 :: HipVersionsOk(HipVersionRows000To026(i))
    ensures forall i | 8 <= i < 12 :: Precedes(HipVersionRows000To026(i).0, HipVersionRows000To026(i + 1).0)
  {
    HipVersionKey008BeforeKey009();
    HipVersionKey009BeforeKey010();
    HipVersionKey010BeforeKey011();
    HipVersionKey011BeforeKey012();
  }

  lemma HipVersionSlice012To015()
    ensures forall i | 12 <= i < 16 :: HipVersionsOk(HipVersionRows000To026(i))
    ensures forall i | 12 <= i < 16 :: Precedes(HipVersionRows000To026(i).0, HipVersionRows000To026(i + 1).0)
  {
    HipVersionKey012BeforeKey013();
    HipVersionKey013BeforeKey014();
    HipVersionKey014BeforeKey015();
    HipVersionKey015BeforeKey016();
  }

  lemma HipVersionSlice016To019()
    ensures forall i | 16 <= i < 20 :: HipVersionsOk(HipVersionRows000To026(i))
    ensures forall i | 16 <= i < 20 :: Precedes(HipVersionRows000To026(i).0, HipVersionRows000To026(i + 1).0)
  {
    HipVersionKey016BeforeKey017();
    HipVersionKey017BeforeKey018();
    HipVersionKey018BeforeKey019();
    HipVersionKey019BeforeKey020();
  }

  lemma HipVersionSlice020To023()
    ensures forall i | 20 <= i < 24 :: HipVersionsOk(HipVersionRows000To026(i))
    ensures forall i | 20 <= i < 24 :: Precedes(HipVersionRows000To026(i).0, HipVersionRows000To026(i + 1).0)
  {
    HipVersionKey020BeforeKey021();
    HipVersionKey021BeforeKey022();
    HipVersionKey022BeforeKey023();
    HipVersionKey023BeforeKey024();
  }

  lemma HipVersionSlice024To026()
    ensures forall i | 24 <= i < 27 :: HipVersionsOk(HipVersionRows000To026(i))
    ensures forall i | 24 <= i < 26 :: Precedes(HipVersionRows000To026(i).0, HipVersionRows000To026(i + 1).0)
  {
    HipVersionKey024BeforeKey025();
    HipVersionKey025BeforeKey026();
  }

  lemma HipVersionRows000To026Ok()
    ensures forall i | 0 <= i < 27 :: HipVersionsOk(HipVersionRows000To026(i))
    ensures forall i | 0 <= i < 26 :: Precedes(HipVersionRows000To026(i).0, HipVersionRows000To026(i + 1).0)
  {
    HipVersionSlice000To003();
    HipVersionSlice004To007();
    HipVersionSlice008To011();
    HipVersionSlice012To015();
    HipVersionSlice016To019();
    HipVersionSlice020To023();
    HipVersionSlice024To026();
  }

  lemma HipVersionSlice027To030()
    ensures forall i | 27 <= i < 31 :: HipVersionsOk(HipVersionRows027To053(i))
    ensures forall i | 27 <= i < 31 :: Precedes(HipVersionRows027To053(i).0, HipVersionRows027To053(i + 1).0)
  {
    HipVersionKey027BeforeKey028();
    HipVersionKey028BeforeKey029();
    HipVersionKey029BeforeKey030();
    HipVersionKey030BeforeKey031();
  }

  lemma HipVersionSlice031To034()
    ensures forall i | 31 <= i < 35 :: HipVersionsOk(HipVersionRows027To053(i))
    ensures forall i | 31 <= i < 35 :: Precedes(HipVersionRows027To053(i).0, HipVersionRows027To053(i + 1).0)
  {
    HipVersionKey031BeforeKey032();
    HipVersionKey032BeforeKey033();
    HipVersionKey033BeforeKey034();
    HipVersionKey034BeforeKey035();
  }

  lemma HipVersionSlice035To038()
    ensures forall i | 35 <= i < 39 :: HipVersionsOk(HipVersionRows027To053(i))
    ensures forall i | 35 <= i < 39 :: Precedes(HipVersionRows027To053(i).0, HipVersionRows027To053(i + 1).0)
  {
    HipVersionKey035BeforeKey036();
    HipVersionKey036BeforeKey037();
    HipVersionKey037BeforeKey038();
    HipVersionKey038BeforeKey039();
  }

  lemma HipVersionSlice039To042()
    ensures forall i | 39 <= i < 43 :: HipVersionsOk(HipVersionRows027To053(i))
    ensures forall i | 39 <= i < 43 :: Precedes(HipVersionRows027To053(i).0, HipVersionRows027To053(i + 1).0)
  {
    HipVersionKey039BeforeKey040();
    HipVersionKey040BeforeKey041();
    HipVersionKey041BeforeKey042();
    HipVersionKey042BeforeKey043();
  }

  lemma HipVersionSlice043To046()
    ensures forall i | 43 <= i < 47 :: HipVersionsOk(HipVersionRows027To053(i))
    ensures forall i | 43 <= i < 47 :: Precedes(HipVersionRows027To053(i).0, HipVersionRows027To053(i + 1).0)
  {
    HipVersionKey043BeforeKey044();
    HipVersionKey044BeforeKey045();
    HipVersionKey045BeforeKey046();
    HipVersionKey046BeforeKey047();
  }

  lemma HipVersionSlice047To050()
    ensures forall i | 47 <= i < 51 :: HipVersionsOk(HipVersionRows027To053(i))
    ensures forall i | 47 <= i < 51 :: Precedes(HipVersionRows027To053(i).0, HipVersionRows027To053(i + 1).0)
  {
    HipVersionKey047BeforeKey048();
    HipVersionKey048BeforeKey049();
    HipVersionKey049BeforeKey050();
    HipVersionKey050BeforeKey051();
  }

  lemma HipVersionSlice051To053()
    ensures forall i | 51 <= i < 54 :: HipVersionsOk(HipVersionRows027To053(i))
    ensures forall i | 51 <= i < 53 :: Precedes(HipVersionRows027To053(i).0, HipVersionRows027To053(i + 1).0)
  {
    HipVersionKey051BeforeKey052();
    HipVersionKey052BeforeKey053();
  }

  lemma HipVersionRows027To053Ok()
    ensures forall i | 27 <= i < 54 :: HipVersionsOk(HipVersionRows027To053(i))
    ensures forall i | 27 <= i < 53 :: Precedes(HipVersionRows027To053(i).0, HipVersionRows027To053(i + 1).0)
  {
    HipVersionSlice027To030();
    HipVersionSlice031To034();
    HipVersionSlice035To038();
    HipVersionSlice039To042();
    HipVersionSlice043To046();
    HipVersionSlice047To050();
    HipVersionSlice051To053();
  }

  lemma HipVersionSlice054To057()
    ensures forall i | 54 <= i < 58 :: HipVersionsOk(HipVersionRows054To079(i))
    ensures forall i | 54 <= i < 58 :: Precedes(HipVersionRows054To079(i).0, HipVersionRows054To079(i + 1).0)
  {
    HipVersionKey054BeforeKey055();
    HipVersionKey055BeforeKey056();
    HipVersionKey056BeforeKey057();
    HipVersionKey057BeforeKey058();
  }

  lemma HipVersionSlice058To061()
    ensures forall i | 58 <= i < 62 :: HipVersionsOk(HipVersionRows054To079(i))
    ensures forall i | 58 <= i < 62 :: Precedes(HipVersionRows054To079(i).0, HipVersionRows054To079(i + 1).0)
  {
    HipVersionKey058BeforeKey059();
    HipVersionKey059BeforeKey060();
    HipVersionKey060BeforeKey061();
    HipVersionKey061BeforeKey062();
  }

  lemma HipVersionSlice062To065()
    ensures forall i | 62 <= i < 66 :: HipVersionsOk(HipVersionRows054To079(i))
    ensures forall i | 62 <= i < 66 :: Precedes(HipVersionRows054To079(i).0, HipVersionRows054To079(i + 1).0)
  {
    HipVersionKey062BeforeKey063();
    HipVersionKey063BeforeKey064();
    HipVersionKey064BeforeKey065();
    HipVersionKey065BeforeKey066();
  }

  lemma HipVersionSlice066To069()
    ensures forall i | 66 <= i < 70 :: HipVersionsOk(HipVersionRows054To079(i))
    ensures forall i | 66 <= i < 70 :: Precedes(HipVersionRows054To079(i).0, HipVersionRows054To079(i + 1).0)
  {
    HipVersionKey066BeforeKey067();
    HipVersionKey067BeforeKey068();
    HipVersionKey068BeforeKey069();
    HipVersionKey069BeforeKey070();
  }

  lemma HipVersionSlice070To073()
    ensures forall i | 70 <= i < 74 :: HipVersionsOk(HipVersionRows054To079(i))
    ensures forall i | 70 <= i < 74 :: Precedes(HipVersionRows054To079(i).0, HipVersionRows054To079(i + 1).0)
  {
    HipVersionKey070BeforeKey071();
    HipVersionKey071BeforeKey072();
    HipVersionKey072BeforeKey073();
    HipVersionKey073BeforeKey074();
  }

  lemma HipVersionSlice074To077()
    ensures forall i | 74 <= i < 78 :: HipVersionsOk(HipVersionRows054To079(i))
    ensures forall i | 74 <= i < 78 :: Precedes(HipVersionRows054To079(i).0, HipVersionRows054To079(i + 1).0)
  {
    HipVersionKey074BeforeKey075();
    HipVersionKey075BeforeKey076();
    HipVersionKey076BeforeKey077();
    HipVersionKey077BeforeKey078();
  }

  lemma HipVersionSlice078To079()
    ensures forall i | 78 <= i < 80 :: HipVersionsOk(HipVersionRows054To079(i))
    ensures forall i | 78 <= i < 79 :: Precedes(HipVersionRows054To079(i).0, HipVersionRows054To079(i + 1).0)
  {
    HipVersionKey078BeforeKey079();
  }

  lemma HipVersionRows054To079Ok()
    ensures forall i | 54 <= i < 80 :: HipVersionsOk(HipVersionRows054To079(i))
    ensures forall i | 54 <= i < 79 :: Precedes(HipVersionRows054To079(i).0, HipVersionRows054To079(i + 1).0)
  {
    HipVersionSlice054To057();
    HipVersionSlice058To061();
    HipVersionSlice062To065();
    HipVersionSlice066To069();
    HipVersionSlice070To073();
    HipVersionSlice074To077();
    HipVersionSlice078To079();
  }

  lemma HipVersionSlice080To083()
    ensures forall i | 80 <= i < 84 :: HipVersionsOk(HipVersionRows080To105(i))
    ensures forall i | 80 <= i < 84 :: Precedes(HipVersionRows080To105(i).0, HipVersionRows080To105(i + 1).0)
  {
    HipVersionKey080BeforeKey081();
    HipVersionKey081BeforeKey082();
    HipVersionKey082BeforeKey083();
    HipVersionKey083BeforeKey084();
  }

  lemma HipVersionSlice084To087()
    ensures forall i | 84 <= i < 88 :: HipVersionsOk(HipVersionRows080To105(i))
    ensures forall i | 84 <= i < 88 :: Precedes(HipVersionRows080To105(i).0, HipVersionRows080To105(i + 1).0)
  {
    HipVersionKey084BeforeKey085();
    HipVersionKey085BeforeKey086();
    HipVersionKey086BeforeKey087();
    HipVersionKey087BeforeKey088();
  }

  lemma HipVersionSlice088To091()
    ensures forall i | 88 <= i < 92 :: HipVersionsOk(HipVersionRows080To105(i))
    ensures forall i | 88 <= i < 92 :: Precedes(HipVersionRows080To105(i).0, HipVersionRows080To105(i + 1).0)
  {
    HipVersionKey088BeforeKey089();
    HipVersionKey089BeforeKey090();
    HipVersionKey090BeforeKey091();
    HipVersionKey091BeforeKey092();
  }

  lemma HipVersionSlice092To095()
    ensures forall i | 92 <= i < 96 :: HipVersionsOk(HipVersionRows080To105(i))
    ensures forall i | 92 <= i < 96 :: Precedes(HipVersionRows080To105(i).0, HipVersionRows080To105(i + 1).0)
  {
    HipVersionKey092BeforeKey093();
    HipVersionKey093BeforeKey094();
    HipVersionKey094BeforeKey095();
    HipVersionKey095BeforeKey096();
  }

  lemma HipVersionSlice096To099()
    ensures forall i | 96 <= i < 100 :: HipVersionsOk(HipVersionRows080To105(i))
    ensures forall i | 96 <= i < 100 :: Precedes(HipVersionRows080To105(i).0, HipVersionRows080To105(i + 1).0)
  {
    HipVersionKey096BeforeKey097();
    HipVersionKey097BeforeKey098();
    HipVersionKey098BeforeKey099();
    HipVersionKey099BeforeKey100();
  }

  lemma HipVersionSlice100To103()
    ensures forall i | 100 <= i < 104 :: HipVersionsOk(HipVersionRows080To105(i))
    ensures forall i | 100 <= i < 104 :: Precedes(HipVersionRows080To105(i).0, HipVersionRows080To105(i + 1).0)
  {
    HipVersionKey100BeforeKey101();
    HipVersionKey101BeforeKey102();
    HipVersionKey102BeforeKey103();
    HipVersionKey103BeforeKey104();
  }

  lemma HipVersionSlice104To105()
    ensures forall i | 104 <= i < 106 :: HipVersionsOk(HipVersionRows080To105(i))
    ensures forall i | 104 <= i < 105 :: Precedes(HipVersionRows080To105(i).0, HipVersionRows080To105(i + 1).0)
  {
    HipVersionKey104BeforeKey105();
  }

  lemma HipVersionRows080To105Ok()
    ensures forall i | 80 <= i < 106 :: HipVersionsOk(HipVersionRows080To105(i))
    ensures forall i | 80 <= i < 105 :: Precedes(HipVersionRows080To105(i).0, HipVersionRows080To105(i + 1).0)
  {
    HipVersionSlice080To083();
    HipVersionSlice084To087();
    HipVersionSlice088To091();
    HipVersionSlice092To095();
    HipVersionSlice096To099();
    HipVersionSlice100To103();
    HipVersionSlice104To105();
  }

  lemma HipVersionSlice106To109()
    ensures forall i | 106 <= i < 110 :: HipVersionsOk(HipVersionRows106To131(i))
    ensures forall i | 106 <= i < 110 :: Precedes(HipVersionRows106To131(i).0, HipVersionRows106To131(i + 1).0)
  {
    HipVersionKey106BeforeKey107();
    HipVersionKey107BeforeKey108();
    HipVersionKey108BeforeKey109();
    HipVersionKey109BeforeKey110();
  }

  lemma HipVersionSlice110To113()
    ensures forall i | 110 <= i < 114 :: HipVersionsOk(HipVersionRows106To131(i))
    ensures forall i | 110 <= i < 114 :: Precedes(HipVersionRows106To131(i).0, HipVersionRows106To131(i + 1).0)
  {
    HipVersionKey110BeforeKey111();
    HipVersionKey111BeforeKey112();
    HipVersionKey112BeforeKey113();
    HipVersionKey113BeforeKey114();
  }

  lemma HipVersionSlice114To117()
    ensures forall i | 114 <= i < 118 :: HipVersionsOk(HipVersionRows106To131(i))
    ensures forall i | 114 <= i < 118 :: Precedes(HipVersionRows106To131(i).0, HipVersionRows106To131(i + 1).0)
  {
    HipVersionKey114BeforeKey115();
    HipVersionKey115BeforeKey116();
    HipVersionKey116BeforeKey117();
    HipVersionKey117BeforeKey118();
  }

  lemma HipVersionSlice118To121()
    ensures forall i | 118 <= i < 122 :: HipVersionsOk(HipVersionRows106To131(i))
    ensures forall i | 118 <= i < 122 :: Precedes(HipVersionRows106To131(i).0, HipVersionRows106To131(i + 1).0)
  {
    HipVersionKey118BeforeKey119();
    HipVersionKey119BeforeKey120();
    HipVersionKey120BeforeKey121();
    HipVersionKey121BeforeKey122();
  }

  lemma HipVersionSlice122To125()
    ensures forall i | 122 <= i < 126 :: HipVersionsOk(HipVersionRows106To131(i))
    ensures forall i | 122 <= i < 126 :: Precedes(HipVersionRows106To131(i).0, HipVersionRows106To131(i + 1).0)
  {
    HipVersionKey122BeforeKey123();
    HipVersionKey123BeforeKey124();
    HipVersionKey124BeforeKey125();
    HipVersionKey125BeforeKey126();
  }

  lemma HipVersionSlice126To129()
    ensures forall i | 126 <= i < 130 :: HipVersionsOk(HipVersionRows106To131(i))
    ensures forall i | 126 <= i < 130 :: Precedes(HipVersionRows106To131(i).0, HipVersionRows106To131(i + 1).0)
  {
    HipVersionKey126BeforeKey127();
    HipVersionKey127BeforeKey128();
    HipVersionKey128BeforeKey129();
    HipVersionKey129BeforeKey130();
  }

  lemma HipVersionSlice130To131()
    ensures forall i | 130 <= i < 132 :: HipVersionsOk(HipVersionRows106To131(i))
    ensures forall i | 130 <= i < 131 :: Precedes(HipVersionRows106To131(i).0, HipVersionRows106To131(i + 1).0)
  {
    HipVersionKey130BeforeKey131();
  }

  lemma HipVersionRows106To131Ok()
    ensures forall i | 106 <= i < 132 :: HipVersionsOk(HipVersionRows106To131(i))
    ensures forall i | 106 <= i < 131 :: Precedes(HipVersionRows106To131(i).0, HipVersionRows106To131(i + 1).0)
  {
    HipVersionSlice106To109();
    HipVersionSlice110To113();
    HipVersionSlice114To117();
    HipVersionSlice118To121();
    HipVersionSlice122To125();
    HipVersionSlice126To129();
    HipVersionSlice130To131();
  }

  lemma HipVersionRowLinked()
    ensures forall i | 26 <= i < 27 :: Precedes(HipVersionRows000To026(i).0, HipVersionRows027To053(i + 1).0)
    ensures forall i | 53 <= i < 54 :: Precedes(HipVersionRows027To053(i).0, HipVersionRows054To079(i + 1).0)
    ensures forall i | 79 <= i < 80 :: Precedes(HipVersionRows054To079(i).0, HipVersionRows080To105(i + 1).0)
    ensures forall i | 105 <= i < 106 :: Precedes(HipVersionRows080To105(i).0, HipVersionRows106To131(i + 1).0)
  {
    HipVersionKey026BeforeKey027();
    HipVersionKey053BeforeKey054();
    HipVersionKey079BeforeKey080();
    HipVersionKey105BeforeKey106();
  }

  lemma HipVersionRowOk()
    ensures forall i | 0 <= i < 132 :: HipVersionsOk(HipVersionRow(i))
    ensures forall i | 0 <= i < 131 :: Precedes(HipVersionRow(i).0, HipVersionRow(i + 1).0)
  {
    HipVersionRows000To026Ok();
    HipVersionRows027To053Ok();
    HipVersionRows054To079Ok();
    HipVersionRows080To105Ok();
    HipVersionRows106To131Ok();
    HipVersionRowLinked();
  }
}
