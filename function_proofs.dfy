/** Every row of the function table is well formed, and its keys ascend. */
module FunctionProofs {
  import opened DriverRules
  import opened KeyOrder
  import opened FunctionTable
  import opened FunctionKeys

  lemma FunctionSlice000To003()
    ensures forall i | 0 <= i < 4 :: FunctionEntryOk(FunctionRows000To030(i))
    ensures forall i | 0 <= i < 4 :: Precedes(FunctionRows000To030(i).0, FunctionRows000To030(i + 1).0)
  {
    FunctionKey000BeforeKey001();
    FunctionKey001BeforeKey002();
    FunctionKey002BeforeKey003();
    FunctionKey003BeforeKey004();
  }

  lemma FunctionSlice004To007()
    ensures forall i | 4 <= i < 8 :: FunctionEntryOk(FunctionRows000To030(i))
    ensures forall i | 4 <= i < 8 :: Precedes(FunctionRows000To030(i).0, FunctionRows000To030(i + 1).0)
  {
    FunctionKey004BeforeKey005();
    FunctionKey005BeforeKey006();
    FunctionKey006BeforeKey007();
    FunctionKey007BeforeKey008();
  }

  lemma FunctionSlice008To011()
    ensures forall i | 8 <= i < 12 :: FunctionEntryOk(FunctionRows000To030(i))
    ensures forall i | 8 <= i < 12 :: Precedes(FunctionRows000To030(i).0, FunctionRows000To030(i + 1).0)
  {
    FunctionKey008BeforeKey009();
    FunctionKey009BeforeKey010();
    FunctionKey010BeforeKey011();
    FunctionKey011BeforeKey012();
  }

  lemma FunctionSlice012To015()
    ensures forall i | 12 <= i < 16 :: FunctionEntryOk(FunctionRows000To030(i))
    ensures forall i | 12 <= i < 16 :: Precedes(FunctionRows000To030(i).0, FunctionRows000To030(i + 1).0)
  {
    FunctionKey012BeforeKey013();
    FunctionKey013BeforeKey014();
    FunctionKey014BeforeKey015();
    FunctionKey015BeforeKey016();
  }

  lemma FunctionSlice016To019()
    ensures forall i | 16 <= i < 20 :: FunctionEntryOk(FunctionRows000To030(i))
    ensures forall i | 16 <= i < 20 :: Precedes(FunctionRows000To030(i).0, FunctionRows000To030(i + 1).0)
  {
    FunctionKey016BeforeKey017();
    FunctionKey017BeforeKey018();
    FunctionKey018BeforeKey019();
    FunctionKey019BeforeKey020();
  }

  lemma FunctionSlice020To023()
    ensures forall i | 20 <= i < 24 :: FunctionEntryOk(FunctionRows000To030(i))
    ensures forall i | 20 <= i < 24 :: Precedes(FunctionRows000To030(i).0, FunctionRows000To030(i + 1).0)
  {
    FunctionKey020BeforeKey021();
    FunctionKey021BeforeKey022();
    FunctionKey022BeforeKey023();
    FunctionKey023BeforeKey024();
  }

  lemma FunctionSlice024To027()
    ensures forall i | 24 <= i < 28 :: FunctionEntryOk(FunctionRows000To030(i))
    ensures forall i | 24 <= i < 28 :: Precedes(FunctionRows000To030(i).0, FunctionRows000To030(i + 1).0)
  {
    FunctionKey024BeforeKey025();
    FunctionKey025BeforeKey026();
    FunctionKey026BeforeKey027();
    FunctionKey027BeforeKey028();
  }

  lemma FunctionSlice028To030()
    ensures forall i | 28 <= i < 31 :: FunctionEntryOk(FunctionRows000To030(i))
    ensures forall i | 28 <= i < 30 :: Precedes(FunctionRows000To030(i).0, FunctionRows000To030(i + 1).0)
  {
    FunctionKey028BeforeKey029();
    FunctionKey029BeforeKey030();
  }

  lemma FunctionRows000To030Ok()
    ensures forall i | 0 <= i < 31 :: FunctionEntryOk(FunctionRows000To030(i))
    ensures forall i | 0 <= i < 30 :: Precedes(FunctionRows000To030(i).0, FunctionRows000To030(i + 1).0)
  {
    FunctionSlice000To003();
    FunctionSlice004To007();
    FunctionSlice008To011();
    FunctionSlice012To015();
    FunctionSlice016To019();
    FunctionSlice020To023();
    FunctionSlice024To027();
    FunctionSlice028To030();
  }

  lemma FunctionSlice031To034()
    ensures forall i | 31 <= i < 35 :: FunctionEntryOk(FunctionRows031To061(i))
    ensures forall i | 31 <= i < 35 :: Precedes(FunctionRows031To061(i).0, FunctionRows031To061(i + 1).0)
  {
    FunctionKey031BeforeKey032();
    FunctionKey032BeforeKey033();
    FunctionKey033BeforeKey034();
    FunctionKey034BeforeKey035();
  }

  lemma FunctionSlice035To038()
    ensures forall i | 35 <= i < 39 :: FunctionEntryOk(FunctionRows031To061(i))
    ensures forall i | 35 <= i < 39 :: Precedes(FunctionRows031To061(i).0, FunctionRows031To061(i + 1).0)
  {
    FunctionKey035BeforeKey036();
    FunctionKey036BeforeKey037();
    FunctionKey037BeforeKey038();
    FunctionKey038BeforeKey039();
  }

  lemma FunctionSlice039To042()
    ensures forall i | 39 <= i < 43 :: FunctionEntryOk(FunctionRows031To061(i))
    ensures forall i | 39 <= i < 43 :: Precedes(FunctionRows031To061(i).0, FunctionRows031To061(i + 1).0)
  {
    FunctionKey039BeforeKey040();
    FunctionKey040BeforeKey041();
    FunctionKey041BeforeKey042();
    FunctionKey042BeforeKey043();
  }

  lemma FunctionSlice043To046()
    ensures forall i | 43 <= i < 47 :: FunctionEntryOk(FunctionRows031To061(i))
    ensures forall i | 43 <= i < 47 :: Precedes(FunctionRows031To061(i).0, FunctionRows031To061(i + 1).0)
  {
    FunctionKey043BeforeKey044();
    FunctionKey044BeforeKey045();
    FunctionKey045BeforeKey046();
    FunctionKey046BeforeKey047();
  }

  lemma FunctionSlice047To050()
    ensures forall i | 47 <= i < 51 :: FunctionEntryOk(FunctionRows031To061(i))
    ensures forall i | 47 <= i < 51 :: Precedes(FunctionRows031To061(i).0, FunctionRows031To061(i + 1).0)
  {
    FunctionKey047BeforeKey048();
    FunctionKey048BeforeKey049();
    FunctionKey049BeforeKey050();
    FunctionKey050BeforeKey051();
  }

  lemma FunctionSlice051To054()
    ensures forall i | 51 <= i < 55 :: FunctionEntryOk(FunctionRows031To061(i))
    ensures forall i | 51 <= i < 55 :: Precedes(FunctionRows031To061(i).0, FunctionRows031To061(i + 1).0)
  {
    FunctionKey051BeforeKey052();
    FunctionKey052BeforeKey053();
    FunctionKey053BeforeKey054();
    FunctionKey054BeforeKey055();
  }

  lemma FunctionSlice055To058()
    ensures forall i | 55 <= i < 59 :: FunctionEntryOk(FunctionRows031To061(i))
    ensures forall i | 55 <= i < 59 :: Precedes(FunctionRows031To061(i).0, FunctionRows031To061(i + 1).0)
  {
    FunctionKey055BeforeKey056();
    FunctionKey056BeforeKey057();
    FunctionKey057BeforeKey058();
    FunctionKey058BeforeKey059();
  }

  lemma FunctionSlice059To061()
    ensures forall i | 59 <= i < 62 :: FunctionEntryOk(FunctionRows031To061(i))
    ensures forall i | 59 <= i < 61 :: Precedes(FunctionRows031To061(i).0, FunctionRows031To061(i + 1).0)
  {
    FunctionKey059BeforeKey060();
    FunctionKey060BeforeKey061();
  }

  lemma FunctionRows031To061Ok()
    ensures forall i | 31 <= i < 62 :: FunctionEntryOk(FunctionRows031To061(i))
    ensures forall i | 31 <= i < 61 :: Precedes(FunctionRows031To061(i).0, FunctionRows031To061(i + 1).0)
  {
    FunctionSlice031To034();
    FunctionSlice035To038();
    FunctionSlice039To042();
    FunctionSlice043To046();
    FunctionSlice047To050();
    FunctionSlice051To054();
    FunctionSlice055To058();
    FunctionSlice059To061();
  }

  lemma FunctionRows000To061Linked()
    ensures forall i | 30 <= i < 31 :: Precedes(FunctionRows000To030(i).0, FunctionRows031To061(i + 1).0)
  {
    FunctionKey030BeforeKey031();
  }

  lemma FunctionRows000To061Ok()
    ensures forall i | 0 <= i < 62 :: FunctionEntryOk(FunctionRows000To061(i))
    ensures forall i | 0 <= i < 61 :: Precedes(FunctionRows000To061(i).0, FunctionRows000To061(i + 1).0)
  {
    FunctionRows000To030Ok();
    FunctionRows031To061Ok();
    FunctionRows000To061Linked();
  }

  lemma FunctionSlice062To065()
    ensures forall i | 62 <= i < 66 :: FunctionEntryOk(FunctionRows062To092(i))
    ensures forall i | 62 <= i < 66 :: Precedes(FunctionRows062To092(i).0, FunctionRows062To092(i + 1).0)
  {
    FunctionKey062BeforeKey063();
    FunctionKey063BeforeKey064();
    FunctionKey064BeforeKey065();
    FunctionKey065BeforeKey066();
  }

  lemma FunctionSlice066To069()
    ensures forall i | 66 <= i < 70 :: FunctionEntryOk(FunctionRows062To092(i))
    ensures forall i | 66 <= i < 70 :: Precedes(FunctionRows062To092(i).0, FunctionRows062To092(i + 1).0)
  {
    FunctionKey066BeforeKey067();
    FunctionKey067BeforeKey068();
    FunctionKey068BeforeKey069();
    FunctionKey069BeforeKey070();
  }

  lemma FunctionSlice070To073()
    ensures forall i | 70 <= i < 74 :: FunctionEntryOk(FunctionRows062To092(i))
    ensures forall i | 70 <= i < 74 :: Precedes(FunctionRows062To092(i).0, FunctionRows062To092(i + 1).0)
  {
    FunctionKey070BeforeKey071();
    FunctionKey071BeforeKey072();
    FunctionKey072BeforeKey073();
    FunctionKey073BeforeKey074();
  }

  lemma FunctionSlice074To077()
    ensures forall i | 74 <= i < 78 :: FunctionEntryOk(FunctionRows062To092(i))
    ensures forall i | 74 <= i < 78 :: Precedes(FunctionRows062To092(i).0, FunctionRows062To092(i + 1).0)
  {
    FunctionKey074BeforeKey075();
    FunctionKey075BeforeKey076();
    FunctionKey076BeforeKey077();
    FunctionKey077BeforeKey078();
  }

  lemma FunctionSlice078To081()
    ensures forall i | 78 <= i < 82 :: FunctionEntryOk(FunctionRows062To092(i))
    ensures forall i | 78 <= i < 82 :: Precedes(FunctionRows062To092(i).0, FunctionRows062To092(i + 1).0)
  {
    FunctionKey078BeforeKey079();
    FunctionKey079BeforeKey080();
    FunctionKey080BeforeKey081();
    FunctionKey081BeforeKey082();
  }

  lemma FunctionSlice082To085()
    ensures forall i | 82 <= i < 86 :: FunctionEntryOk(FunctionRows062To092(i))
    ensures forall i | 82 <= i < 86 :: Precedes(FunctionRows062To092(i).0, FunctionRows062To092(i + 1).0)
  {
    FunctionKey082BeforeKey083();
    FunctionKey083BeforeKey084();
    FunctionKey084BeforeKey085();
    FunctionKey085BeforeKey086();
  }

  lemma FunctionSlice086To089()
    ensures forall i | 86 <= i < 90 :: FunctionEntryOk(FunctionRows062To092(i))
    ensures forall i | 86 <= i < 90 :: Precedes(FunctionRows062To092(i).0, FunctionRows062To092(i + 1).0)
  {
    FunctionKey086BeforeKey087();
    FunctionKey087BeforeKey088();
    FunctionKey088BeforeKey089();
    FunctionKey089BeforeKey090();
  }

  lemma FunctionSlice090To092()
    ensures forall i | 90 <= i < 93 :: FunctionEntryOk(FunctionRows062To092(i))
    ensures forall i | 90 <= i < 92 :: Precedes(FunctionRows062To092(i).0, FunctionRows062To092(i + 1).0)
  {
    FunctionKey090BeforeKey091();
    FunctionKey091BeforeKey092();
  }

  lemma FunctionRows062To092Ok()
    ensures forall i | 62 <= i < 93 :: FunctionEntryOk(FunctionRows062To092(i))
    ensures forall i | 62 <= i < 92 :: Precedes(FunctionRows062To092(i).0, FunctionRows062To092(i + 1).0)
  {
    FunctionSlice062To065();
    FunctionSlice066To069();
    FunctionSlice070To073();
    FunctionSlice074To077();
    FunctionSlice078To081();
    FunctionSlice082To085();
    FunctionSlice086To089();
    FunctionSlice090To092();
  }

  lemma FunctionSlice093To096()
    ensures forall i | 93 <= i < 97 :: FunctionEntryOk(FunctionRows093To123(i))
    ensures forall i | 93 <= i < 97 :: Precedes(FunctionRows093To123(i).0, FunctionRows093To123(i + 1).0)
  {
    FunctionKey093BeforeKey094();
    FunctionKey094BeforeKey095();
    FunctionKey095BeforeKey096();
    FunctionKey096BeforeKey097();
  }

  lemma FunctionSlice097To100()
    ensures forall i | 97 <= i < 101 :: FunctionEntryOk(FunctionRows093To123(i))
    ensures forall i | 97 <= i < 101 :: Precedes(FunctionRows093To123(i).0, FunctionRows093To123(i + 1).0)
  {
    FunctionKey097BeforeKey098();
    FunctionKey098BeforeKey099();
    FunctionKey099BeforeKey100();
    FunctionKey100BeforeKey101();
  }

  lemma FunctionSlice101To104()
    ensures forall i | 101 <= i < 105 :: FunctionEntryOk(FunctionRows093To123(i))
    ensures forall i | 101 <= i < 105 :: Precedes(FunctionRows093To123(i).0, FunctionRows093To123(i + 1).0)
  {
    FunctionKey101BeforeKey102();
    FunctionKey102BeforeKey103();
    FunctionKey103BeforeKey104();
    FunctionKey104BeforeKey105();
  }

  lemma FunctionSlice105To108()
    ensures forall i | 105 <= i < 109 :: FunctionEntryOk(FunctionRows093To123(i))
    ensures forall i | 105 <= i < 109 :: Precedes(FunctionRows093To123(i).0, FunctionRows093To123(i + 1).0)
  {
    FunctionKey105BeforeKey106();
    FunctionKey106BeforeKey107();
    FunctionKey107BeforeKey108();
    FunctionKey108BeforeKey109();
  }

  lemma FunctionSlice109To112()
    ensures forall i | 109 <= i < 113 :: FunctionEntryOk(FunctionRows093To123(i))
    ensures forall i | 109 <= i < 113 :: Precedes(FunctionRows093To123(i).0, FunctionRows093To123(i + 1).0)
  {
    FunctionKey109BeforeKey110();
    FunctionKey110BeforeKey111();
    FunctionKey111BeforeKey112();
    FunctionKey112BeforeKey113();
  }

  lemma FunctionSlice113To116()
    ensures forall i | 113 <= i < 117 :: FunctionEntryOk(FunctionRows093To123(i))
    ensures forall i | 113 <= i < 117 :: Precedes(FunctionRows093To123(i).0, FunctionRows093To123(i + 1).0)
  {
    FunctionKey113BeforeKey114();
    FunctionKey114BeforeKey115();
    FunctionKey115BeforeKey116();
    FunctionKey116BeforeKey117();
  }

  lemma FunctionSlice117To120()
    ensures forall i | 117 <= i < 121 :: FunctionEntryOk(FunctionRows093To123(i))
    ensures forall i | 117 <= i < 121 :: Precedes(FunctionRows093To123(i).0, FunctionRows093To123(i + 1).0)
  {
    FunctionKey117BeforeKey118();
    FunctionKey118BeforeKey119();
    FunctionKey119BeforeKey120();
    FunctionKey120BeforeKey121();
  }

  lemma FunctionSlice121To123()
    ensures forall i | 121 <= i < 124 :: FunctionEntryOk(FunctionRows093To123(i))
    ensures forall i | 121 <= i < 123 :: Precedes(FunctionRows093To123(i).0, FunctionRows093To123(i + 1).0)
  {
    FunctionKey121BeforeKey122();
    FunctionKey122BeforeKey123();
  }

  lemma FunctionRows093To123Ok()
    ensures forall i | 93 <= i < 124 :: FunctionEntryOk(FunctionRows093To123(i))
    ensures forall i | 93 <= i < 123 :: Precedes(FunctionRows093To123(i).0, FunctionRows093To123(i + 1).0)
  {
    FunctionSlice093To096();
    FunctionSlice097To100();
    FunctionSlice101To104();
    FunctionSlice105To108();
    FunctionSlice109To112();
    FunctionSlice113To116();
    FunctionSlice117To120();
    FunctionSlice121To123();
  }

  lemma FunctionRows062To123Linked()
    ensures forall i | 92 <= i < 93 :: Precedes(FunctionRows062To092(i).0, FunctionRows093To123(i + 1).0)
  {
    FunctionKey092BeforeKey093();
  }

  lemma FunctionRows062To123Ok()
    ensures forall i | 62 <= i < 124 :: FunctionEntryOk(FunctionRows062To123(i))
    ensures forall i | 62 <= i < 123 :: Precedes(FunctionRows062To123(i).0, FunctionRows062To123(i + 1).0)
  {
    FunctionRows062To092Ok();
    FunctionRows093To123Ok();
    FunctionRows062To123Linked();
  }

  lemma FunctionSlice124To127()
    ensures forall i | 124 <= i < 128 :: FunctionEntryOk(FunctionRows124To153(i))
    ensures forall i | 124 <= i < 128 :: Precedes(FunctionRows124To153(i).0, FunctionRows124To153(i + 1).0)
  {
    FunctionKey124BeforeKey125();
    FunctionKey125BeforeKey126();
    FunctionKey126BeforeKey127();
    FunctionKey127BeforeKey128();
  }

  lemma FunctionSlice128To131()
    ensures forall i | 128 <= i < 132 :: FunctionEntryOk(FunctionRows124To153(i))
    ensures forall i | 128 <= i < 132 :: Precedes(FunctionRows124To153(i).0, FunctionRows124To153(i + 1).0)
  {
    FunctionKey128BeforeKey129();
    FunctionKey129BeforeKey130();
    FunctionKey130BeforeKey131();
    FunctionKey131BeforeKey132();
  }

  lemma FunctionSlice132To135()
    ensures forall i | 132 <= i < 136 :: FunctionEntryOk(FunctionRows124To153(i))
    ensures forall i | 132 <= i < 136 :: Precedes(FunctionRows124To153(i).0, FunctionRows124To153(i + 1).0)
  {
    FunctionKey132BeforeKey133();
    FunctionKey133BeforeKey134();
    FunctionKey134BeforeKey135();
    FunctionKey135BeforeKey136();
  }

  lemma FunctionSlice136To139()
    ensures forall i | 136 <= i < 140 :: FunctionEntryOk(FunctionRows124To153(i))
    ensures forall i | 136 <= i < 140 :: Precedes(FunctionRows124To153(i).0, FunctionRows124To153(i + 1).0)
  {
    FunctionKey136BeforeKey137();
    FunctionKey137BeforeKey138();
    FunctionKey138BeforeKey139();
    FunctionKey139BeforeKey140();
  }

  lemma FunctionSlice140To143()
    ensures forall i | 140 <= i < 144 :: FunctionEntryOk(FunctionRows124To153(i))
    ensures forall i | 140 <= i < 144 :: Precedes(FunctionRows124To153(i).0, FunctionRows124To153(i + 1).0)
  {
    FunctionKey140BeforeKey141();
    FunctionKey141BeforeKey142();
    FunctionKey142BeforeKey143();
    FunctionKey143BeforeKey144();
  }

  lemma FunctionSlice144To147()
    ensures forall i | 144 <= i < 148 :: FunctionEntryOk(FunctionRows124To153(i))
    ensures forall i | 144 <= i < 148 :: Precedes(FunctionRows124To153(i).0, FunctionRows124To153(i + 1).0)
  {
    FunctionKey144BeforeKey145();
    FunctionKey145BeforeKey146();
    FunctionKey146BeforeKey147();
    FunctionKey147BeforeKey148();
  }

  lemma FunctionSlice148To151()
    ensures forall i | 148 <= i < 152 :: FunctionEntryOk(FunctionRows124To153(i))
    ensures forall i | 148 <= i < 152 :: Precedes(FunctionRows124To153(i).0, FunctionRows124To153(i + 1).0)
  {
    FunctionKey148BeforeKey149();
    FunctionKey149BeforeKey150();
    FunctionKey150BeforeKey151();
    FunctionKey151BeforeKey152();
  }

  lemma FunctionSlice152To153()
    ensures forall i | 152 <= i < 154 :: FunctionEntryOk(FunctionRows124To153(i))
    ensures forall i | 152 <= i < 153 :: Precedes(FunctionRows124To153(i).0, FunctionRows124To153(i + 1).0)
  {
    FunctionKey152BeforeKey153();
  }

  lemma FunctionRows124To153Ok()
    ensures forall i | 124 <= i < 154 :: FunctionEntryOk(FunctionRows124To153(i))
    ensures forall i | 124 <= i < 153 :: Precedes(FunctionRows124To153(i).0, FunctionRows124To153(i + 1).0)
  {
    FunctionSlice124To127();
    FunctionSlice128To131();
    FunctionSlice132To135();
    FunctionSlice136To139();
    FunctionSlice140To143();
    FunctionSlice144To147();
    FunctionSlice148To151();
    FunctionSlice152To153();
  }

  lemma FunctionSlice154To157()
    ensures forall i | 154 <= i < 158 :: FunctionEntryOk(FunctionRows154To183(i))
    ensures forall i | 154 <= i < 158 :: Precedes(FunctionRows154To183(i).0, FunctionRows154To183(i + 1).0)
  {
    FunctionKey154BeforeKey155();
    FunctionKey155BeforeKey156();
    FunctionKey156BeforeKey157();
    FunctionKey157BeforeKey158();
  }

  lemma FunctionSlice158To161()
    ensures forall i | 158 <= i < 162 :: FunctionEntryOk(FunctionRows154To183(i))
    ensures forall i | 158 <= i < 162 :: Precedes(FunctionRows154To183(i).0, FunctionRows154To183(i + 1).0)
  {
    FunctionKey158BeforeKey159();
    FunctionKey159BeforeKey160();
    FunctionKey160BeforeKey161();
    FunctionKey161BeforeKey162();
  }

  lemma FunctionSlice162To165()
    ensures forall i | 162 <= i < 166 :: FunctionEntryOk(FunctionRows154To183(i))
    ensures forall i | 162 <= i < 166 :: Precedes(FunctionRows154To183(i).0, FunctionRows154To183(i + 1).0)
  {
    FunctionKey162BeforeKey163();
    FunctionKey163BeforeKey164();
    FunctionKey164BeforeKey165();
    FunctionKey165BeforeKey166();
  }

  lemma FunctionSlice166To169()
    ensures forall i | 166 <= i < 170 :: FunctionEntryOk(FunctionRows154To183(i))
    ensures forall i | 166 <= i < 170 :: Precedes(FunctionRows154To183(i).0, FunctionRows154To183(i + 1).0)
  {
    FunctionKey166BeforeKey167();
    FunctionKey167BeforeKey168();
    FunctionKey168BeforeKey169();
    FunctionKey169BeforeKey170();
  }

  lemma FunctionSlice170To173()
    ensures forall i | 170 <= i < 174 :: FunctionEntryOk(FunctionRows154To183(i))
    ensures forall i | 170 <= i < 174 :: Precedes(FunctionRows154To183(i).0, FunctionRows154To183(i + 1).0)
  {
    FunctionKey170BeforeKey171();
    FunctionKey171BeforeKey172();
    FunctionKey172BeforeKey173();
    FunctionKey173BeforeKey174();
  }

  lemma FunctionSlice174To177()
    ensures forall i | 174 <= i < 178 :: FunctionEntryOk(FunctionRows154To183(i))
    ensures forall i | 174 <= i < 178 :: Precedes(FunctionRows154To183(i).0, FunctionRows154To183(i + 1).0)
  {
    FunctionKey174BeforeKey175();
    FunctionKey175BeforeKey176();
    FunctionKey176BeforeKey177();
    FunctionKey177BeforeKey178();
  }

  lemma FunctionSlice178To181()
    ensures forall i | 178 <= i < 182 :: FunctionEntryOk(FunctionRows154To183(i))
    ensures forall i | 178 <= i < 182 :: Precedes(FunctionRows154To183(i).0, FunctionRows154To183(i + 1).0)
  {
    FunctionKey178BeforeKey179();
    FunctionKey179BeforeKey180();
    FunctionKey180BeforeKey181();
    FunctionKey181BeforeKey182();
  }

  lemma FunctionSlice182To183()
    ensures forall i | 182 <= i < 184 :: FunctionEntryOk(FunctionRows154To183(i))
    ensures forall i | 182 <= i < 183 :: Precedes(FunctionRows154To183(i).0, FunctionRows154To183(i + 1).0)
  {
    FunctionKey182BeforeKey183();
  }

  lemma FunctionRows154To183Ok()
    ensures forall i | 154 <= i < 184 :: FunctionEntryOk(FunctionRows154To183(i))
    ensures forall i | 154 <= i < 183 :: Precedes(FunctionRows154To183(i).0, FunctionRows154To183(i + 1).0)
  {
    FunctionSlice154To157();
    FunctionSlice158To161();
    FunctionSlice162To165();
    FunctionSlice166To169();
    FunctionSlice170To173();
    FunctionSlice174To177();
    FunctionSlice178To181();
    FunctionSlice182To183();
  }

  lemma FunctionRows124To183Linked()
    ensures forall i | 153 <= i < 154 :: Precedes(FunctionRows124To153(i).0, FunctionRows154To183(i + 1).0)
  {
    FunctionKey153BeforeKey154();
  }

  lemma FunctionRows124To183Ok()
    ensures forall i | 124 <= i < 184 :: FunctionEntryOk(FunctionRows124To183(i))
    ensures forall i | 124 <= i < 183 :: Precedes(FunctionRows124To183(i).0, FunctionRows124To183(i + 1).0)
  {
    FunctionRows124To153Ok();
    FunctionRows154To183Ok();
    FunctionRows124To183Linked();
  }

  lemma FunctionSlice184To187()
    ensures forall i | 184 <= i < 188 :: FunctionEntryOk(FunctionRows184To213(i))
    ensures forall i | 184 <= i < 188 :: Precedes(FunctionRows184To213(i).0, FunctionRows184To213(i + 1).0)
  {
    FunctionKey184BeforeKey185();
    FunctionKey185BeforeKey186();
    FunctionKey186BeforeKey187();
    FunctionKey187BeforeKey188();
  }

  lemma FunctionSlice188To191()
    ensures forall i | 188 <= i < 192 :: FunctionEntryOk(FunctionRows184To213(i))
    ensures forall i | 188 <= i < 192 :: Precedes(FunctionRows184To213(i).0, FunctionRows184To213(i + 1).0)
  {
    FunctionKey188BeforeKey189();
    FunctionKey189BeforeKey190();
    FunctionKey190BeforeKey191();
    FunctionKey191BeforeKey192();
  }

  lemma FunctionSlice192To195()
    ensures forall i | 192 <= i < 196 :: FunctionEntryOk(FunctionRows184To213(i))
    ensures forall i | 192 <= i < 196 :: Precedes(FunctionRows184To213(i).0, FunctionRows184To213(i + 1).0)
  {
    FunctionKey192BeforeKey193();
    FunctionKey193BeforeKey194();
    FunctionKey194BeforeKey195();
    FunctionKey195BeforeKey196();
  }

  lemma FunctionSlice196To199()
    ensures forall i | 196 <= i < 200 :: FunctionEntryOk(FunctionRows184To213(i))
    ensures forall i | 196 <= i < 200 :: Precedes(FunctionRows184To213(i).0, FunctionRows184To213(i + 1).0)
  {
    FunctionKey196BeforeKey197();
    FunctionKey197BeforeKey198();
    FunctionKey198BeforeKey199();
    FunctionKey199BeforeKey200();
  }

  lemma FunctionSlice200To203()
    ensures forall i | 200 <= i < 204 :: FunctionEntryOk(FunctionRows184To213(i))
    ensures forall i | 200 <= i < 204 :: Precedes(FunctionRows184To213(i).0, FunctionRows184To213(i + 1).0)
  {
    FunctionKey200BeforeKey201();
    FunctionKey201BeforeKey202();
    FunctionKey202BeforeKey203();
    FunctionKey203BeforeKey204();
  }

  lemma FunctionSlice204To207()
    ensures forall i | 204 <= i < 208 :: FunctionEntryOk(FunctionRows184To213(i))
    ensures forall i | 204 <= i < 208 :: Precedes(FunctionRows184To213(i).0, FunctionRows184To213(i + 1).0)
  {
    FunctionKey204BeforeKey205();
    FunctionKey205BeforeKey206();
    FunctionKey206BeforeKey207();
    FunctionKey207BeforeKey208();
  }

  lemma FunctionSlice208To211()
    ensures forall i | 208 <= i < 212 :: FunctionEntryOk(FunctionRows184To213(i))
    ensures forall i | 208 <= i < 212 :: Precedes(FunctionRows184To213(i).0, FunctionRows184To213(i + 1).0)
  {
    FunctionKey208BeforeKey209();
    FunctionKey209BeforeKey210();
    FunctionKey210BeforeKey211();
    FunctionKey211BeforeKey212();
  }

  lemma FunctionSlice212To213()
    ensures forall i | 212 <= i < 214 :: FunctionEntryOk(FunctionRows184To213(i))
    ensures forall i | 212 <= i < 213 :: Precedes(FunctionRows184To213(i).0, FunctionRows184To213(i + 1).0)
  {
    FunctionKey212BeforeKey213();
  }

  lemma FunctionRows184To213Ok()
    ensures forall i | 184 <= i < 214 :: FunctionEntryOk(FunctionRows184To213(i))
    ensures forall i | 184 <= i < 213 :: Precedes(FunctionRows184To213(i).0, FunctionRows184To213(i + 1).0)
  {
    FunctionSlice184To187();
    FunctionSlice188To191();
    FunctionSlice192To195();
    FunctionSlice196To199();
    FunctionSlice200To203();
    FunctionSlice204To207();
    FunctionSlice208To211();
    FunctionSlice212To213();
  }

  lemma FunctionSlice214To217()
    ensures forall i | 214 <= i < 218 :: FunctionEntryOk(FunctionRows214To243(i))
    ensures forall i | 214 <= i < 218 :: Precedes(FunctionRows214To243(i).0, FunctionRows214To243(i + 1).0)
  {
    FunctionKey214BeforeKey215();
    FunctionKey215BeforeKey216();
    FunctionKey216BeforeKey217();
    FunctionKey217BeforeKey218();
  }

  lemma FunctionSlice218To221()
    ensures forall i | 218 <= i < 222 :: FunctionEntryOk(FunctionRows214To243(i))
    ensures forall i | 218 <= i < 222 :: Precedes(FunctionRows214To243(i).0, FunctionRows214To243(i + 1).0)
  {
    FunctionKey218BeforeKey219();
    FunctionKey219BeforeKey220();
    FunctionKey220BeforeKey221();
    FunctionKey221BeforeKey222();
  }

  lemma FunctionSlice222To225()
    ensures forall i | 222 <= i < 226 :: FunctionEntryOk(FunctionRows214To243(i))
    ensures forall i | 222 <= i < 226 :: Precedes(FunctionRows214To243(i).0, FunctionRows214To243(i + 1).0)
  {
    FunctionKey222BeforeKey223();
    FunctionKey223BeforeKey224();
    FunctionKey224BeforeKey225();
    FunctionKey225BeforeKey226();
  }

  lemma FunctionSlice226To229()
    ensures forall i | 226 <= i < 230 :: FunctionEntryOk(FunctionRows214To243(i))
    ensures forall i | 226 <= i < 230 :: Precedes(FunctionRows214To243(i).0, FunctionRows214To243(i + 1).0)
  {
    FunctionKey226BeforeKey227();
    FunctionKey227BeforeKey228();
    FunctionKey228BeforeKey229();
    FunctionKey229BeforeKey230();
  }

  lemma FunctionSlice230To233()
    ensures forall i | 230 <= i < 234 :: FunctionEntryOk(FunctionRows214To243(i))
    ensures forall i | 230 <= i < 234 :: Precedes(FunctionRows214To243(i).0, FunctionRows214To243(i + 1).0)
  {
    FunctionKey230BeforeKey231();
    FunctionKey231BeforeKey232();
    FunctionKey232BeforeKey233();
    FunctionKey233BeforeKey234();
  }

  lemma FunctionSlice234To237()
    ensures forall i | 234 <= i < 238 :: FunctionEntryOk(FunctionRows214To243(i))
    ensures forall i | 234 <= i < 238 :: Precedes(FunctionRows214To243(i).0, FunctionRows214To243(i + 1).0)
  {
    FunctionKey234BeforeKey235();
    FunctionKey235BeforeKey236();
    FunctionKey236BeforeKey237();
    FunctionKey237BeforeKey238();
  }

  lemma FunctionSlice238To241()
    ensures forall i | 238 <= i < 242 :: FunctionEntryOk(FunctionRows214To243(i))
    ensures forall i | 238 <= i < 242 :: Precedes(FunctionRows214To243(i).0, FunctionRows214To243(i + 1).0)
  {
    FunctionKey238BeforeKey239();
    FunctionKey239BeforeKey240();
    FunctionKey240BeforeKey241();
    FunctionKey241BeforeKey242();
  }

  lemma FunctionSlice242To243()
    ensures forall i | 242 <= i < 244 :: FunctionEntryOk(FunctionRows214To243(i))
    ensures forall i | 242 <= i < 243 :: Precedes(FunctionRows214To243(i).0, FunctionRows214To243(i + 1).0)
  {
    FunctionKey242BeforeKey243();
  }

  lemma FunctionRows214To243Ok()
    ensures forall i | 214 <= i < 244 :: FunctionEntryOk(FunctionRows214To243(i))
    ensures forall i | 214 <= i < 243 :: Precedes(FunctionRows214To243(i).0, FunctionRows214To243(i + 1).0)
  {
    FunctionSlice214To217();
    FunctionSlice218To221();
    FunctionSlice222To225();
    FunctionSlice226To229();
    FunctionSlice230To233();
    FunctionSlice234To237();
    FunctionSlice238To241();
    FunctionSlice242To243();
  }

  lemma FunctionRows184To243Linked()
    ensures forall i | 213 <= i < 214 :: Precedes(FunctionRows184To213(i).0, FunctionRows214To243(i + 1).0)
  {
    FunctionKey213BeforeKey214();
  }

  lemma FunctionRows184To243Ok()
    ensures forall i | 184 <= i < 244 :: FunctionEntryOk(FunctionRows184To243(i))
    ensures forall i | 184 <= i < 243 :: Precedes(FunctionRows184To243(i).0, FunctionRows184To243(i + 1).0)
  {
    FunctionRows184To213Ok();
    FunctionRows214To243Ok();
    FunctionRows184To243Linked();
  }

  lemma FunctionSlice244To247()
    ensures forall i | 244 <= i < 248 :: FunctionEntryOk(FunctionRows244To273(i))
    ensures forall i | 244 <= i < 248 :: Precedes(FunctionRows244To273(i).0, FunctionRows244To273(i + 1).0)
  {
    FunctionKey244BeforeKey245();
    FunctionKey245BeforeKey246();
    FunctionKey246BeforeKey247();
    FunctionKey247BeforeKey248();
  }

  lemma FunctionSlice248To251()
    ensures forall i | 248 <= i < 252 :: FunctionEntryOk(FunctionRows244To273(i))
    ensures forall i | 248 <= i < 252 :: Precedes(FunctionRows244To273(i).0, FunctionRows244To273(i + 1).0)
  {
    FunctionKey248BeforeKey249();
    FunctionKey249BeforeKey250();
    FunctionKey250BeforeKey251();
    FunctionKey251BeforeKey252();
  }

  lemma FunctionSlice252To255()
    ensures forall i | 252 <= i < 256 :: FunctionEntryOk(FunctionRows244To273(i))
    ensures forall i | 252 <= i < 256 :: Precedes(FunctionRows244To273(i).0, FunctionRows244To273(i + 1).0)
  {
    FunctionKey252BeforeKey253();
    FunctionKey253BeforeKey254();
    FunctionKey254BeforeKey255();
    FunctionKey255BeforeKey256();
  }

  lemma FunctionSlice256To259()
    ensures forall i | 256 <= i < 260 :: FunctionEntryOk(FunctionRows244To273(i))
    ensures forall i | 256 <= i < 260 :: Precedes(FunctionRows244To273(i).0, FunctionRows244To273(i + 1).0)
  {
    FunctionKey256BeforeKey257();
    FunctionKey257BeforeKey258();
    FunctionKey258BeforeKey259();
    FunctionKey259BeforeKey260();
  }

  lemma FunctionSlice260To263()
    ensures forall i | 260 <= i < 264 :: FunctionEntryOk(FunctionRows244To273(i))
    ensures forall i | 260 <= i < 264 :: Precedes(FunctionRows244To273(i).0, FunctionRows244To273(i + 1).0)
  {
    FunctionKey260BeforeKey261();
    FunctionKey261BeforeKey262();
    FunctionKey262BeforeKey263();
    FunctionKey263BeforeKey264();
  }

  lemma FunctionSlice264To267()
    ensures forall i | 264 <= i < 268 :: FunctionEntryOk(FunctionRows244To273(i))
    ensures forall i | 264 <= i < 268 :: Precedes(FunctionRows244To273(i).0, FunctionRows244To273(i + 1).0)
  {
    FunctionKey264BeforeKey265();
    FunctionKey265BeforeKey266();
    FunctionKey266BeforeKey267();
    FunctionKey267BeforeKey268();
  }

  lemma FunctionSlice268To271()
    ensures forall i | 268 <= i < 272 :: FunctionEntryOk(FunctionRows244To273(i))
    ensures forall i | 268 <= i < 272 :: Precedes(FunctionRows244To273(i).0, FunctionRows244To273(i + 1).0)
  {
    FunctionKey268BeforeKey269();
    FunctionKey269BeforeKey270();
    FunctionKey270BeforeKey271();
    FunctionKey271BeforeKey272();
  }

  lemma FunctionSlice272To273()
    ensures forall i | 272 <= i < 274 :: FunctionEntryOk(FunctionRows244To273(i))
    ensures forall i | 272 <= i < 273 :: Precedes(FunctionRows244To273(i).0, FunctionRows244To273(i + 1).0)
  {
    FunctionKey272BeforeKey273();
  }

  lemma FunctionRows244To273Ok()
    ensures forall i | 244 <= i < 274 :: FunctionEntryOk(FunctionRows244To273(i))
    ensures forall i | 244 <= i < 273 :: Precedes(FunctionRows244To273(i).0, FunctionRows244To273(i + 1).0)
  {
    FunctionSlice244To247();
    FunctionSlice248To251();
    FunctionSlice252To255();
    FunctionSlice256To259();
    FunctionSlice260To263();
    FunctionSlice264To267();
    FunctionSlice268To271();
    FunctionSlice272To273();
  }

  lemma FunctionSlice274To277()
    ensures forall i | 274 <= i < 278 :: FunctionEntryOk(FunctionRows274To303(i))
    ensures forall i | 274 <= i < 278 :: Precedes(FunctionRows274To303(i).0, FunctionRows274To303(i + 1).0)
  {
    FunctionKey274BeforeKey275();
    FunctionKey275BeforeKey276();
    FunctionKey276BeforeKey277();
    FunctionKey277BeforeKey278();
  }

  lemma FunctionSlice278To281()
    ensures forall i | 278 <= i < 282 :: FunctionEntryOk(FunctionRows274To303(i))
    ensures forall i | 278 <= i < 282 :: Precedes(FunctionRows274To303(i).0, FunctionRows274To303(i + 1).0)
  {
    FunctionKey278BeforeKey279();
    FunctionKey279BeforeKey280();
    FunctionKey280BeforeKey281();
    FunctionKey281BeforeKey282();
  }

  lemma FunctionSlice282To285()
    ensures forall i | 282 <= i < 286 :: FunctionEntryOk(FunctionRows274To303(i))
    ensures forall i | 282 <= i < 286 :: Precedes(FunctionRows274To303(i).0, FunctionRows274To303(i + 1).0)
  {
    FunctionKey282BeforeKey283();
    FunctionKey283BeforeKey284();
    FunctionKey284BeforeKey285();
    FunctionKey285BeforeKey286();
  }

  lemma FunctionSlice286To289()
    ensures forall i | 286 <= i < 290 :: FunctionEntryOk(FunctionRows274To303(i))
    ensures forall i | 286 <= i < 290 :: Precedes(FunctionRows274To303(i).0, FunctionRows274To303(i + 1).0)
  {
    FunctionKey286BeforeKey287();
    FunctionKey287BeforeKey288();
    FunctionKey288BeforeKey289();
    FunctionKey289BeforeKey290();
  }

  lemma FunctionSlice290To293()
    ensures forall i | 290 <= i < 294 :: FunctionEntryOk(FunctionRows274To303(i))
    ensures forall i | 290 <= i < 294 :: Precedes(FunctionRows274To303(i).0, FunctionRows274To303(i + 1).0)
  {
    FunctionKey290BeforeKey291();
    FunctionKey291BeforeKey292();
    FunctionKey292BeforeKey293();
    FunctionKey293BeforeKey294();
  }

  lemma FunctionSlice294To297()
    ensures forall i | 294 <= i < 298 :: FunctionEntryOk(FunctionRows274To303(i))
    ensures forall i | 294 <= i < 298 :: Precedes(FunctionRows274To303(i).0, FunctionRows274To303(i + 1).0)
  {
    FunctionKey294BeforeKey295();
    FunctionKey295BeforeKey296();
    FunctionKey296BeforeKey297();
    FunctionKey297BeforeKey298();
  }

  lemma FunctionSlice298To301()
    ensures forall i | 298 <= i < 302 :: FunctionEntryOk(FunctionRows274To303(i))
    ensures forall i | 298 <= i < 302 :: Precedes(FunctionRows274To303(i).0, FunctionRows274To303(i + 1).0)
  {
    FunctionKey298BeforeKey299();
    FunctionKey299BeforeKey300();
    FunctionKey300BeforeKey301();
    FunctionKey301BeforeKey302();
  }

  lemma FunctionSlice302To303()
    ensures forall i | 302 <= i < 304 :: FunctionEntryOk(FunctionRows274To303(i))
    ensures forall i | 302 <= i < 303 :: Precedes(FunctionRows274To303(i).0, FunctionRows274To303(i + 1).0)
  {
    FunctionKey302BeforeKey303();
  }

  lemma FunctionRows274To303Ok()
    ensures forall i | 274 <= i < 304 :: FunctionEntryOk(FunctionRows274To303(i))
    ensures forall i | 274 <= i < 303 :: Precedes(FunctionRows274To303(i).0, FunctionRows274To303(i + 1).0)
  {
    FunctionSlice274To277();
    FunctionSlice278To281();
    FunctionSlice282To285();
    FunctionSlice286To289();
    FunctionSlice290To293();
    FunctionSlice294To297();
    FunctionSlice298To301();
    FunctionSlice302To303();
  }

  lemma FunctionRows244To303Linked()
    ensures forall i | 273 <= i < 274 :: Precedes(FunctionRows244To273(i).0, FunctionRows274To303(i + 1).0)
  {
    FunctionKey273BeforeKey274();
  }

  lemma FunctionRows244To303Ok()
    ensures forall i | 244 <= i < 304 :: FunctionEntryOk(FunctionRows244To303(i))
    ensures forall i | 244 <= i < 303 :: Precedes(FunctionRows244To303(i).0, FunctionRows244To303(i + 1).0)
  {
    FunctionRows244To273Ok();
    FunctionRows274To303Ok();
    FunctionRows244To303Linked();
  }

  lemma FunctionSlice304To307()
    ensures forall i | 304 <= i < 308 :: FunctionEntryOk(FunctionRows304To333(i))
    ensures forall i | 304 <= i < 308 :: Precedes(FunctionRows304To333(i).0, FunctionRows304To333(i + 1).0)
  {
    FunctionKey304BeforeKey305();
    FunctionKey305BeforeKey306();
    FunctionKey306BeforeKey307();
    FunctionKey307BeforeKey308();
  }

  lemma FunctionSlice308To311()
    ensures forall i | 308 <= i < 312 :: FunctionEntryOk(FunctionRows304To333(i))
    ensures forall i | 308 <= i < 312 :: Precedes(FunctionRows304To333(i).0, FunctionRows304To333(i + 1).0)
  {
    FunctionKey308BeforeKey309();
    FunctionKey309BeforeKey310();
    FunctionKey310BeforeKey311();
    FunctionKey311BeforeKey312();
  }

  lemma FunctionSlice312To315()
    ensures forall i | 312 <= i < 316 :: FunctionEntryOk(FunctionRows304To333(i))
    ensures forall i | 312 <= i < 316 :: Precedes(FunctionRows304To333(i).0, FunctionRows304To333(i + 1).0)
  {
    FunctionKey312BeforeKey313();
    FunctionKey313BeforeKey314();
    FunctionKey314BeforeKey315();
    FunctionKey315BeforeKey316();
  }

  lemma FunctionSlice316To319()
    ensures forall i | 316 <= i < 320 :: FunctionEntryOk(FunctionRows304To333(i))
    ensures forall i | 316 <= i < 320 :: Precedes(FunctionRows304To333(i).0, FunctionRows304To333(i + 1).0)
  {
    FunctionKey316BeforeKey317();
    FunctionKey317BeforeKey318();
    FunctionKey318BeforeKey319();
    FunctionKey319BeforeKey320();
  }

  lemma FunctionSlice320To323()
    ensures forall i | 320 <= i < 324 :: FunctionEntryOk(FunctionRows304To333(i))
    ensures forall i | 320 <= i < 324 :: Precedes(FunctionRows304To333(i).0, FunctionRows304To333(i + 1).0)
  {
    FunctionKey320BeforeKey321();
    FunctionKey321BeforeKey322();
    FunctionKey322BeforeKey323();
    FunctionKey323BeforeKey324();
  }

  lemma FunctionSlice324To327()
    ensures forall i | 324 <= i < 328 :: FunctionEntryOk(FunctionRows304To333(i))
    ensures forall i | 324 <= i < 328 :: Precedes(FunctionRows304To333(i).0, FunctionRows304To333(i + 1).0)
  {
    FunctionKey324BeforeKey325();
    FunctionKey325BeforeKey326();
    FunctionKey326BeforeKey327();
    FunctionKey327BeforeKey328();
  }

  lemma FunctionSlice328To331()
    ensures forall i | 328 <= i < 332 :: FunctionEntryOk(FunctionRows304To333(i))
    ensures forall i | 328 <= i < 332 :: Precedes(FunctionRows304To333(i).0, FunctionRows304To333(i + 1).0)
  {
    FunctionKey328BeforeKey329();
    FunctionKey329BeforeKey330();
    FunctionKey330BeforeKey331();
    FunctionKey331BeforeKey332();
  }

  lemma FunctionSlice332To333()
    ensures forall i | 332 <= i < 334 :: FunctionEntryOk(FunctionRows304To333(i))
    ensures forall i | 332 <= i < 333 :: Precedes(FunctionRows304To333(i).0, FunctionRows304To333(i + 1).0)
  {
    FunctionKey332BeforeKey333();
  }

  lemma FunctionRows304To333Ok()
    ensures forall i | 304 <= i < 334 :: FunctionEntryOk(FunctionRows304To333(i))
    ensures forall i | 304 <= i < 333 :: Precedes(FunctionRows304To333(i).0, FunctionRows304To333(i + 1).0)
  {
    FunctionSlice304To307();
    FunctionSlice308To311();
    FunctionSlice312To315();
    FunctionSlice316To319();
    FunctionSlice320To323();
    FunctionSlice324To327();
    FunctionSlice328To331();
    FunctionSlice332To333();
  }

  lemma FunctionSlice334To337()
    ensures forall i | 334 <= i < 338 :: FunctionEntryOk(FunctionRows334To363(i))
    ensures forall i | 334 <= i < 338 :: Precedes(FunctionRows334To363(i).0, FunctionRows334To363(i + 1).0)
  {
    FunctionKey334BeforeKey335();
    FunctionKey335BeforeKey336();
    FunctionKey336BeforeKey337();
    FunctionKey337BeforeKey338();
  }

  lemma FunctionSlice338To341()
    ensures forall i | 338 <= i < 342 :: FunctionEntryOk(FunctionRows334To363(i))
    ensures forall i | 338 <= i < 342 :: Precedes(FunctionRows334To363(i).0, FunctionRows334To363(i + 1).0)
  {
    FunctionKey338BeforeKey339();
    FunctionKey339BeforeKey340();
    FunctionKey340BeforeKey341();
    FunctionKey341BeforeKey342();
  }

  lemma FunctionSlice342To345()
    ensures forall i | 342 <= i < 346 :: FunctionEntryOk(FunctionRows334To363(i))
    ensures forall i | 342 <= i < 346 :: Precedes(FunctionRows334To363(i).0, FunctionRows334To363(i + 1).0)
  {
    FunctionKey342BeforeKey343();
    FunctionKey343BeforeKey344();
    FunctionKey344BeforeKey345();
    FunctionKey345BeforeKey346();
  }

  lemma FunctionSlice346To349()
    ensures forall i | 346 <= i < 350 :: FunctionEntryOk(FunctionRows334To363(i))
    ensures forall i | 346 <= i < 350 :: Precedes(FunctionRows334To363(i).0, FunctionRows334To363(i + 1).0)
  {
    FunctionKey346BeforeKey347();
    FunctionKey347BeforeKey348();
    FunctionKey348BeforeKey349();
    FunctionKey349BeforeKey350();
  }

  lemma FunctionSlice350To353()
    ensures forall i | 350 <= i < 354 :: FunctionEntryOk(FunctionRows334To363(i))
    ensures forall i | 350 <= i < 354 :: Precedes(FunctionRows334To363(i).0, FunctionRows334To363(i + 1).0)
  {
    FunctionKey350BeforeKey351();
    FunctionKey351BeforeKey352();
    FunctionKey352BeforeKey353();
    FunctionKey353BeforeKey354();
  }

  lemma FunctionSlice354To357()
    ensures forall i | 354 <= i < 358 :: FunctionEntryOk(FunctionRows334To363(i))
    ensures forall i | 354 <= i < 358 :: Precedes(FunctionRows334To363(i).0, FunctionRows334To363(i + 1).0)
  {
    FunctionKey354BeforeKey355();
    FunctionKey355BeforeKey356();
    FunctionKey356BeforeKey357();
    FunctionKey357BeforeKey358();
  }

  lemma FunctionSlice358To361()
    ensures forall i | 358 <= i < 362 :: FunctionEntryOk(FunctionRows334To363(i))
    ensures forall i | 358 <= i < 362 :: Precedes(FunctionRows334To363(i).0, FunctionRows334To363(i + 1).0)
  {
    FunctionKey358BeforeKey359();
    FunctionKey359BeforeKey360();
    FunctionKey360BeforeKey361();
    FunctionKey361BeforeKey362();
  }

  lemma FunctionSlice362To363()
    ensures forall i | 362 <= i < 364 :: FunctionEntryOk(FunctionRows334To363(i))
    ensures forall i | 362 <= i < 363 :: Precedes(FunctionRows334To363(i).0, FunctionRows334To363(i + 1).0)
  {
    FunctionKey362BeforeKey363();
  }

  lemma FunctionRows334To363Ok()
    ensures forall i | 334 <= i < 364 :: FunctionEntryOk(FunctionRows334To363(i))
    ensures forall i | 334 <= i < 363 :: Precedes(FunctionRows334To363(i).0, FunctionRows334To363(i + 1).0)
  {
    FunctionSlice334To337();
    FunctionSlice338To341();
    FunctionSlice342To345();
    FunctionSlice346To349();
    FunctionSlice350To353();
    FunctionSlice354To357();
    FunctionSlice358To361();
    FunctionSlice362To363();
  }

  lemma FunctionRows304To363Linked()
    ensures forall i | 333 <= i < 334 :: Precedes(FunctionRows304To333(i).0, FunctionRows334To363(i + 1).0)
  {
    FunctionKey333BeforeKey334();
  }

  lemma FunctionRows304To363Ok()
    ensures forall i | 304 <= i < 364 :: FunctionEntryOk(FunctionRows304To363(i))
    ensures forall i | 304 <= i < 363 :: Precedes(FunctionRows304To363(i).0, FunctionRows304To363(i + 1).0)
  {
    FunctionRows304To333Ok();
    FunctionRows334To363Ok();
    FunctionRows304To363Linked();
  }

  lemma FunctionSlice364To367()
    ensures forall i | 364 <= i < 368 :: FunctionEntryOk(FunctionRows364To393(i))
    ensures forall i | 364 <= i < 368 :: Precedes(FunctionRows364To393(i).0, FunctionRows364To393(i + 1).0)
  {
    FunctionKey364BeforeKey365();
    FunctionKey365BeforeKey366();
    FunctionKey366BeforeKey367();
    FunctionKey367BeforeKey368();
  }

  lemma FunctionSlice368To371()
    ensures forall i | 368 <= i < 372 :: FunctionEntryOk(FunctionRows364To393(i))
    ensures forall i | 368 <= i < 372 :: Precedes(FunctionRows364To393(i).0, FunctionRows364To393(i + 1).0)
  {
    FunctionKey368BeforeKey369();
    FunctionKey369BeforeKey370();
    FunctionKey370BeforeKey371();
    FunctionKey371BeforeKey372();
  }

  lemma FunctionSlice372To375()
    ensures forall i | 372 <= i < 376 :: FunctionEntryOk(FunctionRows364To393(i))
    ensures forall i | 372 <= i < 376 :: Precedes(FunctionRows364To393(i).0, FunctionRows364To393(i + 1).0)
  {
    FunctionKey372BeforeKey373();
    FunctionKey373BeforeKey374();
    FunctionKey374BeforeKey375();
    FunctionKey375BeforeKey376();
  }

  lemma FunctionSlice376To379()
    ensures forall i | 376 <= i < 380 :: FunctionEntryOk(FunctionRows364To393(i))
    ensures forall i | 376 <= i < 380 :: Precedes(FunctionRows364To393(i).0, FunctionRows364To393(i + 1).0)
  {
    FunctionKey376BeforeKey377();
    FunctionKey377BeforeKey378();
    FunctionKey378BeforeKey379();
    FunctionKey379BeforeKey380();
  }

  lemma FunctionSlice380To383()
    ensures forall i | 380 <= i < 384 :: FunctionEntryOk(FunctionRows364To393(i))
    ensures forall i | 380 <= i < 384 :: Precedes(FunctionRows364To393(i).0, FunctionRows364To393(i + 1).0)
  {
    FunctionKey380BeforeKey381();
    FunctionKey381BeforeKey382();
    FunctionKey382BeforeKey383();
    FunctionKey383BeforeKey384();
  }

  lemma FunctionSlice384To387()
    ensures forall i | 384 <= i < 388 :: FunctionEntryOk(FunctionRows364To393(i))
    ensures forall i | 384 <= i < 388 :: Precedes(FunctionRows364To393(i).0, FunctionRows364To393(i + 1).0)
  {
    FunctionKey384BeforeKey385();
    FunctionKey385BeforeKey386();
    FunctionKey386BeforeKey387();
    FunctionKey387BeforeKey388();
  }

  lemma FunctionSlice388To391()
    ensures forall i | 388 <= i < 392 :: FunctionEntryOk(FunctionRows364To393(i))
    ensures forall i | 388 <= i < 392 :: Precedes(FunctionRows364To393(i).0, FunctionRows364To393(i + 1).0)
  {
    FunctionKey388BeforeKey389();
    FunctionKey389BeforeKey390();
    FunctionKey390BeforeKey391();
    FunctionKey391BeforeKey392();
  }

  lemma FunctionSlice392To393()
    ensures forall i | 392 <= i < 394 :: FunctionEntryOk(FunctionRows364To393(i))
    ensures forall i | 392 <= i < 393 :: Precedes(FunctionRows364To393(i).0, FunctionRows364To393(i + 1).0)
  {
    FunctionKey392BeforeKey393();
  }

  lemma FunctionRows364To393Ok()
    ensures forall i | 364 <= i < 394 :: FunctionEntryOk(FunctionRows364To393(i))
    ensures forall i | 364 <= i < 393 :: Precedes(FunctionRows364To393(i).0, FunctionRows364To393(i + 1).0)
  {
    FunctionSlice364To367();
    FunctionSlice368To371();
    FunctionSlice372To375();
    FunctionSlice376To379();
    FunctionSlice380To383();
    FunctionSlice384To387();
    FunctionSlice388To391();
    FunctionSlice392To393();
  }

  lemma FunctionSlice394To397()
    ensures forall i | 394 <= i < 398 :: FunctionEntryOk(FunctionRows394To423(i))
    ensures forall i | 394 <= i < 398 :: Precedes(FunctionRows394To423(i).0, FunctionRows394To423(i + 1).0)
  {
    FunctionKey394BeforeKey395();
    FunctionKey395BeforeKey396();
    FunctionKey396BeforeKey397();
    FunctionKey397BeforeKey398();
  }

  lemma FunctionSlice398To401()
    ensures forall i | 398 <= i < 402 :: FunctionEntryOk(FunctionRows394To423(i))
    ensures forall i | 398 <= i < 402 :: Precedes(FunctionRows394To423(i).0, FunctionRows394To423(i + 1).0)
  {
    FunctionKey398BeforeKey399();
    FunctionKey399BeforeKey400();
    FunctionKey400BeforeKey401();
    FunctionKey401BeforeKey402();
  }

  lemma FunctionSlice402To405()
    ensures forall i | 402 <= i < 406 :: FunctionEntryOk(FunctionRows394To423(i))
    ensures forall i | 402 <= i < 406 :: Precedes(FunctionRows394To423(i).0, FunctionRows394To423(i + 1).0)
  {
    FunctionKey402BeforeKey403();
    FunctionKey403BeforeKey404();
    FunctionKey404BeforeKey405();
    FunctionKey405BeforeKey406();
  }

  lemma FunctionSlice406To409()
    ensures forall i | 406 <= i < 410 :: FunctionEntryOk(FunctionRows394To423(i))
    ensures forall i | 406 <= i < 410 :: Precedes(FunctionRows394To423(i).0, FunctionRows394To423(i + 1).0)
  {
    FunctionKey406BeforeKey407();
    FunctionKey407BeforeKey408();
    FunctionKey408BeforeKey409();
    FunctionKey409BeforeKey410();
  }

  lemma FunctionSlice410To413()
    ensures forall i | 410 <= i < 414 :: FunctionEntryOk(FunctionRows394To423(i))
    ensures forall i | 410 <= i < 414 :: Precedes(FunctionRows394To423(i).0, FunctionRows394To423(i + 1).0)
  {
    FunctionKey410BeforeKey411();
    FunctionKey411BeforeKey412();
    FunctionKey412BeforeKey413();
    FunctionKey413BeforeKey414();
  }

  lemma FunctionSlice414To417()
    ensures forall i | 414 <= i < 418 :: FunctionEntryOk(FunctionRows394To423(i))
    ensures forall i | 414 <= i < 418 :: Precedes(FunctionRows394To423(i).0, FunctionRows394To423(i + 1).0)
  {
    FunctionKey414BeforeKey415();
    FunctionKey415BeforeKey416();
    FunctionKey416BeforeKey417();
    FunctionKey417BeforeKey418();
  }

  lemma FunctionSlice418To421()
    ensures forall i | 418 <= i < 422 :: FunctionEntryOk(FunctionRows394To423(i))
    ensures forall i | 418 <= i < 422 :: Precedes(FunctionRows394To423(i).0, FunctionRows394To423(i + 1).0)
  {
    FunctionKey418BeforeKey419();
    FunctionKey419BeforeKey420();
    FunctionKey420BeforeKey421();
    FunctionKey421BeforeKey422();
  }

  lemma FunctionSlice422To423()
    ensures forall i | 422 <= i < 424 :: FunctionEntryOk(FunctionRows394To423(i))
    ensures forall i | 422 <= i < 423 :: Precedes(FunctionRows394To423(i).0, FunctionRows394To423(i + 1).0)
  {
    FunctionKey422BeforeKey423();
  }

  lemma FunctionRows394To423Ok()
    ensures forall i | 394 <= i < 424 :: FunctionEntryOk(FunctionRows394To423(i))
    ensures forall i | 394 <= i < 423 :: Precedes(FunctionRows394To423(i).0, FunctionRows394To423(i + 1).0)
  {
    FunctionSlice394To397();
    FunctionSlice398To401();
    FunctionSlice402To405();
    FunctionSlice406To409();
    FunctionSlice410To413();
    FunctionSlice414To417();
    FunctionSlice418To421();
    FunctionSlice422To423();
  }

  lemma FunctionRows364To423Linked()
    ensures forall i | 393 <= i < 394 :: Precedes(FunctionRows364To393(i).0, FunctionRows394To423(i + 1).0)
  {
    FunctionKey393BeforeKey394();
  }

  lemma FunctionRows364To423Ok()
    ensures forall i | 364 <= i < 424 :: FunctionEntryOk(FunctionRows364To423(i))
    ensures forall i | 364 <= i < 423 :: Precedes(FunctionRows364To423(i).0, FunctionRows364To423(i + 1).0)
  {
    FunctionRows364To393Ok();
    FunctionRows394To423Ok();
    FunctionRows364To423Linked();
  }

  lemma FunctionSlice424To427()
    ensures forall i | 424 <= i < 428 :: FunctionEntryOk(FunctionRows424To453(i))
    ensures forall i | 424 <= i < 428 :: Precedes(FunctionRows424To453(i).0, FunctionRows424To453(i + 1).0)
  {
    FunctionKey424BeforeKey425();
    FunctionKey425BeforeKey426();
    FunctionKey426BeforeKey427();
    FunctionKey427BeforeKey428();
  }

  lemma FunctionSlice428To431()
    ensures forall i | 428 <= i < 432 :: FunctionEntryOk(FunctionRows424To453(i))
    ensures forall i | 428 <= i < 432 :: Precedes(FunctionRows424To453(i).0, FunctionRows424To453(i + 1).0)
  {
    FunctionKey428BeforeKey429();
    FunctionKey429BeforeKey430();
    FunctionKey430BeforeKey431();
    FunctionKey431BeforeKey432();
  }

  lemma FunctionSlice432To435()
    ensures forall i | 432 <= i < 436 :: FunctionEntryOk(FunctionRows424To453(i))
    ensures forall i | 432 <= i < 436 :: Precedes(FunctionRows424To453(i).0, FunctionRows424To453(i + 1).0)
  {
    FunctionKey432BeforeKey433();
    FunctionKey433BeforeKey434();
    FunctionKey434BeforeKey435();
    FunctionKey435BeforeKey436();
  }

  lemma FunctionSlice436To439()
    ensures forall i | 436 <= i < 440 :: FunctionEntryOk(FunctionRows424To453(i))
    ensures forall i | 436 <= i < 440 :: Precedes(FunctionRows424To453(i).0, FunctionRows424To453(i + 1).0)
  {
    FunctionKey436BeforeKey437();
    FunctionKey437BeforeKey438();
    FunctionKey438BeforeKey439();
    FunctionKey439BeforeKey440();
  }

  lemma FunctionSlice440To443()
    ensures forall i | 440 <= i < 444 :: FunctionEntryOk(FunctionRows424To453(i))
    ensures forall i | 440 <= i < 444 :: Precedes(FunctionRows424To453(i).0, FunctionRows424To453(i + 1).0)
  {
    FunctionKey440BeforeKey441();
    FunctionKey441BeforeKey442();
    FunctionKey442BeforeKey443();
    FunctionKey443BeforeKey444();
  }

  lemma FunctionSlice444To447()
    ensures forall i | 444 <= i < 448 :: FunctionEntryOk(FunctionRows424To453(i))
    ensures forall i | 444 <= i < 448 :: Precedes(FunctionRows424To453(i).0, FunctionRows424To453(i + 1).0)
  {
    FunctionKey444BeforeKey445();
    FunctionKey445BeforeKey446();
    FunctionKey446BeforeKey447();
    FunctionKey447BeforeKey448();
  }

  lemma FunctionSlice448To451()
    ensures forall i | 448 <= i < 452 :: FunctionEntryOk(FunctionRows424To453(i))
    ensures forall i | 448 <= i < 452 :: Precedes(FunctionRows424To453(i).0, FunctionRows424To453(i + 1).0)
  {
    FunctionKey448BeforeKey449();
    FunctionKey449BeforeKey450();
    FunctionKey450BeforeKey451();
    FunctionKey451BeforeKey452();
  }

  lemma FunctionSlice452To453()
    ensures forall i | 452 <= i < 454 :: FunctionEntryOk(FunctionRows424To453(i))
    ensures forall i | 452 <= i < 453 :: Precedes(FunctionRows424To453(i).0, FunctionRows424To453(i + 1).0)
  {
    FunctionKey452BeforeKey453();
  }

  lemma FunctionRows424To453Ok()
    ensures forall i | 424 <= i < 454 :: FunctionEntryOk(FunctionRows424To453(i))
    ensures forall i | 424 <= i < 453 :: Precedes(FunctionRows424To453(i).0, FunctionRows424To453(i + 1).0)
  {
    FunctionSlice424To427();
    FunctionSlice428To431();
    FunctionSlice432To435();
    FunctionSlice436To439();
    FunctionSlice440To443();
    FunctionSlice444To447();
    FunctionSlice448To451();
    FunctionSlice452To453();
  }

  lemma FunctionSlice454To457()
    ensures forall i | 454 <= i < 458 :: FunctionEntryOk(FunctionRows454To483(i))
    ensures forall i | 454 <= i < 458 :: Precedes(FunctionRows454To483(i).0, FunctionRows454To483(i + 1).0)
  {
    FunctionKey454BeforeKey455();
    FunctionKey455BeforeKey456();
    FunctionKey456BeforeKey457();
    FunctionKey457BeforeKey458();
  }

  lemma FunctionSlice458To461()
    ensures forall i | 458 <= i < 462 :: FunctionEntryOk(FunctionRows454To483(i))
    ensures forall i | 458 <= i < 462 :: Precedes(FunctionRows454To483(i).0, FunctionRows454To483(i + 1).0)
  {
    FunctionKey458BeforeKey459();
    FunctionKey459BeforeKey460();
    FunctionKey460BeforeKey461();
    FunctionKey461BeforeKey462();
  }

  lemma FunctionSlice462To465()
    ensures forall i | 462 <= i < 466 :: FunctionEntryOk(FunctionRows454To483(i))
    ensures forall i | 462 <= i < 466 :: Precedes(FunctionRows454To483(i).0, FunctionRows454To483(i + 1).0)
  {
    FunctionKey462BeforeKey463();
    FunctionKey463BeforeKey464();
    FunctionKey464BeforeKey465();
    FunctionKey465BeforeKey466();
  }

  lemma FunctionSlice466To469()
    ensures forall i | 466 <= i < 470 :: FunctionEntryOk(FunctionRows454To483(i))
    ensures forall i | 466 <= i < 470 :: Precedes(FunctionRows454To483(i).0, FunctionRows454To483(i + 1).0)
  {
    FunctionKey466BeforeKey467();
    FunctionKey467BeforeKey468();
    FunctionKey468BeforeKey469();
    FunctionKey469BeforeKey470();
  }

  lemma FunctionSlice470To473()
    ensures forall i | 470 <= i < 474 :: FunctionEntryOk(FunctionRows454To483(i))
    ensures forall i | 470 <= i < 474 :: Precedes(FunctionRows454To483(i).0, FunctionRows454To483(i + 1).0)
  {
    FunctionKey470BeforeKey471();
    FunctionKey471BeforeKey472();
    FunctionKey472BeforeKey473();
    FunctionKey473BeforeKey474();
  }

  lemma FunctionSlice474To477()
    ensures forall i | 474 <= i < 478 :: FunctionEntryOk(FunctionRows454To483(i))
    ensures forall i | 474 <= i < 478 :: Precedes(FunctionRows454To483(i).0, FunctionRows454To483(i + 1).0)
  {
    FunctionKey474BeforeKey475();
    FunctionKey475BeforeKey476();
    FunctionKey476BeforeKey477();
    FunctionKey477BeforeKey478();
  }

  lemma FunctionSlice478To481()
    ensures forall i | 478 <= i < 482 :: FunctionEntryOk(FunctionRows454To483(i))
    ensures forall i | 478 <= i < 482 :: Precedes(FunctionRows454To483(i).0, FunctionRows454To483(i + 1).0)
  {
    FunctionKey478BeforeKey479();
    FunctionKey479BeforeKey480();
    FunctionKey480BeforeKey481();
    FunctionKey481BeforeKey482();
  }

  lemma FunctionSlice482To483()
    ensures forall i | 482 <= i < 484 :: FunctionEntryOk(FunctionRows454To483(i))
    ensures forall i | 482 <= i < 483 :: Precedes(FunctionRows454To483(i).0, FunctionRows454To483(i + 1).0)
  {
    FunctionKey482BeforeKey483();
  }

  lemma FunctionRows454To483Ok()
    ensures forall i | 454 <= i < 484 :: FunctionEntryOk(FunctionRows454To483(i))
    ensures forall i | 454 <= i < 483 :: Precedes(FunctionRows454To483(i).0, FunctionRows454To483(i + 1).0)
  {
    FunctionSlice454To457();
    FunctionSlice458To461();
    FunctionSlice462To465();
    FunctionSlice466To469();
    FunctionSlice470To473();
    FunctionSlice474To477();
    FunctionSlice478To481();
    FunctionSlice482To483();
  }

  lemma FunctionSlice484To487()
    ensures forall i | 484 <= i < 488 :: FunctionEntryOk(FunctionRows484To513(i))
    ensures forall i | 484 <= i < 488 :: Precedes(FunctionRows484To513(i).0, FunctionRows484To513(i + 1).0)
  {
    FunctionKey484BeforeKey485();
    FunctionKey485BeforeKey486();
    FunctionKey486BeforeKey487();
    FunctionKey487BeforeKey488();
  }

  lemma FunctionSlice488To491()
    ensures forall i | 488 <= i < 492 :: FunctionEntryOk(FunctionRows484To513(i))
    ensures forall i | 488 <= i < 492 :: Precedes(FunctionRows484To513(i).0, FunctionRows484To513(i + 1).0)
  {
    FunctionKey488BeforeKey489();
    FunctionKey489BeforeKey490();
    FunctionKey490BeforeKey491();
    FunctionKey491BeforeKey492();
  }

  lemma FunctionSlice492To495()
    ensures forall i | 492 <= i < 496 :: FunctionEntryOk(FunctionRows484To513(i))
    ensures forall i | 492 <= i < 496 :: Precedes(FunctionRows484To513(i).0, FunctionRows484To513(i + 1).0)
  {
    FunctionKey492BeforeKey493();
    FunctionKey493BeforeKey494();
    FunctionKey494BeforeKey495();
    FunctionKey495BeforeKey496();
  }

  lemma FunctionSlice496To499()
    ensures forall i | 496 <= i < 500 :: FunctionEntryOk(FunctionRows484To513(i))
    ensures forall i | 496 <= i < 500 :: Precedes(FunctionRows484To513(i).0, FunctionRows484To513(i + 1).0)
  {
    FunctionKey496BeforeKey497();
    FunctionKey497BeforeKey498();
    FunctionKey498BeforeKey499();
    FunctionKey499BeforeKey500();
  }

  lemma FunctionSlice500To503()
    ensures forall i | 500 <= i < 504 :: FunctionEntryOk(FunctionRows484To513(i))
    ensures forall i | 500 <= i < 504 :: Precedes(FunctionRows484To513(i).0, FunctionRows484To513(i + 1).0)
  {
    FunctionKey500BeforeKey501();
    FunctionKey501BeforeKey502();
    FunctionKey502BeforeKey503();
    FunctionKey503BeforeKey504();
  }

  lemma FunctionSlice504To507()
    ensures forall i | 504 <= i < 508 :: FunctionEntryOk(FunctionRows484To513(i))
    ensures forall i | 504 <= i < 508 :: Precedes(FunctionRows484To513(i).0, FunctionRows484To513(i + 1).0)
  {
    FunctionKey504BeforeKey505();
    FunctionKey505BeforeKey506();
    FunctionKey506BeforeKey507();
    FunctionKey507BeforeKey508();
  }

  lemma FunctionSlice508To511()
    ensures forall i | 508 <= i < 512 :: FunctionEntryOk(FunctionRows484To513(i))
    ensures forall i | 508 <= i < 512 :: Precedes(FunctionRows484To513(i).0, FunctionRows484To513(i + 1).0)
  {
    FunctionKey508BeforeKey509();
    FunctionKey509BeforeKey510();
    FunctionKey510BeforeKey511();
    FunctionKey511BeforeKey512();
  }

  lemma FunctionSlice512To513()
    ensures forall i | 512 <= i < 514 :: FunctionEntryOk(FunctionRows484To513(i))
    ensures forall i | 512 <= i < 513 :: Precedes(FunctionRows484To513(i).0, FunctionRows484To513(i + 1).0)
  {
    FunctionKey512BeforeKey513();
  }

  lemma FunctionRows484To513Ok()
    ensures forall i | 484 <= i < 514 :: FunctionEntryOk(FunctionRows484To513(i))
    ensures forall i | 484 <= i < 513 :: Precedes(FunctionRows484To513(i).0, FunctionRows484To513(i + 1).0)
  {
    FunctionSlice484To487();
    FunctionSlice488To491();
    FunctionSlice492To495();
    FunctionSlice496To499();
    FunctionSlice500To503();
    FunctionSlice504To507();
    FunctionSlice508To511();
    FunctionSlice512To513();
  }

  lemma FunctionRows424To513Linked()
    ensures forall i | 453 <= i < 454 :: Precedes(FunctionRows424To453(i).0, FunctionRows454To483(i + 1).0)
    ensures forall i | 483 <= i < 484 :: Precedes(FunctionRows454To483(i).0, FunctionRows484To513(i + 1).0)
  {
    FunctionKey453BeforeKey454();
    FunctionKey483BeforeKey484();
  }

  lemma FunctionRows424To513Ok()
    ensures forall i | 424 <= i < 514 :: FunctionEntryOk(FunctionRows424To513(i))
    ensures forall i | 424 <= i < 513 :: Precedes(FunctionRows424To513(i).0, FunctionRows424To513(i + 1).0)
  {
    FunctionRows424To453Ok();
    FunctionRows454To483Ok();
    FunctionRows484To513Ok();
    FunctionRows424To513Linked();
  }

  lemma FunctionRowLink061()
    ensures forall i | 61 <= i < 62 :: Precedes(FunctionRows000To061(i).0, FunctionRows062To123(i + 1).0)
  {
    FunctionKey061BeforeKey062();
  }

  lemma FunctionRowLink123()
    ensures forall i | 123 <= i < 124 :: Precedes(FunctionRows062To123(i).0, FunctionRows124To183(i + 1).0)
  {
    FunctionKey123BeforeKey124();
  }

  lemma FunctionRowLink183()
    ensures forall i | 183 <= i < 184 :: Precedes(FunctionRows124To183(i).0, FunctionRows184To243(i + 1).0)
  {
    FunctionKey183BeforeKey184();
  }

  lemma FunctionRowLink243()
    ensures forall i | 243 <= i < 244 :: Precedes(FunctionRows184To243(i).0, FunctionRows244To303(i + 1).0)
  {
    FunctionKey243BeforeKey244();
  }

  lemma FunctionRowLink303()
    ensures forall i | 303 <= i < 304 :: Precedes(FunctionRows244To303(i).0, FunctionRows304To363(i + 1).0)
  {
    FunctionKey303BeforeKey304();
  }

  lemma FunctionRowLink363()
    ensures forall i | 363 <= i < 364 :: Precedes(FunctionRows304To363(i).0, FunctionRows364To423(i + 1).0)
  {
    FunctionKey363BeforeKey364();
  }

  lemma FunctionRowLink423()
    ensures forall i | 423 <= i < 424 :: Precedes(FunctionRows364To423(i).0, FunctionRows424To513(i + 1).0)
  {
    FunctionKey423BeforeKey424();
  }

  lemma FunctionRowOk()
    ensures forall i | 0 <= i < 514 :: FunctionEntryOk(FunctionRow(i))
    ensures forall i | 0 <= i < 513 :: Precedes(FunctionRow(i).0, FunctionRow(i + 1).0)
  {
    FunctionRows000To061Ok();
    FunctionRows062To123Ok();
    FunctionRows124To183Ok();
    FunctionRows184To243Ok();
    FunctionRows244To303Ok();
    FunctionRows304To363Ok();
    FunctionRows364To423Ok();
    FunctionRows424To513Ok();
    FunctionRowLink061();
    FunctionRowLink123();
    FunctionRowLink183();
    FunctionRowLink243();
    FunctionRowLink303();
    FunctionRowLink363();
    FunctionRowLink423();
  }
}
