/** Every row of the CUDA version table is well formed, and its keys ascend. */
module CudaVersionProofs {
  import opened DriverRules
  import opened KeyOrder
  import opened CudaVersionTable
  import opened CudaVersionKeys

  lemma CudaVersionSlice000To003()
    ensures forall i | 0 <= i < 4 :: CudaVersionsOk(CudaVersionRows000To005(i))
    ensures forall i | 0 <= i < 4 :: Precedes(CudaVersionRows000To005(i).0, CudaVersionRows000To005(i + 1).0)
  {
    CudaVersionKey000BeforeKey001();
    CudaVersionKey001BeforeKey002();
    CudaVersionKey002BeforeKey003();
    CudaVersionKey003BeforeKey004();
  }

  lemma CudaVersionSlice004To005()
    ensures forall i | 4 <= i < 6 :: CudaVersionsOk(CudaVersionRows000To005(i))
    ensures forall i | 4 <= i < 5 :: Precedes(CudaVersionRows000To005(i).0, CudaVersionRows000To005(i + 1).0)
  {
    CudaVersionKey004BeforeKey005();
  }

  lemma CudaVersionRows000To005Ok()
    ensures forall i | 0 <= i < 6 :: CudaVersionsOk(CudaVersionRows000To005(i))
    ensures forall i | 0 <= i < 5 :: Precedes(CudaVersionRows000To005(i).0, CudaVersionRows000To005(i + 1).0)
  {
    CudaVersionSlice000To003();
    CudaVersionSlice004To005();
  }

  lemma CudaVersionSlice006To009()
    ensures forall i | 6 <= i < 10 :: CudaVersionsOk(CudaVersionRows006To022(i))
    ensures forall i | 6 <= i < 10 :: Precedes(CudaVersionRows006To022(i).0, CudaVersionRows006To022(i + 1).0)
  {
    CudaVersionKey006BeforeKey007();
    CudaVersionKey007BeforeKey008();
    CudaVersionKey008BeforeKey009();
    CudaVersionKey009BeforeKey010();
  }

  lemma CudaVersionSlice010To013()
    ensures forall i | 10 <= i < 14 :: CudaVersionsOk(CudaVersionRows006To022(i))
    ensures forall i | 10 <= i < 14 :: Precedes(CudaVersionRows006To022(i).0, CudaVersionRows006To022(i + 1).0)
  {
    CudaVersionKey010BeforeKey011();
    CudaVersionKey011BeforeKey012();
    CudaVersionKey012BeforeKey013();
    CudaVersionKey013BeforeKey014();
  }

  lemma CudaVersionSlice014To017()
    ensures forall i | 14 <= i < 18 :: CudaVersionsOk(CudaVersionRows006To022(i))
    ensures forall i | 14 <= i < 18 :: Precedes(CudaVersionRows006To022(i).0, CudaVersionRows006To022(i + 1).0)
  {
    CudaVersionKey014BeforeKey015();
    CudaVersionKey015BeforeKey016();
    CudaVersionKey016BeforeKey017();
    CudaVersionKey017BeforeKey018();
  }

  lemma CudaVersionSlice018To021()
    ensures forall i | 18 <= i < 22 :: CudaVersionsOk(CudaVersionRows006To022(i))
    ensures forall i | 18 <= i < 22 :: Precedes(CudaVersionRows006To022(i).0, CudaVersionRows006To022(i + 1).0)
  {
    CudaVersionKey018BeforeKey019();
    CudaVersionKey019BeforeKey020();
    CudaVersionKey020BeforeKey021();
    CudaVersionKey021BeforeKey022();
  }

  lemma CudaVersionSlice022To022()
    ensures forall i | 22 <= i < 23 :: CudaVersionsOk(CudaVersionRows006To022(i))
  {
  }

  lemma CudaVersionRows006To022Ok()
    ensures forall i | 6 <= i < 23 :: CudaVersionsOk(CudaVersionRows006To022(i))
    ensures forall i | 6 <= i < 22 :: Precedes(CudaVersionRows006To022(i).0, CudaVersionRows006To022(i + 1).0)
  {
    CudaVersionSlice006To009();
    CudaVersionSlice010To013();
    CudaVersionSlice014To017();
    CudaVersionSlice018To021();
    CudaVersionSlice022To022();
  }

  lemma CudaVersionRows000To022Linked()
    ensures forall i | 5 <= i < 6 :: Precedes(CudaVersionRows000To005(i).0, CudaVersionRows006To022(i + 1).0)
  {
    CudaVersionKey005BeforeKey006();
  }

  lemma CudaVersionRows000To022Ok()
    ensures forall i | 0 <= i < 23 :: CudaVersionsOk(CudaVersionRows000To022(i))
    ensures forall i | 0 <= i < 22 :: Precedes(CudaVersionRows000To022(i).0, CudaVersionRows000To022(i + 1).0)
  {
    CudaVersionRows000To005Ok();
    CudaVersionRows006To022Ok();
    CudaVersionRows000To022Linked();
  }

  lemma CudaVersionSlice023To026()
    ensures forall i | 23 <= i < 27 :: CudaVersionsOk(CudaVersionRows023To042(i))
    ensures forall i | 23 <= i < 27 :: Precedes(CudaVersionRows023To042(i).0, CudaVersionRows023To042(i + 1).0)
  {
    CudaVersionKey023BeforeKey024();
    CudaVersionKey024BeforeKey025();
    CudaVersionKey025BeforeKey026();
    CudaVersionKey026BeforeKey027();
  }

  lemma CudaVersionSlice027To030()
    ensures forall i | 27 <= i < 31 :: CudaVersionsOk(CudaVersionRows023To042(i))
    ensures forall i | 27 <= i < 31 :: Precedes(CudaVersionRows023To042(i).0, CudaVersionRows023To042(i + 1).0)
  {
    CudaVersionKey027BeforeKey028();
    CudaVersionKey028BeforeKey029();
    CudaVersionKey029BeforeKey030();
    CudaVersionKey030BeforeKey031();
  }

  lemma CudaVersionSlice031To034()
    ensures forall i | 31 <= i < 35 :: CudaVersionsOk(CudaVersionRows023To042(i))
    ensures forall i | 31 <= i < 35 :: Precedes(CudaVersionRows023To042(i).0, CudaVersionRows023To042(i + 1).0)
  {
    CudaVersionKey031BeforeKey032();
    CudaVersionKey032BeforeKey033();
    CudaVersionKey033BeforeKey034();
    CudaVersionKey034BeforeKey035();
  }

  lemma CudaVersionSlice035To038()
    ensures forall i | 35 <= i < 39 :: CudaVersionsOk(CudaVersionRows023To042(i))
    ensures forall i | 35 <= i < 39 :: Precedes(CudaVersionRows023To042(i).0, CudaVersionRows023To042(i + 1).0)
  {
    CudaVersionKey035BeforeKey036();
    CudaVersionKey036BeforeKey037();
    CudaVersionKey037BeforeKey038();
    CudaVersionKey038BeforeKey039();
  }

  lemma CudaVersionSlice039To042()
    ensures forall i | 39 <= i < 43 :: CudaVersionsOk(CudaVersionRows023To042(i))
    ensures forall i | 39 <= i < 42 :: Precedes(CudaVersionRows023To042(i).0, CudaVersionRows023To042(i + 1).0)
  {
    CudaVersionKey039BeforeKey040();
    CudaVersionKey040BeforeKey041();
    CudaVersionKey041BeforeKey042();
  }

  lemma CudaVersionRows023To042Ok()
    ensures forall i | 23 <= i < 43 :: CudaVersionsOk(CudaVersionRows023To042(i))
    ensures forall i | 23 <= i < 42 :: Precedes(CudaVersionRows023To042(i).0, CudaVersionRows023To042(i + 1).0)
  {
    CudaVersionSlice023To026();
    CudaVersionSlice027To030();
    CudaVersionSlice031To034();
    CudaVersionSlice035To038();
    CudaVersionSlice039To042();
  }

  lemma CudaVersionSlice043To046()
    ensures forall i | 43 <= i < 47 :: CudaVersionsOk(CudaVersionRows043To062(i))
    ensures forall i | 43 <= i < 47 :: Precedes(CudaVersionRows043To062(i).0, CudaVersionRows043To062(i + 1).0)
  {
    CudaVersionKey043BeforeKey044();
    CudaVersionKey044BeforeKey045();
    CudaVersionKey045BeforeKey046();
    CudaVersionKey046BeforeKey047();
  }

  lemma CudaVersionSlice047To050()
    ensures forall i | 47 <= i < 51 :: CudaVersionsOk(CudaVersionRows043To062(i))
    ensures forall i | 47 <= i < 51 :: Precedes(CudaVersionRows043To062(i).0, CudaVersionRows043To062(i + 1).0)
  {
    CudaVersionKey047BeforeKey048();
    CudaVersionKey048BeforeKey049();
    CudaVersionKey049BeforeKey050();
    CudaVersionKey050BeforeKey051();
  }

  lemma CudaVersionSlice051To054()
    ensures forall i | 51 <= i < 55 :: CudaVersionsOk(CudaVersionRows043To062(i))
    ensures forall i | 51 <= i < 55 :: Precedes(CudaVersionRows043To062(i).0, CudaVersionRows043To062(i + 1).0)
  {
    CudaVersionKey051BeforeKey052();
    CudaVersionKey052BeforeKey053();
    CudaVersionKey053BeforeKey054();
    CudaVersionKey054BeforeKey055();
  }

  lemma CudaVersionSlice055To058()
    ensures forall i | 55 <= i < 59 :: CudaVersionsOk(CudaVersionRows043To062(i))
    ensures forall i | 55 <= i < 59 :: Precedes(CudaVersionRows043To062(i).0, CudaVersionRows043To062(i + 1).0)
  {
    CudaVersionKey055BeforeKey056();
    CudaVersionKey056BeforeKey057();
    CudaVersionKey057BeforeKey058();
    CudaVersionKey058BeforeKey059();
  }

  lemma CudaVersionSlice059To062()
    ensures forall i | 59 <= i < 63 :: CudaVersionsOk(CudaVersionRows043To062(i))
    ensures forall i | 59 <= i < 62 :: Precedes(CudaVersionRows043To062(i).0, CudaVersionRows043To062(i + 1).0)
  {
    CudaVersionKey059BeforeKey060();
    CudaVersionKey060BeforeKey061();
    CudaVersionKey061BeforeKey062();
  }

  lemma CudaVersionRows043To062Ok()
    ensures forall i | 43 <= i < 63 :: CudaVersionsOk(CudaVersionRows043To062(i))
    ensures forall i | 43 <= i < 62 :: Precedes(CudaVersionRows043To062(i).0, CudaVersionRows043To062(i + 1).0)
  {
    CudaVersionSlice043To046();
    CudaVersionSlice047To050();
    CudaVersionSlice051To054();
    CudaVersionSlice055To058();
    CudaVersionSlice059To062();
  }

  lemma CudaVersionRows023To062Linked()
    ensures forall i | 42 <= i < 43 :: Precedes(CudaVersionRows023To042(i).0, CudaVersionRows043To062(i + 1).0)
  {
    CudaVersionKey042BeforeKey043();
  }

  lemma CudaVersionRows023To062Ok()
    ensures forall i | 23 <= i < 63 :: CudaVersionsOk(CudaVersionRows023To062(i))
    ensures forall i | 23 <= i < 62 :: Precedes(CudaVersionRows023To062(i).0, CudaVersionRows023To062(i + 1).0)
  {
    CudaVersionRows023To042Ok();
    CudaVersionRows043To062Ok();
    CudaVersionRows023To062Linked();
  }

  lemma CudaVersionSlice063To066()
    ensures forall i | 63 <= i < 67 :: CudaVersionsOk(CudaVersionRows063To082(i))
    ensures forall i | 63 <= i < 67 :: Precedes(CudaVersionRows063To082(i).0, CudaVersionRows063To082(i + 1).0)
  {
    CudaVersionKey063BeforeKey064();
    CudaVersionKey064BeforeKey065();
    CudaVersionKey065BeforeKey066();
    CudaVersionKey066BeforeKey067();
  }

  lemma CudaVersionSlice067To070()
    ensures forall i | 67 <= i < 71 :: CudaVersionsOk(CudaVersionRows063To082(i))
    ensures forall i | 67 <= i < 71 :: Precedes(CudaVersionRows063To082(i).0, CudaVersionRows063To082(i + 1).0)
  {
    CudaVersionKey067BeforeKey068();
    CudaVersionKey068BeforeKey069();
    CudaVersionKey069BeforeKey070();
    CudaVersionKey070BeforeKey071();
  }

  lemma CudaVersionSlice071To074()
    ensures forall i | 71 <= i < 75 :: CudaVersionsOk(CudaVersionRows063To082(i))
    ensures forall i | 71 <= i < 75 :: Precedes(CudaVersionRows063To082(i).0, CudaVersionRows063To082(i + 1).0)
  {
    CudaVersionKey071BeforeKey072();
    CudaVersionKey072BeforeKey073();
    CudaVersionKey073BeforeKey074();
    CudaVersionKey074BeforeKey075();
  }

  lemma CudaVersionSlice075To078()
    ensures forall i | 75 <= i < 79 :: CudaVersionsOk(CudaVersionRows063To082(i))
    ensures forall i | 75 <= i < 79 :: Precedes(CudaVersionRows063To082(i).0, CudaVersionRows063To082(i + 1).0)
  {
    CudaVersionKey075BeforeKey076();
    CudaVersionKey076BeforeKey077();
    CudaVersionKey077BeforeKey078();
    CudaVersionKey078BeforeKey079();
  }

  lemma CudaVersionSlice079To082()
    ensures forall i | 79 <= i < 83 :: CudaVersionsOk(CudaVersionRows063To082(i))
    ensures forall i | 79 <= i < 82 :: Precedes(CudaVersionRows063To082(i).0, CudaVersionRows063To082(i + 1).0)
  {
    CudaVersionKey079BeforeKey080();
    CudaVersionKey080BeforeKey081();
    CudaVersionKey081BeforeKey082();
  }

  lemma CudaVersionRows063To082Ok()
    ensures forall i | 63 <= i < 83 :: CudaVersionsOk(CudaVersionRows063To082(i))
    ensures forall i | 63 <= i < 82 :: Precedes(CudaVersionRows063To082(i).0, CudaVersionRows063To082(i + 1).0)
  {
    CudaVersionSlice063To066();
    CudaVersionSlice067To070();
    CudaVersionSlice071To074();
    CudaVersionSlice075To078();
    CudaVersionSlice079To082();
  }

  lemma CudaVersionSlice083To086()
    ensures forall i | 83 <= i < 87 :: CudaVersionsOk(CudaVersionRows083To112(i))
    ensures forall i | 83 <= i < 87 :: Precedes(CudaVersionRows083To112(i).0, CudaVersionRows083To112(i + 1).0)
  {
    CudaVersionKey083BeforeKey084();
    CudaVersionKey084BeforeKey085();
    CudaVersionKey085BeforeKey086();
    CudaVersionKey086BeforeKey087();
  }

  lemma CudaVersionSlice087To090()
    ensures forall i | 87 <= i < 91 :: CudaVersionsOk(CudaVersionRows083To112(i))
    ensures forall i | 87 <= i < 91 :: Precedes(CudaVersionRows083To112(i).0, CudaVersionRows083To112(i + 1).0)
  {
    CudaVersionKey087BeforeKey088();
    CudaVersionKey088BeforeKey089();
    CudaVersionKey089BeforeKey090();
    CudaVersionKey090BeforeKey091();
  }

  lemma CudaVersionSlice091To094()
    ensures forall i | 91 <= i < 95 :: CudaVersionsOk(CudaVersionRows083To112(i))
    ensures forall i | 91 <= i < 95 :: Precedes(CudaVersionRows083To112(i).0, CudaVersionRows083To112(i + 1).0)
  {
    CudaVersionKey091BeforeKey092();
    CudaVersionKey092BeforeKey093();
    CudaVersionKey093BeforeKey094();
    CudaVersionKey094BeforeKey095();
  }

  lemma CudaVersionSlice095To098()
    ensures forall i | 95 <= i < 99 :: CudaVersionsOk(CudaVersionRows083To112(i))
    ensures forall i | 95 <= i < 99 :: Precedes(CudaVersionRows083To112(i).0, CudaVersionRows083To112(i + 1).0)
  {
    CudaVersionKey095BeforeKey096();
    CudaVersionKey096BeforeKey097();
    CudaVersionKey097BeforeKey098();
    CudaVersionKey098BeforeKey099();
  }

  lemma CudaVersionSlice099To102()
    ensures forall i | 99 <= i < 103 :: CudaVersionsOk(CudaVersionRows083To112(i))
    ensures forall i | 99 <= i < 103 :: Precedes(CudaVersionRows083To112(i).0, CudaVersionRows083To112(i + 1).0)
  {
    CudaVersionKey099BeforeKey100();
    CudaVersionKey100BeforeKey101();
    CudaVersionKey101BeforeKey102();
    CudaVersionKey102BeforeKey103();
  }

  lemma CudaVersionSlice103To106()
    ensures forall i | 103 <= i < 107 :: CudaVersionsOk(CudaVersionRows083To112(i))
    ensures forall i | 103 <= i < 107 :: Precedes(CudaVersionRows083To112(i).0, CudaVersionRows083To112(i + 1).0)
  {
    CudaVersionKey103BeforeKey104();
    CudaVersionKey104BeforeKey105();
    CudaVersionKey105BeforeKey106();
    CudaVersionKey106BeforeKey107();
  }

  lemma CudaVersionSlice107To110()
    ensures forall i | 107 <= i < 111 :: CudaVersionsOk(CudaVersionRows083To112(i))
    ensures forall i | 107 <= i < 111 :: Precedes(CudaVersionRows083To112(i).0, CudaVersionRows083To112(i + 1).0)
  {
    CudaVersionKey107BeforeKey108();
    CudaVersionKey108BeforeKey109();
    CudaVersionKey109BeforeKey110();
    CudaVersionKey110BeforeKey111();
  }

  lemma CudaVersionSlice111To112()
    ensures forall i | 111 <= i < 113 :: CudaVersionsOk(CudaVersionRows083To112(i))
    ensures forall i | 111 <= i < 112 :: Precedes(CudaVersionRows083To112(i).0, CudaVersionRows083To112(i + 1).0)
  {
    CudaVersionKey111BeforeKey112();
  }

  lemma CudaVersionRows083To112Ok()
    ensures forall i | 83 <= i < 113 :: CudaVersionsOk(CudaVersionRows083To112(i))
    ensures forall i | 83 <= i < 112 :: Precedes(CudaVersionRows083To112(i).0, CudaVersionRows083To112(i + 1).0)
  {
    CudaVersionSlice083To086();
    CudaVersionSlice087To090();
    CudaVersionSlice091To094();
    CudaVersionSlice095To098();
    CudaVersionSlice099To102();
    CudaVersionSlice103To106();
    CudaVersionSlice107To110();
    CudaVersionSlice111To112();
  }

  lemma CudaVersionRows063To112Linked()
    ensures forall i | 82 <= i < 83 :: Precedes(CudaVersionRows063To082(i).0, CudaVersionRows083To112(i + 1).0)
  {
    CudaVersionKey082BeforeKey083();
  }

  lemma CudaVersionRows063To112Ok()
    ensures forall i | 63 <= i < 113 :: CudaVersionsOk(CudaVersionRows063To112(i))
    ensures forall i | 63 <= i < 112 :: Precedes(CudaVersionRows063To112(i).0, CudaVersionRows063To112(i + 1).0)
  {
    CudaVersionRows063To082Ok();
    CudaVersionRows083To112Ok();
    CudaVersionRows063To112Linked();
  }

  lemma CudaVersionSlice113To116()
    ensures forall i | 113 <= i < 117 :: CudaVersionsOk(CudaVersionRows113To142(i))
    ensures forall i | 113 <= i < 117 :: Precedes(CudaVersionRows113To142(i).0, CudaVersionRows113To142(i + 1).0)
  {
    CudaVersionKey113BeforeKey114();
    CudaVersionKey114BeforeKey115();
    CudaVersionKey115BeforeKey116();
    CudaVersionKey116BeforeKey117();
  }

  lemma CudaVersionSlice117To120()
    ensures forall i | 117 <= i < 121 :: CudaVersionsOk(CudaVersionRows113To142(i))
    ensures forall i | 117 <= i < 121 :: Precedes(CudaVersionRows113To142(i).0, CudaVersionRows113To142(i + 1).0)
  {
    CudaVersionKey117BeforeKey118();
    CudaVersionKey118BeforeKey119();
    CudaVersionKey119BeforeKey120();
    CudaVersionKey120BeforeKey121();
  }

  lemma CudaVersionSlice121To124()
    ensures forall i | 121 <= i < 125 :: CudaVersionsOk(CudaVersionRows113To142(i))
    ensures forall i | 121 <= i < 125 :: Precedes(CudaVersionRows113To142(i).0, CudaVersionRows113To142(i + 1).0)
  {
    CudaVersionKey121BeforeKey122();
    CudaVersionKey122BeforeKey123();
    CudaVersionKey123BeforeKey124();
    CudaVersionKey124BeforeKey125();
  }

  lemma CudaVersionSlice125To128()
    ensures forall i | 125 <= i < 129 :: CudaVersionsOk(CudaVersionRows113To142(i))
    ensures forall i | 125 <= i < 129 :: Precedes(CudaVersionRows113To142(i).0, CudaVersionRows113To142(i + 1).0)
  {
    CudaVersionKey125BeforeKey126();
    CudaVersionKey126BeforeKey127();
    CudaVersionKey127BeforeKey128();
    CudaVersionKey128BeforeKey129();
  }

  lemma CudaVersionSlice129To132()
    ensures forall i | 129 <= i < 133 :: CudaVersionsOk(CudaVersionRows113To142(i))
    ensures forall i | 129 <= i < 133 :: Precedes(CudaVersionRows113To142(i).0, CudaVersionRows113To142(i + 1).0)
  {
    CudaVersionKey129BeforeKey130();
    CudaVersionKey130BeforeKey131();
    CudaVersionKey131BeforeKey132();
    CudaVersionKey132BeforeKey133();
  }

  lemma CudaVersionSlice133To136()
    ensures forall i | 133 <= i < 137 :: CudaVersionsOk(CudaVersionRows113To142(i))
    ensures forall i | 133 <= i < 137 :: Precedes(CudaVersionRows113To142(i).0, CudaVersionRows113To142(i + 1).0)
  {
    CudaVersionKey133BeforeKey134();
    CudaVersionKey134BeforeKey135();
    CudaVersionKey135BeforeKey136();
    CudaVersionKey136BeforeKey137();
  }

  lemma CudaVersionSlice137To140()
    ensures forall i | 137 <= i < 141 :: CudaVersionsOk(CudaVersionRows113To142(i))
    ensures forall i | 137 <= i < 141 :: Precedes(CudaVersionRows113To142(i).0, CudaVersionRows113To142(i + 1).0)
  {
    CudaVersionKey137BeforeKey138();
    CudaVersionKey138BeforeKey139();
    CudaVersionKey139BeforeKey140();
    CudaVersionKey140BeforeKey141();
  }

  lemma CudaVersionSlice141To142()
    ensures forall i | 141 <= i < 143 :: CudaVersionsOk(CudaVersionRows113To142(i))
    ensures forall i | 141 <= i < 142 :: Precedes(CudaVersionRows113To142(i).0, CudaVersionRows113To142(i + 1).0)
  {
    CudaVersionKey141BeforeKey142();
  }

  lemma CudaVersionRows113To142Ok()
    ensures forall i | 113 <= i < 143 :: CudaVersionsOk(CudaVersionRows113To142(i))
    ensures forall i | 113 <= i < 142 :: Precedes(CudaVersionRows113To142(i).0, CudaVersionRows113To142(i + 1).0)
  {
    CudaVersionSlice113To116();
    CudaVersionSlice117To120();
    CudaVersionSlice121To124();
    CudaVersionSlice125To128();
    CudaVersionSlice129To132();
    CudaVersionSlice133To136();
    CudaVersionSlice137To140();
    CudaVersionSlice141To142();
  }

  lemma CudaVersionSlice143To146()
    ensures forall i | 143 <= i < 147 :: CudaVersionsOk(CudaVersionRows143To156(i))
    ensures forall i | 143 <= i < 147 :: Precedes(CudaVersionRows143To156(i).0, CudaVersionRows143To156(i + 1).0)
  {
    CudaVersionKey143BeforeKey144();
    CudaVersionKey144BeforeKey145();
    CudaVersionKey145BeforeKey146();
    CudaVersionKey146BeforeKey147();
  }

  lemma CudaVersionSlice147To150()
    ensures forall i | 147 <= i < 151 :: CudaVersionsOk(CudaVersionRows143To156(i))
    ensures forall i | 147 <= i < 151 :: Precedes(CudaVersionRows143To156(i).0, CudaVersionRows143To156(i + 1).0)
  {
    CudaVersionKey147BeforeKey148();
    CudaVersionKey148BeforeKey149();
    CudaVersionKey149BeforeKey150();
    CudaVersionKey150BeforeKey151();
  }

  lemma CudaVersionSlice151To154()
    ensures forall i | 151 <= i < 155 :: CudaVersionsOk(CudaVersionRows143To156(i))
    ensures forall i | 151 <= i < 155 :: Precedes(CudaVersionRows143To156(i).0, CudaVersionRows143To156(i + 1).0)
  {
    CudaVersionKey151BeforeKey152();
    CudaVersionKey152BeforeKey153();
    CudaVersionKey153BeforeKey154();
    CudaVersionKey154BeforeKey155();
  }

  lemma CudaVersionSlice155To156()
    ensures forall i | 155 <= i < 157 :: CudaVersionsOk(CudaVersionRows143To156(i))
    ensures forall i | 155 <= i < 156 :: Precedes(CudaVersionRows143To156(i).0, CudaVersionRows143To156(i + 1).0)
  {
    CudaVersionKey155BeforeKey156();
  }

  lemma CudaVersionRows143To156Ok()
    ensures forall i | 143 <= i < 157 :: CudaVersionsOk(CudaVersionRows143To156(i))
    ensures forall i | 143 <= i < 156 :: Precedes(CudaVersionRows143To156(i).0, CudaVersionRows143To156(i + 1).0)
  {
    CudaVersionSlice143To146();
    CudaVersionSlice147To150();
    CudaVersionSlice151To154();
    CudaVersionSlice155To156();
  }

  lemma CudaVersionRows113To156Linked()
    ensures forall i | 142 <= i < 143 :: Precedes(CudaVersionRows113To142(i).0, CudaVersionRows143To156(i + 1).0)
  {
    CudaVersionKey142BeforeKey143();
  }

  lemma CudaVersionRows113To156Ok()
    ensures forall i | 113 <= i < 157 :: CudaVersionsOk(CudaVersionRows113To156(i))
    ensures forall i | 113 <= i < 156 :: Precedes(CudaVersionRows113To156(i).0, CudaVersionRows113To156(i + 1).0)
  {
    CudaVersionRows113To142Ok();
    CudaVersionRows143To156Ok();
    CudaVersionRows113To156Linked();
  }

  lemma CudaVersionSlice157To160()
    ensures forall i | 157 <= i < 161 :: CudaVersionsOk(CudaVersionRows157To177(i))
    ensures forall i | 157 <= i < 161 :: Precedes(CudaVersionRows157To177(i).0, CudaVersionRows157To177(i + 1).0)
  {
    CudaVersionKey157BeforeKey158();
    CudaVersionKey158BeforeKey159();
    CudaVersionKey159BeforeKey160();
    CudaVersionKey160BeforeKey161();
  }

  lemma CudaVersionSlice161To164()
    ensures forall i | 161 <= i < 165 :: CudaVersionsOk(CudaVersionRows157To177(i))
    ensures forall i | 161 <= i < 165 :: Precedes(CudaVersionRows157To177(i).0, CudaVersionRows157To177(i + 1).0)
  {
    CudaVersionKey161BeforeKey162();
    CudaVersionKey162BeforeKey163();
    CudaVersionKey163BeforeKey164();
    CudaVersionKey164BeforeKey165();
  }

  lemma CudaVersionSlice165To168()
    ensures forall i | 165 <= i < 169 :: CudaVersionsOk(CudaVersionRows157To177(i))
    ensures forall i | 165 <= i < 169 :: Precedes(CudaVersionRows157To177(i).0, CudaVersionRows157To177(i + 1).0)
  {
    CudaVersionKey165BeforeKey166();
    CudaVersionKey166BeforeKey167();
    CudaVersionKey167BeforeKey168();
    CudaVersionKey168BeforeKey169();
  }

  lemma CudaVersionSlice169To172()
    ensures forall i | 169 <= i < 173 :: CudaVersionsOk(CudaVersionRows157To177(i))
    ensures forall i | 169 <= i < 173 :: Precedes(CudaVersionRows157To177(i).0, CudaVersionRows157To177(i + 1).0)
  {
    CudaVersionKey169BeforeKey170();
    CudaVersionKey170BeforeKey171();
    CudaVersionKey171BeforeKey172();
    CudaVersionKey172BeforeKey173();
  }

  lemma CudaVersionSlice173To176()
    ensures forall i | 173 <= i < 177 :: CudaVersionsOk(CudaVersionRows157To177(i))
    ensures forall i | 173 <= i < 177 :: Precedes(CudaVersionRows157To177(i).0, CudaVersionRows157To177(i + 1).0)
  {
    CudaVersionKey173BeforeKey174();
    CudaVersionKey174BeforeKey175();
    CudaVersionKey175BeforeKey176();
    CudaVersionKey176BeforeKey177();
  }

  lemma CudaVersionSlice177To177()
    ensures forall i | 177 <= i < 178 :: CudaVersionsOk(CudaVersionRows157To177(i))
  {
  }

  lemma CudaVersionRows157To177Ok()
    ensures forall i | 157 <= i < 178 :: CudaVersionsOk(CudaVersionRows157To177(i))
    ensures forall i | 157 <= i < 177 :: Precedes(CudaVersionRows157To177(i).0, CudaVersionRows157To177(i + 1).0)
  {
    CudaVersionSlice157To160();
    CudaVersionSlice161To164();
    CudaVersionSlice165To168();
    CudaVersionSlice169To172();
    CudaVersionSlice173To176();
    CudaVersionSlice177To177();
  }

  lemma CudaVersionSlice178To181()
    ensures forall i | 178 <= i < 182 :: CudaVersionsOk(CudaVersionRows178To189(i))
    ensures forall i | 178 <= i < 182 :: Precedes(CudaVersionRows178To189(i).0, CudaVersionRows178To189(i + 1).0)
  {
    CudaVersionKey178BeforeKey179();
    CudaVersionKey179BeforeKey180();
    CudaVersionKey180BeforeKey181();
    CudaVersionKey181BeforeKey182();
  }

  lemma CudaVersionSlice182To185()
    ensures forall i | 182 <= i < 186 :: CudaVersionsOk(CudaVersionRows178To189(i))
    ensures forall i | 182 <= i < 186 :: Precedes(CudaVersionRows178To189(i).0, CudaVersionRows178To189(i + 1).0)
  {
    CudaVersionKey182BeforeKey183();
    CudaVersionKey183BeforeKey184();
    CudaVersionKey184BeforeKey185();
    CudaVersionKey185BeforeKey186();
  }

  lemma CudaVersionSlice186To189()
    ensures forall i | 186 <= i < 190 :: CudaVersionsOk(CudaVersionRows178To189(i))
    ensures forall i | 186 <= i < 189 :: Precedes(CudaVersionRows178To189(i).0, CudaVersionRows178To189(i + 1).0)
  {
    CudaVersionKey186BeforeKey187();
    CudaVersionKey187BeforeKey188();
    CudaVersionKey188BeforeKey189();
  }

  lemma CudaVersionRows178To189Ok()
    ensures forall i | 178 <= i < 190 :: CudaVersionsOk(CudaVersionRows178To189(i))
    ensures forall i | 178 <= i < 189 :: Precedes(CudaVersionRows178To189(i).0, CudaVersionRows178To189(i + 1).0)
  {
    CudaVersionSlice178To181();
    CudaVersionSlice182To185();
    CudaVersionSlice186To189();
  }

  lemma CudaVersionRows157To189Linked()
    ensures forall i | 177 <= i < 178 :: Precedes(CudaVersionRows157To177(i).0, CudaVersionRows178To189(i + 1).0)
  {
    CudaVersionKey177BeforeKey178();
  }

  lemma CudaVersionRows157To189Ok()
    ensures forall i | 157 <= i < 190 :: CudaVersionsOk(CudaVersionRows157To189(i))
    ensures forall i | 157 <= i < 189 :: Precedes(CudaVersionRows157To189(i).0, CudaVersionRows157To189(i + 1).0)
  {
    CudaVersionRows157To177Ok();
    CudaVersionRows178To189Ok();
    CudaVersionRows157To189Linked();
  }

  lemma CudaVersionSlice190To193()
    ensures forall i | 190 <= i < 194 :: CudaVersionsOk(CudaVersionRows190To210(i))
    ensures forall i | 190 <= i < 194 :: Precedes(CudaVersionRows190To210(i).0, CudaVersionRows190To210(i + 1).0)
  {
    CudaVersionKey190BeforeKey191();
    CudaVersionKey191BeforeKey192();
    CudaVersionKey192BeforeKey193();
    CudaVersionKey193BeforeKey194();
  }

  lemma CudaVersionSlice194To197()
    ensures forall i | 194 <= i < 198 :: CudaVersionsOk(CudaVersionRows190To210(i))
    ensures forall i | 194 <= i < 198 :: Precedes(CudaVersionRows190To210(i).0, CudaVersionRows190To210(i + 1).0)
  {
    CudaVersionKey194BeforeKey195();
    CudaVersionKey195BeforeKey196();
    CudaVersionKey196BeforeKey197();
    CudaVersionKey197BeforeKey198();
  }

  lemma CudaVersionSlice198To201()
    ensures forall i | 198 <= i < 202 :: CudaVersionsOk(CudaVersionRows190To210(i))
    ensures forall i | 198 <= i < 202 :: Precedes(CudaVersionRows190To210(i).0, CudaVersionRows190To210(i + 1).0)
  {
    CudaVersionKey198BeforeKey199();
    CudaVersionKey199BeforeKey200();
    CudaVersionKey200BeforeKey201();
    CudaVersionKey201BeforeKey202();
  }

  lemma CudaVersionSlice202To205()
    ensures forall i | 202 <= i < 206 :: CudaVersionsOk(CudaVersionRows190To210(i))
    ensures forall i | 202 <= i < 206 :: Precedes(CudaVersionRows190To210(i).0, CudaVersionRows190To210(i + 1).0)
  {
    CudaVersionKey202BeforeKey203();
    CudaVersionKey203BeforeKey204();
    CudaVersionKey204BeforeKey205();
    CudaVersionKey205BeforeKey206();
  }

  lemma CudaVersionSlice206To209()
    ensures forall i | 206 <= i < 210 :: CudaVersionsOk(CudaVersionRows190To210(i))
    ensures forall i | 206 <= i < 210 :: Precedes(CudaVersionRows190To210(i).0, CudaVersionRows190To210(i + 1).0)
  {
    CudaVersionKey206BeforeKey207();
    CudaVersionKey207BeforeKey208();
    CudaVersionKey208BeforeKey209();
    CudaVersionKey209BeforeKey210();
  }

  lemma CudaVersionSlice210To210()
    ensures forall i | 210 <= i < 211 :: CudaVersionsOk(CudaVersionRows190To210(i))
  {
  }

  lemma CudaVersionRows190To210Ok()
    ensures forall i | 190 <= i < 211 :: CudaVersionsOk(CudaVersionRows190To210(i))
    ensures forall i | 190 <= i < 210 :: Precedes(CudaVersionRows190To210(i).0, CudaVersionRows190To210(i + 1).0)
  {
    CudaVersionSlice190To193();
    CudaVersionSlice194To197();
    CudaVersionSlice198To201();
    CudaVersionSlice202To205();
    CudaVersionSlice206To209();
    CudaVersionSlice210To210();
  }

  lemma CudaVersionSlice211To214()
    ensures forall i | 211 <= i < 215 :: CudaVersionsOk(CudaVersionRows211To222(i))
    ensures forall i | 211 <= i < 215 :: Precedes(CudaVersionRows211To222(i).0, CudaVersionRows211To222(i + 1).0)
  {
    CudaVersionKey211BeforeKey212();
    CudaVersionKey212BeforeKey213();
    CudaVersionKey213BeforeKey214();
    CudaVersionKey214BeforeKey215();
  }

  lemma CudaVersionSlice215To218()
    ensures forall i | 215 <= i < 219 :: CudaVersionsOk(CudaVersionRows211To222(i))
    ensures forall i | 215 <= i < 219 :: Precedes(CudaVersionRows211To222(i).0, CudaVersionRows211To222(i + 1).0)
  {
    CudaVersionKey215BeforeKey216();
    CudaVersionKey216BeforeKey217();
    CudaVersionKey217BeforeKey218();
    CudaVersionKey218BeforeKey219();
  }

  lemma CudaVersionSlice219To222()
    ensures forall i | 219 <= i < 223 :: CudaVersionsOk(CudaVersionRows211To222(i))
    ensures forall i | 219 <= i < 222 :: Precedes(CudaVersionRows211To222(i).0, CudaVersionRows211To222(i + 1).0)
  {
    CudaVersionKey219BeforeKey220();
    CudaVersionKey220BeforeKey221();
    CudaVersionKey221BeforeKey222();
  }

  lemma CudaVersionRows211To222Ok()
    ensures forall i | 211 <= i < 223 :: CudaVersionsOk(CudaVersionRows211To222(i))
    ensures forall i | 211 <= i < 222 :: Precedes(CudaVersionRows211To222(i).0, CudaVersionRows211To222(i + 1).0)
  {
    CudaVersionSlice211To214();
    CudaVersionSlice215To218();
    CudaVersionSlice219To222();
  }

  lemma CudaVersionSlice223To226()
    ensures forall i | 223 <= i < 227 :: CudaVersionsOk(CudaVersionRows223To239(i))
    ensures forall i | 223 <= i < 227 :: Precedes(CudaVersionRows223To239(i).0, CudaVersionRows223To239(i + 1).0)
  {
    CudaVersionKey223BeforeKey224();
    CudaVersionKey224BeforeKey225();
    CudaVersionKey225BeforeKey226();
    CudaVersionKey226BeforeKey227();
  }

  lemma CudaVersionSlice227To230()
    ensures forall i | 227 <= i < 231 :: CudaVersionsOk(CudaVersionRows223To239(i))
    ensures forall i | 227 <= i < 231 :: Precedes(CudaVersionRows223To239(i).0, CudaVersionRows223To239(i + 1).0)
  {
    CudaVersionKey227BeforeKey228();
    CudaVersionKey228BeforeKey229();
    CudaVersionKey229BeforeKey230();
    CudaVersionKey230BeforeKey231();
  }

  lemma CudaVersionSlice231To234()
    ensures forall i | 231 <= i < 235 :: CudaVersionsOk(CudaVersionRows223To239(i))
    ensures forall i | 231 <= i < 235 :: Precedes(CudaVersionRows223To239(i).0, CudaVersionRows223To239(i + 1).0)
  {
    CudaVersionKey231BeforeKey232();
    CudaVersionKey232BeforeKey233();
    CudaVersionKey233BeforeKey234();
    CudaVersionKey234BeforeKey235();
  }

  lemma CudaVersionSlice235To238()
    ensures forall i | 235 <= i < 239 :: CudaVersionsOk(CudaVersionRows223To239(i))
    ensures forall i | 235 <= i < 239 :: Precedes(CudaVersionRows223To239(i).0, CudaVersionRows223To239(i + 1).0)
  {
    CudaVersionKey235BeforeKey236();
    CudaVersionKey236BeforeKey237();
    CudaVersionKey237BeforeKey238();
    CudaVersionKey238BeforeKey239();
  }

  lemma CudaVersionSlice239To239()
    ensures forall i | 239 <= i < 240 :: CudaVersionsOk(CudaVersionRows223To239(i))
  {
  }

  lemma CudaVersionRows223To239Ok()
    ensures forall i | 223 <= i < 240 :: CudaVersionsOk(CudaVersionRows223To239(i))
    ensures forall i | 223 <= i < 239 :: Precedes(CudaVersionRows223To239(i).0, CudaVersionRows223To239(i + 1).0)
  {
    CudaVersionSlice223To226();
    CudaVersionSlice227To230();
    CudaVersionSlice231To234();
    CudaVersionSlice235To238();
    CudaVersionSlice239To239();
  }

  lemma CudaVersionSlice240To243()
    ensures forall i | 240 <= i < 244 :: CudaVersionsOk(CudaVersionRows240To261(i))
    ensures forall i | 240 <= i < 244 :: Precedes(CudaVersionRows240To261(i).0, CudaVersionRows240To261(i + 1).0)
  {
    CudaVersionKey240BeforeKey241();
    CudaVersionKey241BeforeKey242();
    CudaVersionKey242BeforeKey243();
    CudaVersionKey243BeforeKey244();
  }

  lemma CudaVersionSlice244To247()
    ensures forall i | 244 <= i < 248 :: CudaVersionsOk(CudaVersionRows240To261(i))
    ensures forall i | 244 <= i < 248 :: Precedes(CudaVersionRows240To261(i).0, CudaVersionRows240To261(i + 1).0)
  {
    CudaVersionKey244BeforeKey245();
    CudaVersionKey245BeforeKey246();
    CudaVersionKey246BeforeKey247();
    CudaVersionKey247BeforeKey248();
  }

  lemma CudaVersionSlice248To251()
    ensures forall i | 248 <= i < 252 :: CudaVersionsOk(CudaVersionRows240To261(i))
    ensures forall i | 248 <= i < 252 :: Precedes(CudaVersionRows240To261(i).0, CudaVersionRows240To261(i + 1).0)
  {
    CudaVersionKey248BeforeKey249();
    CudaVersionKey249BeforeKey250();
    CudaVersionKey250BeforeKey251();
    CudaVersionKey251BeforeKey252();
  }

  lemma CudaVersionSlice252To255()
    ensures forall i | 252 <= i < 256 :: CudaVersionsOk(CudaVersionRows240To261(i))
    ensures forall i | 252 <= i < 256 :: Precedes(CudaVersionRows240To261(i).0, CudaVersionRows240To261(i + 1).0)
  {
    CudaVersionKey252BeforeKey253();
    CudaVersionKey253BeforeKey254();
    CudaVersionKey254BeforeKey255();
    CudaVersionKey255BeforeKey256();
  }

  lemma CudaVersionSlice256To259()
    ensures forall i | 256 <= i < 260 :: CudaVersionsOk(CudaVersionRows240To261(i))
    ensures forall i | 256 <= i < 260 :: Precedes(CudaVersionRows240To261(i).0, CudaVersionRows240To261(i + 1).0)
  {
    CudaVersionKey256BeforeKey257();
    CudaVersionKey257BeforeKey258();
    CudaVersionKey258BeforeKey259();
    CudaVersionKey259BeforeKey260();
  }

  lemma CudaVersionSlice260To261()
    ensures forall i | 260 <= i < 262 :: CudaVersionsOk(CudaVersionRows240To261(i))
    ensures forall i | 260 <= i < 261 :: Precedes(CudaVersionRows240To261(i).0, CudaVersionRows240To261(i + 1).0)
  {
    CudaVersionKey260BeforeKey261();
  }

  lemma CudaVersionRows240To261Ok()
    ensures forall i | 240 <= i < 262 :: CudaVersionsOk(CudaVersionRows240To261(i))
    ensures forall i | 240 <= i < 261 :: Precedes(CudaVersionRows240To261(i).0, CudaVersionRows240To261(i + 1).0)
  {
    CudaVersionSlice240To243();
    CudaVersionSlice244To247();
    CudaVersionSlice248To251();
    CudaVersionSlice252To255();
    CudaVersionSlice256To259();
    CudaVersionSlice260To261();
  }

  lemma CudaVersionSlice262To265()
    ensures forall i | 262 <= i < 266 :: CudaVersionsOk(CudaVersionRows262To286(i))
    ensures forall i | 262 <= i < 266 :: Precedes(CudaVersionRows262To286(i).0, CudaVersionRows262To286(i + 1).0)
  {
    CudaVersionKey262BeforeKey263();
    CudaVersionKey263BeforeKey264();
    CudaVersionKey264BeforeKey265();
    CudaVersionKey265BeforeKey266();
  }

  lemma CudaVersionSlice266To269()
    ensures forall i | 266 <= i < 270 :: CudaVersionsOk(CudaVersionRows262To286(i))
    ensures forall i | 266 <= i < 270 :: Precedes(CudaVersionRows262To286(i).0, CudaVersionRows262To286(i + 1).0)
  {
    CudaVersionKey266BeforeKey267();
    CudaVersionKey267BeforeKey268();
    CudaVersionKey268BeforeKey269();
    CudaVersionKey269BeforeKey270();
  }

  lemma CudaVersionSlice270To273()
    ensures forall i | 270 <= i < 274 :: CudaVersionsOk(CudaVersionRows262To286(i))
    ensures forall i | 270 <= i < 274 :: Precedes(CudaVersionRows262To286(i).0, CudaVersionRows262To286(i + 1).0)
  {
    CudaVersionKey270BeforeKey271();
    CudaVersionKey271BeforeKey272();
    CudaVersionKey272BeforeKey273();
    CudaVersionKey273BeforeKey274();
  }

  lemma CudaVersionSlice274To277()
    ensures forall i | 274 <= i < 278 :: CudaVersionsOk(CudaVersionRows262To286(i))
    ensures forall i | 274 <= i < 278 :: Precedes(CudaVersionRows262To286(i).0, CudaVersionRows262To286(i + 1).0)
  {
    CudaVersionKey274BeforeKey275();
    CudaVersionKey275BeforeKey276();
    CudaVersionKey276BeforeKey277();
    CudaVersionKey277BeforeKey278();
  }

  lemma CudaVersionSlice278To281()
    ensures forall i | 278 <= i < 282 :: CudaVersionsOk(CudaVersionRows262To286(i))
    ensures forall i | 278 <= i < 282 :: Precedes(CudaVersionRows262To286(i).0, CudaVersionRows262To286(i + 1).0)
  {
    CudaVersionKey278BeforeKey279();
    CudaVersionKey279BeforeKey280();
    CudaVersionKey280BeforeKey281();
    CudaVersionKey281BeforeKey282();
  }

  lemma CudaVersionSlice282To285()
    ensures forall i | 282 <= i < 286 :: CudaVersionsOk(CudaVersionRows262To286(i))
    ensures forall i | 282 <= i < 286 :: Precedes(CudaVersionRows262To286(i).0, CudaVersionRows262To286(i + 1).0)
  {
    CudaVersionKey282BeforeKey283();
    CudaVersionKey283BeforeKey284();
    CudaVersionKey284BeforeKey285();
    CudaVersionKey285BeforeKey286();
  }

  lemma CudaVersionSlice286To286()
    ensures forall i | 286 <= i < 287 :: CudaVersionsOk(CudaVersionRows262To286(i))
  {
  }

  lemma CudaVersionRows262To286Ok()
    ensures forall i | 262 <= i < 287 :: CudaVersionsOk(CudaVersionRows262To286(i))
    ensures forall i | 262 <= i < 286 :: Precedes(CudaVersionRows262To286(i).0, CudaVersionRows262To286(i + 1).0)
  {
    CudaVersionSlice262To265();
    CudaVersionSlice266To269();
    CudaVersionSlice270To273();
    CudaVersionSlice274To277();
    CudaVersionSlice278To281();
    CudaVersionSlice282To285();
    CudaVersionSlice286To286();
  }

  lemma CudaVersionRows223To286Linked()
    ensures forall i | 239 <= i < 240 :: Precedes(CudaVersionRows223To239(i).0, CudaVersionRows240To261(i + 1).0)
    ensures forall i | 261 <= i < 262 :: Precedes(CudaVersionRows240To261(i).0, CudaVersionRows262To286(i + 1).0)
  {
    CudaVersionKey239BeforeKey240();
    CudaVersionKey261BeforeKey262();
  }

  lemma CudaVersionRows223To286Ok()
    ensures forall i | 223 <= i < 287 :: CudaVersionsOk(CudaVersionRows223To286(i))
    ensures forall i | 223 <= i < 286 :: Precedes(CudaVersionRows223To286(i).0, CudaVersionRows223To286(i + 1).0)
  {
    CudaVersionRows223To239Ok();
    CudaVersionRows240To261Ok();
    CudaVersionRows262To286Ok();
    CudaVersionRows223To286Linked();
  }

  lemma CudaVersionRowLink022()
    ensures forall i | 22 <= i < 23 :: Precedes(CudaVersionRows000To022(i).0, CudaVersionRows023To062(i + 1).0)
  {
    CudaVersionKey022BeforeKey023();
  }

  lemma CudaVersionRowLink062()
    ensures forall i | 62 <= i < 63 :: Precedes(CudaVersionRows023To062(i).0, CudaVersionRows063To112(i + 1).0)
  {
    CudaVersionKey062BeforeKey063();
  }

  lemma CudaVersionRowLink112()
    ensures forall i | 112 <= i < 113 :: Precedes(CudaVersionRows063To112(i).0, CudaVersionRows113To156(i + 1).0)
  {
    CudaVersionKey112BeforeKey113();
  }

  lemma CudaVersionRowLink156()
    ensures forall i | 156 <= i < 157 :: Precedes(CudaVersionRows113To156(i).0, CudaVersionRows157To189(i + 1).0)
  {
    CudaVersionKey156BeforeKey157();
  }

  lemma CudaVersionRowLink189()
    ensures forall i | 189 <= i < 190 :: Precedes(CudaVersionRows157To189(i).0, CudaVersionRows190To210(i + 1).0)
  {
    CudaVersionKey189BeforeKey190();
  }

  lemma CudaVersionRowLink210()
    ensures forall i | 210 <= i < 211 :: Precedes(CudaVersionRows190To210(i).0, CudaVersionRows211To222(i + 1).0)
  {
    CudaVersionKey210BeforeKey211();
  }

  lemma CudaVersionRowLink222()
    ensures forall i | 222 <= i < 223 :: Precedes(CudaVersionRows211To222(i).0, CudaVersionRows223To286(i + 1).0)
  {
    CudaVersionKey222BeforeKey223();
  }

  lemma CudaVersionRowOk()
    ensures forall i | 0 <= i < 287 :: CudaVersionsOk(CudaVersionRow(i))
    ensures forall i | 0 <= i < 286 :: Precedes(CudaVersionRow(i).0, CudaVersionRow(i + 1).0)
  {
    CudaVersionRows000To022Ok();
    CudaVersionRows023To062Ok();
    CudaVersionRows063To112Ok();
    CudaVersionRows113To156Ok();
    CudaVersionRows157To189Ok();
    CudaVersionRows190To210Ok();
    CudaVersionRows211To222Ok();
    CudaVersionRows223To286Ok();
    CudaVersionRowLink022();
    CudaVersionRowLink062();
    CudaVersionRowLink112();
    CudaVersionRowLink156();
    CudaVersionRowLink189();
    CudaVersionRowLink210();
    CudaVersionRowLink222();
  }
}
