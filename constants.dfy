/** The constant tables of constants.ts: traits per personality type and the relationship tables. */
module Constants {
  import opened Types

  /**
   * A personality type's traits. `contempt` is the engine's Contempt option
   * (-100 defensive .. 100 aggressive); `chatFrequency` (0..1) is the chance
   * of speaking on an ordinary move.
   */
  datatype Trait = Trait(style: string, chatFrequency: real, contempt: int)

  /** MBTI_TRAITS: defined for every one of the sixteen types, within the documented ranges. */
  function Traits(m: MBTI): (t: Trait)
    ensures -100 <= t.contempt <= 100
    ensures 0.0 <= t.chatFrequency <= 1.0
  {
    match m
    // Analysts
    case INTJ => Trait("용의주도한 전략가", 0.3, 20)
    case INTP => Trait("논리적인 사색가", 0.2, 10)
    case ENTJ => Trait("대담한 통솔자", 0.7, 60)
    case ENTP => Trait("뜨거운 논쟁을 즐기는 변론가", 0.9, 50)
    // Diplomats
    case INFJ => Trait("선의의 옹호자", 0.2, 0)
    case INFP => Trait("열정적인 중재자", 0.4, -10)
    case ENFJ => Trait("정의로운 사회운동가", 0.6, 30)
    case ENFP => Trait("재기발랄한 활동가", 0.8, 20)
    // Sentinels
    case ISTJ => Trait("청렴결백한 논리주의자", 0.1, -30)
    case ISFJ => Trait("용감한 수호자", 0.2, -50)
    case ESTJ => Trait("엄격한 관리자", 0.5, 40)
    case ESFJ => Trait("사교적인 외교관", 0.6, -10)
    // Explorers
    case ISTP => Trait("만능 재주꾼", 0.2, 30)
    case ISFP => Trait("호기심 많은 예술가", 0.3, 0)
    case ESTP => Trait("모험을 즐기는 사업가", 0.8, 80)
    case ESFP => Trait("자유로운 영혼의 연예인", 0.9, 40)
  }

  /** The labels offered in the setup form. */
  const RelationshipOptions: seq<string> := [
    "라이벌", "절친", "동료", "원수", "연인", "가족", "남남",
    "스승", "제자", "팬", "스타", "짝사랑", "갑", "을"
  ]

  /** How the other player regards this one, for each label, in mutual mode. */
  const MutualRelationshipMap: map<string, string> := map[
    "라이벌" := "라이벌",
    "절친" := "절친",
    "동료" := "동료",
    "원수" := "원수",
    "연인" := "연인",
    "가족" := "가족",
    "남남" := "남남",
    "스승" := "제자",
    "제자" := "스승",
    "팬" := "스타",
    "스타" := "팬",
    "짝사랑" := "무관심",
    "무관심" := "짝사랑",
    "갑" := "을",
    "을" := "갑"
  ]

  /** `MUTUAL_RELATIONSHIP_MAP[v] || v`: the mapped label, or v itself when v is not a key. */
  function Reciprocal(v: string): (r: string)
    ensures v in MutualRelationshipMap ==> r == MutualRelationshipMap[v]
    ensures v !in MutualRelationshipMap ==> r == v
  {
    if v in MutualRelationshipMap && MutualRelationshipMap[v] != "" then MutualRelationshipMap[v] else v
  }

  /** The labels the reciprocal map is defined for. */
  const MappedLabels: set<string> := {"라이벌", "절친", "동료", "원수", "연인", "가족", "남남", "스승", "제자", "팬", "스타", "짝사랑", "무관심", "갑", "을"}

  lemma MapKeys()
    ensures MutualRelationshipMap.Keys == MappedLabels
  {
  }

  /** The reciprocal map is an involution: every value is a key and maps back. */
  lemma MapIsInvolution()
    ensures forall k :: k in MutualRelationshipMap ==>
      MutualRelationshipMap[k] in MutualRelationshipMap
      && MutualRelationshipMap[MutualRelationshipMap[k]] == k
  {
    MapKeys();
    assert MutualRelationshipMap["라이벌"] == "라이벌";
    assert MutualRelationshipMap["절친"] == "절친";
    assert MutualRelationshipMap["동료"] == "동료";
    assert MutualRelationshipMap["원수"] == "원수";
    assert MutualRelationshipMap["연인"] == "연인";
    assert MutualRelationshipMap["가족"] == "가족";
    assert MutualRelationshipMap["남남"] == "남남";
    assert MutualRelationshipMap["스승"] == "제자";
    assert MutualRelationshipMap["제자"] == "스승";
    assert MutualRelationshipMap["팬"] == "스타";
    assert MutualRelationshipMap["스타"] == "팬";
    assert MutualRelationshipMap["짝사랑"] == "무관심";
    assert MutualRelationshipMap["무관심"] == "짝사랑";
    assert MutualRelationshipMap["갑"] == "을";
    assert MutualRelationshipMap["을"] == "갑";
  }

  /** So taking the reciprocal twice gives back any label, whether a key or not. */
  lemma ReciprocalInvolution(v: string)
    ensures Reciprocal(Reciprocal(v)) == v
  {
    MapIsInvolution();
  }

  /** Every offered label is a key of the map, but the value "무관심" is not offered. */
  lemma OptionsAreKeys()
    ensures forall o :: o in RelationshipOptions ==> o in MutualRelationshipMap
    ensures "무관심" in MutualRelationshipMap.Values && "무관심" !in RelationshipOptions
  {
    assert MutualRelationshipMap["짝사랑"] == "무관심";
  }
}
