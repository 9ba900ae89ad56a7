/** The CV record: one personal-info block and three ordered lists whose
    entries each carry a string id (types/cv.types.ts). */
module CvTypes {

  datatype Option<+T> = None | Some(value: T)

  /** `profileImage?: string` is the only optional field; the other five are
      plain strings. */
  datatype PersonalInfo = PersonalInfo(
    fullName: string,
    email: string,
    phone: string,
    location: string,
    summary: string,
    profileImage: Option<string>)

  /** The closed string enum of skill levels. */
  datatype LevelSkill = Basic | Intermediate | Advanced | Expert

  datatype Skill = Skill(id: string, name: string, level: LevelSkill)

  /** `endDate` is not optional: the empty string means "ongoing". */
  datatype Experience = Experience(
    id: string,
    company: string,
    position: string,
    startDate: string,
    endDate: string,
    description: string)

  datatype Education = Education(
    id: string,
    institution: string,
    degree: string,
    field: string,
    graduationYear: string)

  datatype CVData = CVData(
    personalInfo: PersonalInfo,
    experiences: seq<Experience>,
    education: seq<Education>,
    skills: seq<Skill>)

  /** JavaScript truthiness of an optional string: present and not "". */
  predicate Truthy(s: Option<string>)
  {
    s.Some? && s.value != ""
  }

  const BlankPersonalInfo := PersonalInfo("", "", "", "", "", None)
  const EmptyCV := CVData(BlankPersonalInfo, [], [], [])

  /** The string value each enum member stands for. */
  function LevelLabel(level: LevelSkill): (s: string)
    ensures s in LevelLabels
  {
    match level
    case Basic => "Básico"
    case Intermediate => "Intermedio"
    case Advanced => "Avanzado"
    case Expert => "Experto"
  }

  /** `Object.values(LevelSkill)`, in declaration order. */
  const AllLevels: seq<LevelSkill> := [Basic, Intermediate, Advanced, Expert]
  const LevelLabels: seq<string> := ["Básico", "Intermedio", "Avanzado", "Experto"]

  /** The inverse of LevelLabel, used where the picker's value becomes a
      level. The source's `as LevelSkill` checks nothing at run time; the
      picker only offers the four labels, so `None` is never reached there. */
  function LevelOfLabel(text: string): (r: Option<LevelSkill>)
    ensures r.Some? <==> text in LevelLabels
    ensures r.Some? ==> LevelLabel(r.value) == text
  {
    if text == "Básico" then Some(Basic)
    else if text == "Intermedio" then Some(Intermediate)
    else if text == "Avanzado" then Some(Advanced)
    else if text == "Experto" then Some(Expert)
    else None
  }

  /** The enum has exactly four members, with four distinct labels, and the
      label of a level reads back as that level. */
  lemma LevelSkillIsClosed(level: LevelSkill)
    ensures level in AllLevels
    ensures |AllLevels| == 4 && |LevelLabels| == 4
    ensures forall i, j :: 0 <= i < j < 4 ==> LevelLabels[i] != LevelLabels[j]
    ensures forall i :: 0 <= i < 4 ==> LevelLabel(AllLevels[i]) == LevelLabels[i]
    ensures LevelOfLabel(LevelLabel(level)) == Some(level)
  {
  }
}
