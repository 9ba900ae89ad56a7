/** The skills screen (app/skill.tsx): a name field with its rules, a level
    picker over the four enum values, submit that appends and resets, a
    confirmed delete, and the list of added skills. */
module SkillScreen {
  import opened CvTypes
  import opened Validation
  import opened RecordStore

  const NameRules: seq<Rule> := [
    Required("El nombre de la habilidad es obligatorio"),
    MatchPattern(LettersAndSpaces, "Solo se permiten letras y espacios"),
    MaxLength(50, "Máximo 50 caracteres")
  ]

  /** A skill name is accepted exactly when it is non-empty, at most 50
      characters, and made only of letters and white space. */
  lemma NameAccepted(name: string)
    ensures Accepts(NameRules, name) <==>
      0 < |name| <= 50 && forall k :: 0 <= k < |name| ==> IsNameChar(name[k])
  {
    assert Accepts(NameRules, name) <==>
      Satisfies(NameRules[0], name) && Satisfies(NameRules[1], name) && Satisfies(NameRules[2], name);
    if forall k :: 0 <= k < |name| ==> IsNameChar(name[k]) {
      NameTextLength(name);
    }
  }

  /** The picker's items, `Object.values(LevelSkill)`: the four labels in
      declaration order, each of which casts back to its level. */
  function PickerItems(): (items: seq<string>)
    ensures items == LevelLabels
    ensures forall i :: 0 <= i < |items| ==> LevelOfLabel(items[i]) == Some(AllLevels[i])
  {
    seq(|AllLevels|, i requires 0 <= i < |AllLevels| => LevelLabel(AllLevels[i]))
  }

  datatype SkillCard = SkillCard(title: string, levelLine: string)

  /** What the list part of the screen shows: a message, or a heading over
      the cards. */
  datatype SkillList = NoSkillsMessage(text: string) | SkillCards(heading: string, cards: seq<SkillCard>)

  const NoSkillsText := "No has agregado habilidades aún."
  const SkillsHeading := "Habilidades Agregadas"

  function CardOf(s: Skill): SkillCard
  {
    SkillCard(s.name, "Nivel: " + LevelLabel(s.level))
  }

  /** A message when there are no skills; otherwise the heading and one
      card per skill, in list order, with its name and "Nivel: " level line. */
  function ListView(skills: seq<Skill>): (v: SkillList)
    ensures skills == [] <==> v == NoSkillsMessage(NoSkillsText)
    ensures skills != [] ==> v.SkillCards? && v.heading == SkillsHeading && |v.cards| == |skills|
    ensures v.SkillCards? ==> forall i :: 0 <= i < |skills| ==> v.cards[i] == CardOf(skills[i])
  {
    if |skills| > 0 then SkillCards(SkillsHeading, seq(|skills|, i requires 0 <= i < |skills| => CardOf(skills[i])))
    else NoSkillsMessage(NoSkillsText)
  }

  /** Adding a skill keeps the cards shown before, in order, and shows the new
      one last. */
  lemma AddedSkillShownLast(skills: seq<Skill>, s: Skill)
    ensures ListView(skills + [s]).SkillCards?
    ensures ListView(skills + [s]).cards ==
      (if skills == [] then [] else ListView(skills).cards) + [CardOf(s)]
  {
    var after := skills + [s];
    if skills != [] {
      assert forall i :: 0 <= i < |skills| ==> after[i] == skills[i];
    }
  }

  const SavedAlert := Alert("Éxito", "Habilidad agregada correctamente")

  class SkillForm {
    var name: string
    var level: LevelSkill
    const store: CVStore

    /** The form starts with an empty name and the basic level. */
    constructor (store: CVStore)
      ensures this.store == store && name == "" && level == Basic
    {
      this.store := store;
      name := "";
      level := Basic;
    }

    method EnterName(value: string)
      modifies this`name
      ensures name == value
    {
      name := value;
    }

    /** `onValueChange` of the picker, whose items are the four levels. */
    method SelectLevel(choice: LevelSkill)
      modifies this`level
      ensures level == choice
    {
      level := choice;
    }

    /** `handleSubmit(onSubmit)`: with a valid name, one skill `{id, name,
        level}` is appended and the form goes back to "" and the basic level;
        otherwise nothing changes. */
    method Submit(id: string) returns (r: SubmitResult)
      modifies this, store
      ensures r.Blocked? <==> !Accepts(NameRules, old(name))
      ensures r.Blocked? ==>
        && r.fieldErrors == Violations(NameRules, old(name))
        && name == old(name) && level == old(level)
        && store.Snapshot() == old(store.Snapshot())
      ensures r.Alerted? ==>
        && r.alert == SavedAlert
        && store.Snapshot() == old(store.Snapshot()).(skills := old(store.skills) + [Skill(id, old(name), old(level))])
        && name == "" && level == Basic
    {
      var errors := Violations(NameRules, name);
      if errors != [] {
        return Blocked(errors);
      }
      store.AddSkill(Skill(id, name, level));
      r := Alerted(SavedAlert);
      name := "";
      level := Basic;
    }

    /** The delete button: the skill is removed only when the user picks
        "Eliminar" in the confirmation. */
    method HandleDelete(id: string, confirmed: bool)
      modifies store
      ensures store.Snapshot() ==
        if confirmed then old(store.Snapshot()).(skills := WithoutId(old(store.skills), SkillId, id))
        else old(store.Snapshot())
    {
      if confirmed {
        store.DeleteSkill(id);
      }
    }
  }
}
