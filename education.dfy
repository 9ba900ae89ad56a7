/** The education screen (app/education.tsx): four fields with their rules
    (the graduation year bounded by the current year), submit that appends
    and resets, a confirmed delete, and the list of added entries. */
module EducationScreen {
  import opened CvTypes
  import opened Text
  import opened Validation
  import opened RecordStore

  const InstitutionRules: seq<Rule> := [
    Required("Institución es obligatoria"),
    MatchPattern(LettersAndSpaces, "Solo se permiten letras y espacios"),
    MaxLength(50, "Máximo 50 caracteres")
  ]

  const DegreeRules: seq<Rule> := [
    Required("Título es obligatorio"),
    MaxLength(50, "Máximo 50 caracteres")
  ]

  const FieldRules: seq<Rule> := [
    Required("Área de estudio es obligatoria"),
    MaxLength(250, "Máximo 250 caracteres")
  ]

  /** The year rules are rebuilt with the current year on every render. */
  function GraduationYearRules(currentYear: nat): seq<Rule>
  {
    [
      Required("Año de graduación es obligatoria"),
      MatchPattern(DigitsOnly, "Debe ser un número"),
      Max(currentYear, "No puede ser mayor a " + NatToDecimal(currentYear))
    ]
  }

  /** The form's values (`Omit<Education, "id">`). */
  datatype EducationDraft = EducationDraft(institution: string, degree: string, field: string, graduationYear: string)

  const BlankDraft := EducationDraft("", "", "", "")

  /** All field errors of a draft, field by field. */
  function DraftErrors(d: EducationDraft, currentYear: nat): (errs: seq<string>)
    ensures errs == [] <==>
      && Accepts(InstitutionRules, d.institution) && Accepts(DegreeRules, d.degree)
      && Accepts(FieldRules, d.field) && Accepts(GraduationYearRules(currentYear), d.graduationYear)
  {
    Violations(InstitutionRules, d.institution) + Violations(DegreeRules, d.degree)
    + Violations(FieldRules, d.field) + Violations(GraduationYearRules(currentYear), d.graduationYear)
  }

  /** The year must be a non-empty digit string whose value is at most the
      current year: the current year itself passes, a later one fails. */
  lemma GraduationYearAccepted(year: string, currentYear: nat)
    ensures Accepts(GraduationYearRules(currentYear), year) <==>
      year != "" && AllDigits(year) && DecimalValue(year) <= currentYear
    ensures Accepts(GraduationYearRules(currentYear), NatToDecimal(currentYear))
    ensures !Accepts(GraduationYearRules(currentYear), NatToDecimal(currentYear + 1))
  {
    var rules := GraduationYearRules(currentYear);
    assert Accepts(rules, year) <==>
      Satisfies(rules[0], year) && Satisfies(rules[1], year) && Satisfies(rules[2], year);
    DecimalRoundTrip(currentYear);
    DecimalRoundTrip(currentYear + 1);
    var next := NatToDecimal(currentYear + 1);
    assert !Satisfies(rules[2], next);
  }

  /** The institution is required, at most 50 characters, letters and white
      space only; degree and field are required with 50 and 250 characters
      and no pattern. */
  lemma TextFieldsAccepted(d: EducationDraft)
    ensures Accepts(InstitutionRules, d.institution) <==>
      0 < |d.institution| <= 50 && forall k :: 0 <= k < |d.institution| ==> IsNameChar(d.institution[k])
    ensures Accepts(DegreeRules, d.degree) <==> d.degree != "" && Utf16Length(d.degree) <= 50
    ensures Accepts(FieldRules, d.field) <==> d.field != "" && Utf16Length(d.field) <= 250
  {
    var v := d.institution;
    assert Accepts(InstitutionRules, v) <==>
      Satisfies(InstitutionRules[0], v) && Satisfies(InstitutionRules[1], v) && Satisfies(InstitutionRules[2], v);
    if forall k :: 0 <= k < |v| ==> IsNameChar(v[k]) {
      NameTextLength(v);
    }
    assert Accepts(DegreeRules, d.degree) <==>
      Satisfies(DegreeRules[0], d.degree) && Satisfies(DegreeRules[1], d.degree);
    assert Accepts(FieldRules, d.field) <==>
      Satisfies(FieldRules[0], d.field) && Satisfies(FieldRules[1], d.field);
  }

  /** A card of the list: degree, field, institution and year, always all
      four lines. */
  function EducationLines(x: Education): seq<string>
  {
    [x.degree, x.field, x.institution, x.graduationYear]
  }

  /** The list under the form: nothing when empty, otherwise the title and
      one card per entry, in list order. */
  function ListView(entries: seq<Education>): (v: Option<(string, seq<seq<string>>)>)
    ensures v.None? <==> entries == []
    ensures v.Some? ==> v.value.0 == "Educación Agregada" && |v.value.1| == |entries|
    ensures v.Some? ==> forall i :: 0 <= i < |entries| ==> v.value.1[i] == EducationLines(entries[i])
  {
    if |entries| > 0 then
      Some(("Educación Agregada", seq(|entries|, i requires 0 <= i < |entries| => EducationLines(entries[i]))))
    else None
  }

  /** Adding an entry keeps the cards drawn before, in order, and draws the
      new one last. */
  lemma AddedEducationShownLast(entries: seq<Education>, x: Education)
    ensures ListView(entries + [x]).Some?
    ensures ListView(entries + [x]).value.1 ==
      (if entries == [] then [] else ListView(entries).value.1) + [EducationLines(x)]
  {
    var after := entries + [x];
    if entries != [] {
      assert forall i :: 0 <= i < |entries| ==> after[i] == entries[i];
    }
  }

  const SavedAlert := Alert("", "Educación agregada correctamente")

  class EducationForm {
    var draft: EducationDraft
    const store: CVStore

    constructor (store: CVStore)
      ensures this.store == store && draft == BlankDraft
    {
      this.store := store;
      draft := BlankDraft;
    }

    method Edit(values: EducationDraft)
      modifies this`draft
      ensures draft == values
    {
      draft := values;
    }

    /** `handleSubmit(onSubmit)` with the current year: a valid draft becomes
        one appended entry `{id, ...data}` and the form is reset to empty
        fields; an invalid one changes nothing. */
    method Submit(id: string, currentYear: nat) returns (r: SubmitResult)
      modifies this, store
      ensures r.Blocked? <==> DraftErrors(old(draft), currentYear) != []
      ensures r.Blocked? ==>
        && r.fieldErrors == DraftErrors(old(draft), currentYear)
        && draft == old(draft) && store.Snapshot() == old(store.Snapshot())
      ensures r.Alerted? ==>
        && r.alert == SavedAlert && draft == BlankDraft
        && var d := old(draft);
           store.Snapshot() == old(store.Snapshot()).(education :=
             old(store.education) + [Education(id, d.institution, d.degree, d.field, d.graduationYear)])
    {
      var errors := DraftErrors(draft, currentYear);
      if errors != [] {
        return Blocked(errors);
      }
      store.AddEducation(Education(id, draft.institution, draft.degree, draft.field, draft.graduationYear));
      draft := BlankDraft;
      r := Alerted(SavedAlert);
    }

    /** `confirm(...)` guards the delete: only a confirmed dialog removes. */
    method HandleDelete(id: string, confirmed: bool)
      modifies store
      ensures store.Snapshot() ==
        if confirmed then old(store.Snapshot()).(education := WithoutId(old(store.education), EducationId, id))
        else old(store.Snapshot())
    {
      if confirmed {
        store.DeleteEducation(id);
      }
    }
  }
}
