/** The experience screen (app/experience.tsx): the text fields and their
    rules, the month-year picker that fills the two date fields, submit with
    the ordered date checks, append and reset, the confirmed delete, and the
    list of added experiences. */
module ExperienceScreen {
  import opened CvTypes
  import opened Text
  import opened Validation
  import opened RecordStore
  import opened ExperienceDates

  const CompanyRules: seq<Rule> := [
    Required("Empresa es obligatoria"),
    MaxLength(50, "Máximo 50 caracteres"),
    MatchPattern(LettersAndSpaces, "Solo se permiten letras y espacios")
  ]

  const PositionRules: seq<Rule> := [
    Required("Cargo es obligatorio"),
    MaxLength(50, "Máximo 50 caracteres"),
    MatchPattern(LettersAndSpaces, "Solo se permiten letras y espacios")
  ]

  const DescriptionRules: seq<Rule> := [
    MaxLength(250, "Máximo 250 caracteres")
  ]

  /** The form's values (`Omit<Experience, "id">`). The two date inputs are
      not editable: only the picker writes them. */
  datatype ExperienceDraft = ExperienceDraft(
    company: string,
    position: string,
    startDate: string,
    endDate: string,
    description: string)

  const BlankDraft := ExperienceDraft("", "", "", "", "")

  /** The field errors `handleSubmit` checks before `onSubmit` runs; the date
      fields have no rules of their own. */
  function DraftErrors(d: ExperienceDraft): (errs: seq<string>)
    ensures errs == [] <==>
      Accepts(CompanyRules, d.company) && Accepts(PositionRules, d.position)
      && Accepts(DescriptionRules, d.description)
  {
    Violations(CompanyRules, d.company) + Violations(PositionRules, d.position)
    + Violations(DescriptionRules, d.description)
  }

  /** The company is required, at most 50 characters, letters and white
      space only. */
  lemma CompanyAccepted(v: string)
    ensures Accepts(CompanyRules, v) <==> 0 < |v| <= 50 && forall k :: 0 <= k < |v| ==> IsNameChar(v[k])
  {
    assert Accepts(CompanyRules, v) <==>
      Satisfies(CompanyRules[0], v) && Satisfies(CompanyRules[1], v) && Satisfies(CompanyRules[2], v);
    if forall k :: 0 <= k < |v| ==> IsNameChar(v[k]) {
      NameTextLength(v);
    }
  }

  /** The position follows the same three rules as the company. */
  lemma PositionAccepted(v: string)
    ensures Accepts(PositionRules, v) <==> 0 < |v| <= 50 && forall k :: 0 <= k < |v| ==> IsNameChar(v[k])
  {
    assert Accepts(PositionRules, v) <==>
      Satisfies(PositionRules[0], v) && Satisfies(PositionRules[1], v) && Satisfies(PositionRules[2], v);
    if forall k :: 0 <= k < |v| ==> IsNameChar(v[k]) {
      NameTextLength(v);
    }
  }

  /** The description is optional and at most 250 UTF-16 units: the empty
      one passes. */
  lemma DescriptionAccepted(v: string)
    ensures Accepts(DescriptionRules, v) <==> Utf16Length(v) <= 250
    ensures Accepts(DescriptionRules, "")
  {
    assert Accepts(DescriptionRules, v) <==> Satisfies(DescriptionRules[0], v);
    assert Accepts(DescriptionRules, "") <==> Satisfies(DescriptionRules[0], "");
  }

  /** A date field holds "" or a text the picker wrote. */
  ghost predicate IsDateText(s: string)
  {
    s == "" || exists d: MonthYear :: s == FormatMonthYear(d)
  }

  /** A non-empty date field always reads back as a valid `Date`: the NaN
      branch of the checks cannot be reached from the form. */
  lemma DateTextIsValidDate(s: string)
    requires IsDateText(s) && s != ""
    ensures DateOfText(s).MonthStart?
    ensures exists d: MonthYear :: s == FormatMonthYear(d) && ParseDateText(s) == ParsedDate(d.month, Some(d.year))
  {
    var d: MonthYear :| s == FormatMonthYear(d);
    FormatThenParse(d);
  }

  datatype DateField = StartDate | EndDate

  /** What the native picker reports: dismissed, or a change with the
      selected date's month and year when there is one. */
  datatype PickerEvent = Dismissed | DateSet(selected: Option<MonthYear>)

  /** `setValue(field, text)` on one of the two date fields. */
  function WithDate(d: ExperienceDraft, field: DateField, text: string): ExperienceDraft
  {
    match field
    case StartDate => d.(startDate := text)
    case EndDate => d.(endDate := text)
  }

  /** The record submit adds: `{ id, ...data }`. */
  function RecordOf(id: string, d: ExperienceDraft): Experience
  {
    Experience(id, d.company, d.position, d.startDate, d.endDate, d.description)
  }

  /** The list under the form: nothing when empty, otherwise the title and
      one card per experience, in list order, with "Actual" for an empty end
      date and the description only when non-empty. */
  function ListView(xs: seq<Experience>): (v: Option<(string, seq<seq<string>>)>)
    ensures v.None? <==> xs == []
    ensures v.Some? ==> v.value.0 == "Experiencias Agregadas" && |v.value.1| == |xs|
    ensures v.Some? ==> forall i :: 0 <= i < |xs| ==> v.value.1[i] == ExperienceLines(xs[i])
  {
    if |xs| > 0 then
      Some(("Experiencias Agregadas", seq(|xs|, i requires 0 <= i < |xs| => ExperienceLines(xs[i]))))
    else None
  }

  /** Adding an experience keeps the cards drawn before, in order, and draws
      the new one last. */
  lemma AddedExperienceShownLast(xs: seq<Experience>, x: Experience)
    ensures ListView(xs + [x]).Some?
    ensures ListView(xs + [x]).value.1 ==
      (if xs == [] then [] else ListView(xs).value.1) + [ExperienceLines(x)]
  {
    var after := xs + [x];
    if xs != [] {
      assert forall i :: 0 <= i < |xs| ==> after[i] == xs[i];
    }
  }

  const SavedAlert := Alert("Éxito", "Experiencia agregada correctamente")

  class ExperienceForm {
    var draft: ExperienceDraft
    var pickerField: Option<DateField>
    var pickerDate: MonthYear
    const store: CVStore

    /** The date fields only ever hold "" or a picker-written text. */
    ghost predicate Valid()
      reads this
    {
      IsDateText(draft.startDate) && IsDateText(draft.endDate)
    }

    constructor (store: CVStore, now: MonthYear)
      ensures Valid() && this.store == store
      ensures draft == BlankDraft && pickerField == None && pickerDate == now
    {
      this.store := store;
      draft := BlankDraft;
      pickerField := None;
      pickerDate := now;
    }

    /** Typing into company, position and description. */
    method EditText(company: string, position: string, description: string)
      requires Valid()
      modifies this`draft
      ensures Valid()
      ensures draft == old(draft).(company := company, position := position, description := description)
    {
      draft := draft.(company := company, position := position, description := description);
    }

    /** Focusing a date input opens the picker for that field at today. */
    method OpenPicker(field: DateField, now: MonthYear)
      modifies this`pickerField, this`pickerDate
      ensures pickerField == Some(field) && pickerDate == now
    {
      pickerField := Some(field);
      pickerDate := now;
    }

    /** `onDateChange`: a dismissal closes the picker; a selected date is
        written to the open field as "<MonthName> <Year>" and the picker
        closes; anything else changes nothing. */
    method OnDateChange(event: PickerEvent)
      requires Valid()
      modifies this`draft, this`pickerField
      ensures Valid()
      ensures event.Dismissed? ==> pickerField == None && draft == old(draft)
      ensures event.DateSet? && event.selected.Some? && old(pickerField).Some? ==>
        && pickerField == None
        && draft == WithDate(old(draft), old(pickerField).value, FormatMonthYear(event.selected.value))
      ensures event.DateSet? && (event.selected.None? || old(pickerField).None?) ==>
        pickerField == old(pickerField) && draft == old(draft)
    {
      if event.Dismissed? {
        pickerField := None;
        return;
      }
      if event.selected.Some? && pickerField.Some? {
        var text := FormatMonthYear(event.selected.value);
        draft := WithDate(draft, pickerField.value, text);
        pickerField := None;
      }
    }

    /** `handleSubmit(onSubmit)`: field errors block; then the date checks
        run in order and the first failure is alerted with nothing added; on
        success exactly one record is appended and all five fields are
        reset to "". */
    method Submit(id: string, today: MonthYear) returns (r: SubmitResult)
      requires Valid()
      modifies this`draft, store
      ensures Valid()
      ensures r.Blocked? <==> DraftErrors(old(draft)) != []
      ensures r.Blocked? ==>
        r.fieldErrors == DraftErrors(old(draft)) && draft == old(draft)
        && store.Snapshot() == old(store.Snapshot())
      ensures r.Alerted? ==>
        match CheckDates(old(draft.startDate), old(draft.endDate), today)
        case Some(message) =>
          r.alert == Alert("Error", message) && draft == old(draft)
          && store.Snapshot() == old(store.Snapshot())
        case None =>
          r.alert == SavedAlert && draft == BlankDraft
          && store.Snapshot() == old(store.Snapshot()).(experiences := old(store.experiences) + [RecordOf(id, old(draft))])
    {
      var errors := DraftErrors(draft);
      if errors != [] {
        return Blocked(errors);
      }
      var verdict := CheckDates(draft.startDate, draft.endDate, today);
      if verdict.Some? {
        return Alerted(Alert("Error", verdict.value));
      }
      store.AddExperience(RecordOf(id, draft));
      r := Alerted(SavedAlert);
      draft := BlankDraft;
    }

    /** `handleDelete`: removes only when "Eliminar" is chosen. The screen's
        list draws no delete button, so nothing calls it. */
    method HandleDelete(id: string, confirmed: bool)
      modifies store
      ensures store.Snapshot() ==
        if confirmed then old(store.Snapshot()).(experiences := WithoutId(old(store.experiences), ExperienceId, id))
        else old(store.Snapshot())
    {
      if confirmed {
        store.DeleteExperience(id);
      }
    }
  }
}
