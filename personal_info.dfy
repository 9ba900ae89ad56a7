/** The personal-information screen (app/personal-info.tsx): five fields with
    their rules; the form starts from the stored record and submit replaces
    the stored record as a whole. */
module PersonalInfoScreen {
  import opened CvTypes
  import opened Text
  import opened Validation
  import opened RecordStore

  const FullNameRules: seq<Rule> := [
    Required("Nombre completo es obligatorio"),
    MatchPattern(LettersAndSpaces, "Solo se permiten letras y espacios"),
    MaxLength(50, "Máximo 50 caracteres")
  ]

  const EmailRules: seq<Rule> := [
    Required("Email es obligatorio"),
    MatchPattern(EmailShape, "Email inválido")
  ]

  const PhoneRules: seq<Rule> := [
    Required("Teléfono es obligatorio"),
    MatchPattern(DigitsAndPlus, "Solo números y +"),
    MaxLength(15, "Máximo 15 caracteres")
  ]

  const LocationRules: seq<Rule> := [
    Required("Ubicación es obligatoria"),
    MaxLength(50, "Máximo 50 caracteres")
  ]

  const SummaryRules: seq<Rule> := [
    MaxLength(250, "Máximo 250 caracteres")
  ]

  /** All field errors of the form, field by field; `profileImage` has no
      input and no rules. */
  function FormErrors(p: PersonalInfo): (errs: seq<string>)
    ensures errs == [] <==>
      && Accepts(FullNameRules, p.fullName) && Accepts(EmailRules, p.email)
      && Accepts(PhoneRules, p.phone) && Accepts(LocationRules, p.location)
      && Accepts(SummaryRules, p.summary)
  {
    Violations(FullNameRules, p.fullName) + Violations(EmailRules, p.email)
    + Violations(PhoneRules, p.phone) + Violations(LocationRules, p.location)
    + Violations(SummaryRules, p.summary)
  }

  /** The full name: required, at most 50 characters, letters and white
      space only. */
  lemma FullNameAccepted(v: string)
    ensures Accepts(FullNameRules, v) <==>
      0 < |v| <= 50 && forall k :: 0 <= k < |v| ==> IsNameChar(v[k])
  {
    assert Accepts(FullNameRules, v) <==>
      Satisfies(FullNameRules[0], v) && Satisfies(FullNameRules[1], v) && Satisfies(FullNameRules[2], v);
    if forall k :: 0 <= k < |v| ==> IsNameChar(v[k]) {
      NameTextLength(v);
    }
  }

  /** The email: required and of the shape `^\S+@\S+\.\S+$`. */
  lemma EmailAccepted(v: string)
    ensures Accepts(EmailRules, v) <==> IsEmailShape(v)
  {
    assert Accepts(EmailRules, v) <==> Satisfies(EmailRules[0], v) && Satisfies(EmailRules[1], v);
  }

  /** The phone: required, at most 15 characters, only digits and `+`, the
      `+` allowed anywhere. */
  lemma PhoneAccepted(v: string)
    ensures Accepts(PhoneRules, v) <==>
      0 < |v| <= 15 && forall k :: 0 <= k < |v| ==> IsPhoneChar(v[k])
  {
    assert Accepts(PhoneRules, v) <==>
      Satisfies(PhoneRules[0], v) && Satisfies(PhoneRules[1], v) && Satisfies(PhoneRules[2], v);
    if forall k :: 0 <= k < |v| ==> IsPhoneChar(v[k]) {
      assert forall k :: 0 <= k < |v| ==> v[k] as int < 0x1_0000;
    }
  }

  /** The location: required and at most 50 UTF-16 units, any characters. */
  lemma LocationAccepted(v: string)
    ensures Accepts(LocationRules, v) <==> v != "" && Utf16Length(v) <= 50
  {
    assert Accepts(LocationRules, v) <==> Satisfies(LocationRules[0], v) && Satisfies(LocationRules[1], v);
  }

  /** The summary is optional: the empty value passes and the bound is
      inclusive, 250 characters pass and 251 fail. */
  lemma SummaryAccepted(v: string)
    ensures Accepts(SummaryRules, v) <==> Utf16Length(v) <= 250
    ensures Accepts(SummaryRules, "")
    ensures (forall k :: 0 <= k < |v| ==> v[k] as int < 0x1_0000) ==>
      (Accepts(SummaryRules, v) <==> |v| <= 250)
  {
    assert Accepts(SummaryRules, v) <==> Satisfies(SummaryRules[0], v);
    assert Accepts(SummaryRules, "") <==> Satisfies(SummaryRules[0], "");
  }

  /** A name with digits is rejected. */
  lemma NameWithDigitsRejected()
    ensures !Accepts(FullNameRules, "Juan123")
  {
    var v := "Juan123";
    FullNameAccepted(v);
    assert v[4] == '1';
  }

  /** A name with an accented letter and a space is accepted. */
  lemma AccentedNameAccepted()
    ensures Accepts(FullNameRules, "Juan Pérez")
  {
    var v := "Juan Pérez";
    assert 0 < |v| <= 50 && forall k :: 0 <= k < |v| ==> IsNameChar(v[k]) by {
      assert |v| == 10;
      assert IsNameChar(v[0]) && IsNameChar(v[1]) && IsNameChar(v[2]) && IsNameChar(v[3]);
      assert IsNameChar(v[4]) && IsNameChar(v[5]) && IsNameChar(v[6]);
      assert IsNameChar(v[7]) && IsNameChar(v[8]) && IsNameChar(v[9]);
    }
    FullNameAccepted(v);
  }

  /** "a@b.c" has the email shape. */
  lemma ShortEmailAccepted()
    ensures Accepts(EmailRules, "a@b.c")
  {
    var v := "a@b.c";
    EmailAccepted(v);
    assert v[1] == '@' && v[3] == '.';
  }

  /** "a.b.com", with no `@`, does not. */
  lemma EmailWithoutAtRejected()
    ensures !Accepts(EmailRules, "a.b.com")
  {
    var v := "a.b.com";
    EmailAccepted(v);
    assert forall k :: 0 <= k < |v| ==> v[k] != '@';
  }

  /** The phone field's own placeholder is rejected, because of its
      spaces. */
  lemma PhonePlaceholderRejected()
    ensures !Accepts(PhoneRules, "+593 99 999 9999")
  {
    var v := "+593 99 999 9999";
    PhoneAccepted(v);
    assert v[4] == ' ';
  }

  /** The same number without spaces is accepted. */
  lemma PhoneDigitsAccepted()
    ensures Accepts(PhoneRules, "+593999999999")
  {
    var v := "+593999999999";
    assert 0 < |v| <= 15 && forall k :: 0 <= k < |v| ==> IsPhoneChar(v[k]) by {
      assert |v| == 13;
      assert v[0] == '+' && forall k :: 1 <= k < 13 ==> '0' <= v[k] <= '9';
    }
    PhoneAccepted(v);
  }

  const SavedAlert := Alert("", "Información guardada correctamente")

  class PersonalInfoForm {
    var values: PersonalInfo
    const store: CVStore

    /** `defaultValues: cvData.personalInfo`: the form starts from the stored
        record, its image included. */
    constructor (store: CVStore)
      ensures this.store == store && values == store.personalInfo
    {
      this.store := store;
      values := store.personalInfo;
    }

    /** Typing into the five inputs; the image is not an input. */
    method Edit(fullName: string, email: string, phone: string, location: string, summary: string)
      modifies this`values
      ensures values == old(values).(fullName := fullName, email := email, phone := phone,
                                     location := location, summary := summary)
    {
      values := values.(fullName := fullName, email := email, phone := phone,
                        location := location, summary := summary);
    }

    /** `handleSubmit(onSubmit)`: valid values replace the stored personal
        info as a whole; invalid ones change nothing. */
    method Submit() returns (r: SubmitResult)
      modifies store
      ensures r.Blocked? <==> FormErrors(values) != []
      ensures r.Blocked? ==> r.fieldErrors == FormErrors(values) && store.Snapshot() == old(store.Snapshot())
      ensures r.Alerted? ==>
        r.alert == SavedAlert && store.Snapshot() == old(store.Snapshot()).(personalInfo := values)
    {
      var errors := FormErrors(values);
      if errors != [] {
        return Blocked(errors);
      }
      store.UpdatePersonalInfo(values);
      r := Alerted(SavedAlert);
    }
  }
}
