/** The home screen (app/index.tsx): one status text per part of the CV,
    derived from the stored CV alone. */
module HomeScreen {
  import opened CvTypes
  import opened Text
  import opened Validation
  import opened PersonalInfoScreen

  const PendingText := "Pendiente"
  const CompletedText := "\U{2713} Completado"
  const PhotoAddedText := "\U{2713} Agregada"
  const PhotoOptionalText := "Opcional"
  const ChangePhotoText := "Cambiar Foto"
  const UploadPhotoText := "Subir Foto"
  const CountPrefix := "\U{2713} "
  const CountSuffix := " agregada(s)"

  /** `fullName && email`: only the name and the email are looked at. */
  predicate IsPersonalInfoComplete(p: PersonalInfo)
  {
    p.fullName != "" && p.email != ""
  }

  /** "✓ N agregada(s)" for a non-empty list, "Pendiente" otherwise. */
  function CountStatus(n: nat): string
  {
    if n > 0 then CountPrefix + NatToDecimal(n) + CountSuffix else PendingText
  }

  /** The count a status text reports, if it reports one. */
  function CountOfStatus(s: string): (r: Option<nat>)
    ensures r.Some? ==> |CountPrefix| + |CountSuffix| < |s| && s[..|CountPrefix|] == CountPrefix
  {
    if |CountPrefix| + |CountSuffix| < |s| && s[..|CountPrefix|] == CountPrefix
       && s[|s| - |CountSuffix|..] == CountSuffix && AllDigits(s[|CountPrefix|..|s| - |CountSuffix|])
    then Some(DecimalValue(s[|CountPrefix|..|s| - |CountSuffix|]))
    else None
  }

  /** A count status reads back as the count it was made from, and
      "Pendiente" reports none. */
  lemma CountStatusRoundTrip(n: nat)
    ensures CountOfStatus(CountStatus(n)) == (if n == 0 then None else Some(n))
    ensures CountStatus(n) == PendingText <==> n == 0
  {
    if n > 0 {
      var digits := NatToDecimal(n);
      var s := CountPrefix + digits + CountSuffix;
      assert s[..|CountPrefix|] == CountPrefix;
      assert s[|s| - |CountSuffix|..] == CountSuffix;
      assert s[|CountPrefix|..|s| - |CountSuffix|] == digits;
      DecimalRoundTrip(n);
      assert s[0] != PendingText[0];
    }
  }

  /** Everything the home screen derives from the CV. */
  datatype Home = Home(
    photoStatus: string,
    photoThumbnail: Option<string>,
    photoButton: string,
    personalInfoStatus: string,
    experienceStatus: string,
    educationStatus: string,
    skillsStatus: string)

  function HomeOf(cv: CVData): Home
  {
    var p := cv.personalInfo;
    var hasPhoto := Truthy(p.profileImage);
    Home(
      if hasPhoto then PhotoAddedText else PhotoOptionalText,
      if hasPhoto then p.profileImage else None,
      if hasPhoto then ChangePhotoText else UploadPhotoText,
      if IsPersonalInfoComplete(p) then CompletedText else PendingText,
      CountStatus(|cv.experiences|),
      CountStatus(|cv.education|),
      CountStatus(|cv.skills|))
  }

  /** The photo card reflects whether the stored image is truthy, the
      personal-info card whether name and email are filled, and each list
      card reports the list's length, or "Pendiente" for an empty list. */
  lemma HomeStatuses(cv: CVData)
    ensures var h, p := HomeOf(cv), cv.personalInfo;
      && (h.photoStatus == PhotoAddedText <==> Truthy(p.profileImage))
      && (h.photoButton == ChangePhotoText <==> Truthy(p.profileImage))
      && (h.photoThumbnail.Some? <==> Truthy(p.profileImage))
      && (h.photoThumbnail.Some? ==> h.photoThumbnail == p.profileImage)
      && (h.personalInfoStatus == CompletedText <==> IsPersonalInfoComplete(p))
      && CountOfStatus(h.experienceStatus) == (if cv.experiences == [] then None else Some(|cv.experiences|))
      && CountOfStatus(h.educationStatus) == (if cv.education == [] then None else Some(|cv.education|))
      && CountOfStatus(h.skillsStatus) == (if cv.skills == [] then None else Some(|cv.skills|))
      && (h.experienceStatus == PendingText <==> cv.experiences == [])
      && (h.educationStatus == PendingText <==> cv.education == [])
      && (h.skillsStatus == PendingText <==> cv.skills == [])
  {
    CountStatusRoundTrip(|cv.experiences|);
    CountStatusRoundTrip(|cv.education|);
    CountStatusRoundTrip(|cv.skills|);
    assert PhotoAddedText != PhotoOptionalText by {
      assert |PhotoAddedText| != |PhotoOptionalText|;
    }
    assert ChangePhotoText != UploadPhotoText by {
      assert ChangePhotoText[0] != UploadPhotoText[0];
    }
    assert CompletedText != PendingText by {
      assert CompletedText[0] != PendingText[0];
    }
  }

  /** Personal info that passes the form's rules always shows as complete. */
  lemma SavedPersonalInfoIsComplete(p: PersonalInfo)
    requires FormErrors(p) == []
    ensures IsPersonalInfoComplete(p)
  {
    FullNameAccepted(p.fullName);
    EmailAccepted(p.email);
  }

  /** The converse fails: the home check looks only at non-emptiness, so
      info the form would reject can still show as complete. */
  lemma CompleteIsWeakerThanValid()
    ensures var p := PersonalInfo("Juan123", "a.b.com", "", "", "", None);
      IsPersonalInfoComplete(p) && FormErrors(p) != []
  {
    NameWithDigitsRejected();
  }
}
