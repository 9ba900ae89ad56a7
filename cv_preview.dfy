/** The on-screen preview of the CV (components/CVPreview.tsx): a header
    with the photo, the name and the contact lines, then up to four titled
    sections, each drawn only when it has something to show. */
module CvPreview {
  import opened CvTypes
  import opened ExperienceDates

  const SummaryTitle := "Resumen Profesional"
  const ExperienceTitle := "Experiencia Laboral"
  const EducationTitle := "Educación"
  const SkillsTitle := "Habilidades"

  /** The section titles in the order the preview lays them out. */
  const SectionTitles: seq<string> := [SummaryTitle, ExperienceTitle, EducationTitle, SkillsTitle]

  /** The name shown when the full name is empty. */
  const NamePlaceholder := "Nombre"

  const EmailPrefix := "\U{1F4E7} "
  const PhonePrefix := "\U{1F4F1} "
  const LocationPrefix := "\U{1F4CD} "

  /** A titled section: one card per entry, each card a list of text lines. */
  datatype Section = Section(title: string, cards: seq<seq<string>>)

  datatype Preview = Preview(
    photo: Option<string>,
    name: string,
    contacts: seq<string>,
    sections: seq<Section>)

  /** `{value && <Text>prefix value</Text>}`: one line when the value is
      non-empty, none otherwise. */
  function ContactLine(prefix: string, value: string): seq<string>
  {
    if value == "" then [] else [prefix + value]
  }

  function ContactLines(p: PersonalInfo): seq<string>
  {
    ContactLine(EmailPrefix, p.email) + ContactLine(PhonePrefix, p.phone) + ContactLine(LocationPrefix, p.location)
  }

  /** An education card: degree, the field only when non-empty, institution
      and year. */
  function EducationCard(e: Education): (lines: seq<string>)
    ensures |lines| == (if e.field == "" then 3 else 4)
    ensures lines[0] == e.degree && lines[|lines| - 2..] == [e.institution, e.graduationYear]
    ensures e.field in lines[1..|lines| - 2] <==> e.field != ""
  {
    [e.degree] + (if e.field == "" then [] else [e.field]) + [e.institution, e.graduationYear]
  }

  /** A skill card: the name and "Nivel: <level>". */
  function SkillCard(s: Skill): seq<string>
  {
    [s.name, "Nivel: " + LevelLabel(s.level)]
  }

  /** A section that is drawn only when it has cards. */
  function SectionIfAny(title: string, cards: seq<seq<string>>): seq<Section>
  {
    if cards == [] then [] else [Section(title, cards)]
  }

  function Sections(cv: CVData): seq<Section>
  {
    var ps := SectionPieces(cv);
    ps[0] + ps[1] + ps[2] + ps[3]
  }

  /** What the preview draws for a CV. */
  function PreviewOf(cv: CVData): Preview
  {
    var p := cv.personalInfo;
    Preview(
      if Truthy(p.profileImage) then p.profileImage else None,
      if p.fullName == "" then NamePlaceholder else p.fullName,
      ContactLines(p),
      Sections(cv))
  }

  /** The header: the photo exactly when the stored image is truthy, the
      name or its placeholder, and one contact line per non-empty contact
      field, in the order email, phone, location: email first, location
      last, and no other lines. */
  lemma PreviewHeader(cv: CVData)
    ensures var v, p := PreviewOf(cv), cv.personalInfo;
      && (v.photo.Some? <==> Truthy(p.profileImage))
      && (v.photo.Some? ==> v.photo == p.profileImage)
      && (p.fullName != "" ==> v.name == p.fullName)
      && (p.fullName == "" ==> v.name == NamePlaceholder)
      && |v.contacts| == (if p.email != "" then 1 else 0) + (if p.phone != "" then 1 else 0)
                         + (if p.location != "" then 1 else 0)
      && (EmailPrefix + p.email in v.contacts <==> p.email != "")
      && (PhonePrefix + p.phone in v.contacts <==> p.phone != "")
      && (LocationPrefix + p.location in v.contacts <==> p.location != "")
      && (p.email != "" ==> v.contacts[0] == EmailPrefix + p.email)
      && (p.location != "" ==> v.contacts[|v.contacts| - 1] == LocationPrefix + p.location)
  {
    var v, p := PreviewOf(cv), cv.personalInfo;
    PrefixesDiffer(p.email, p.phone, p.location);
  }

  /** A line that starts with one emoji cannot start with another. */
  lemma PrefixesDiffer(email: string, phone: string, location: string)
    ensures EmailPrefix + email != PhonePrefix + phone && EmailPrefix + email != LocationPrefix + location
    ensures PhonePrefix + phone != LocationPrefix + location
  {
    assert (EmailPrefix + email)[0] == '\U{1F4E7}';
    assert (PhonePrefix + phone)[0] == '\U{1F4F1}';
    assert (LocationPrefix + location)[0] == '\U{1F4CD}';
  }

  /** The position of a title in the fixed layout order. */
  function TitleRank(title: string): nat
  {
    if title == SummaryTitle then 0
    else if title == ExperienceTitle then 1
    else if title == EducationTitle then 2
    else 3
  }

  ghost predicate HasSection(v: Preview, title: string)
  {
    exists k :: 0 <= k < |v.sections| && v.sections[k].title == title
  }

  /** The summary, experience, education and skill pieces of the section
      list, in layout order. */
  function SectionPieces(cv: CVData): seq<seq<Section>>
  {
    var xs, es, ss := cv.experiences, cv.education, cv.skills;
    [ SectionIfAny(SummaryTitle, if cv.personalInfo.summary == "" then [] else [[cv.personalInfo.summary]]),
      SectionIfAny(ExperienceTitle, seq(|xs|, i requires 0 <= i < |xs| => ExperienceLines(xs[i]))),
      SectionIfAny(EducationTitle, seq(|es|, i requires 0 <= i < |es| => EducationCard(es[i]))),
      SectionIfAny(SkillsTitle, seq(|ss|, i requires 0 <= i < |ss| => SkillCard(ss[i]))) ]
  }

  /** Each piece is empty or one section with the piece's own title and a
      non-empty body, and it is non-empty exactly when its content is. */
  lemma PieceShapes(cv: CVData)
    ensures var ps := SectionPieces(cv);
      && |ps| == 4
      && (forall j :: 0 <= j < 4 ==> |ps[j]| <= 1)
      && (forall j :: 0 <= j < 4 ==> forall sec :: sec in ps[j] ==> sec.title == SectionTitles[j] && sec.cards != [])
      && (ps[0] != [] <==> cv.personalInfo.summary != "")
      && (ps[1] != [] <==> cv.experiences != [])
      && (ps[2] != [] <==> cv.education != [])
      && (ps[3] != [] <==> cv.skills != [])
  {
    var xs := cv.experiences;
    assert xs != [] ==> seq(|xs|, i requires 0 <= i < |xs| => ExperienceLines(xs[i])) != [];
    var es := cv.education;
    assert es != [] ==> seq(|es|, i requires 0 <= i < |es| => EducationCard(es[i])) != [];
    var ss := cv.skills;
    assert ss != [] ==> seq(|ss|, i requires 0 <= i < |ss| => SkillCard(ss[i])) != [];
  }

  /** The drawn sections are the pieces' sections, one after another. */
  lemma SectionsArePieces(cv: CVData)
    ensures var v, ps := PreviewOf(cv), SectionPieces(cv);
      forall k :: 0 <= k < |v.sections| ==> exists j :: 0 <= j < 4 && v.sections[k] in ps[j]
  {
    var v, ps := PreviewOf(cv), SectionPieces(cv);
    assert |ps| == 4;
    var a, b, c, d := ps[0], ps[1], ps[2], ps[3];
    assert v.sections == a + b + c + d;
    forall k | 0 <= k < |v.sections| ensures exists j :: 0 <= j < 4 && v.sections[k] in ps[j] {
      assert v.sections[k] in a || v.sections[k] in b || v.sections[k] in c || v.sections[k] in d;
    }
  }

  /** The four titles are told apart by their rank. */
  lemma TitleRanks()
    ensures forall j :: 0 <= j < 4 ==> TitleRank(SectionTitles[j]) == j
  {
    assert SummaryTitle[0] == 'R' && ExperienceTitle[0] == 'E' && EducationTitle[0] == 'E';
    assert ExperienceTitle[1] == 'x' && EducationTitle[1] == 'd' && SkillsTitle[0] == 'H';
  }

  /** The section with the j-th title is drawn exactly when the j-th piece
      is non-empty. */
  lemma SectionDrawnIffPiece(cv: CVData, j: nat)
    requires j < 4
    ensures HasSection(PreviewOf(cv), SectionTitles[j]) <==> SectionPieces(cv)[j] != []
  {
    var v, ps := PreviewOf(cv), SectionPieces(cv);
    PieceShapes(cv);
    TitleRanks();
    if HasSection(v, SectionTitles[j]) {
      var k :| 0 <= k < |v.sections| && v.sections[k].title == SectionTitles[j];
      SectionsArePieces(cv);
      var i :| 0 <= i < 4 && v.sections[k] in ps[i];
      assert TitleRank(SectionTitles[i]) == TitleRank(SectionTitles[j]);
    }
    if ps[j] != [] {
      assert v.sections == ps[0] + ps[1] + ps[2] + ps[3];
      assert ps[j][0] in v.sections;
      var k :| 0 <= k < |v.sections| && v.sections[k] == ps[j][0];
    }
  }

  /** Each section is drawn exactly when it has something to show, and
      never with an empty body. */
  lemma PreviewSections(cv: CVData)
    ensures var v := PreviewOf(cv);
      && |v.sections| <= 4
      && (forall k :: 0 <= k < |v.sections| ==> v.sections[k].title in SectionTitles && v.sections[k].cards != [])
      && (HasSection(v, SummaryTitle) <==> cv.personalInfo.summary != "")
      && (HasSection(v, ExperienceTitle) <==> cv.experiences != [])
      && (HasSection(v, EducationTitle) <==> cv.education != [])
      && (HasSection(v, SkillsTitle) <==> cv.skills != [])
  {
    var v, ps := PreviewOf(cv), SectionPieces(cv);
    PieceShapes(cv);
    SectionsArePieces(cv);
    assert v.sections == ps[0] + ps[1] + ps[2] + ps[3];
    SectionDrawnIffPiece(cv, 0);
    SectionDrawnIffPiece(cv, 1);
    SectionDrawnIffPiece(cv, 2);
    SectionDrawnIffPiece(cv, 3);
  }

  /** The drawn sections keep the layout order: summary, experience,
      education, skills. */
  lemma PreviewSectionOrder(cv: CVData)
    ensures var v := PreviewOf(cv);
      forall k, l :: 0 <= k < l < |v.sections| ==> TitleRank(v.sections[k].title) < TitleRank(v.sections[l].title)
  {
    var v := PreviewOf(cv);
    var ps := SectionPieces(cv);
    PieceShapes(cv);
    var a, b, c, d := ps[0], ps[1], ps[2], ps[3];
    assert v.sections == a + b + c + d;
    var n1, n2, n3 := |a|, |a| + |b|, |a| + |b| + |c|;
    assert forall m :: 0 <= m < n1 ==> v.sections[m] == a[m];
    assert forall m :: n1 <= m < n2 ==> v.sections[m] == b[m - n1];
    assert forall m :: n2 <= m < n3 ==> v.sections[m] == c[m - n2];
    assert forall m :: n3 <= m < |v.sections| ==> v.sections[m] == d[m - n3];
  }

  /** The cards of each list section show the entries in list order: the
      experience card of the i-th experience is its list card, and likewise
      for education and skills; the summary section shows the summary. */
  lemma PreviewCards(cv: CVData)
    ensures var v := PreviewOf(cv);
      forall k :: 0 <= k < |v.sections| ==>
        var sec := v.sections[k];
        && (sec.title == SummaryTitle ==> sec.cards == [[cv.personalInfo.summary]])
        && (sec.title == ExperienceTitle ==>
              |sec.cards| == |cv.experiences| && forall i :: 0 <= i < |cv.experiences| ==> sec.cards[i] == ExperienceLines(cv.experiences[i]))
        && (sec.title == EducationTitle ==>
              |sec.cards| == |cv.education| && forall i :: 0 <= i < |cv.education| ==> sec.cards[i] == EducationCard(cv.education[i]))
        && (sec.title == SkillsTitle ==>
              |sec.cards| == |cv.skills| && forall i :: 0 <= i < |cv.skills| ==> sec.cards[i] == SkillCard(cv.skills[i]))
  {
    var v := PreviewOf(cv);
    var ps := SectionPieces(cv);
    PieceShapes(cv);
    var a, b, c, d := ps[0], ps[1], ps[2], ps[3];
    assert v.sections == a + b + c + d;
    assert forall k :: 0 <= k < |v.sections| ==>
      v.sections[k] in a || v.sections[k] in b || v.sections[k] in c || v.sections[k] in d;
  }

  /** An empty CV previews as the placeholder name alone: no photo, no
      contact line and no section, so no empty heading. */
  lemma EmptyCvPreview()
    ensures PreviewOf(EmptyCV) == Preview(None, NamePlaceholder, [], [])
  {
    assert Sections(EmptyCV) == [];
  }
}
