/** The printable CV (components/CVPrint.tsx): the photo turned into a
    JPEG data URI, the HTML document built from the CV by one template, and
    the export panel that makes a PDF file from it, opens it and shares it. */
module CvPrint {
  import opened CvTypes
  import opened Text
  import opened Validation
  import opened ExperienceDates
  import opened CvPreview

  const DataUriPrefix := "data:image/jpeg;base64,"

  /** `getBase64Image(uri)`: nothing for a falsy uri; otherwise the file's
      contents read as base64 (`read`, `None` when the read throws) behind
      the JPEG data-URI prefix, or nothing when the read failed. */
  function GetBase64Image(uri: Option<string>, read: Option<string>): (r: Option<string>)
    ensures r.Some? <==> Truthy(uri) && read.Some?
    ensures r.Some? ==> Truthy(r)
  {
    if Truthy(uri) && read.Some? then Some(DataUriPrefix + read.value) else None
  }

  /** The base64 payload of a JPEG data URI, or `None` for any other text. */
  function DataUriPayload(s: string): (r: Option<string>)
    ensures r.Some? <==> |DataUriPrefix| <= |s| && s[..|DataUriPrefix|] == DataUriPrefix
    ensures r.Some? ==> s == DataUriPrefix + r.value
  {
    if |DataUriPrefix| <= |s| && s[..|DataUriPrefix|] == DataUriPrefix then Some(s[|DataUriPrefix|..]) else None
  }

  /** The data URI of a readable photo carries exactly the file's base64
      text. */
  lemma Base64RoundTrip(uri: Option<string>, data: string)
    requires Truthy(uri)
    ensures GetBase64Image(uri, Some(data)).Some?
    ensures DataUriPayload(GetBase64Image(uri, Some(data)).value) == Some(data)
  {
    var s := DataUriPrefix + data;
    assert s[..|DataUriPrefix|] == DataUriPrefix;
    assert s[|DataUriPrefix|..] == data;
  }

  /** `xs.map(f).join("")`. */
  function JoinMap<T>(xs: seq<T>, f: T -> string): string
  {
    if xs == [] then "" else f(xs[0]) + JoinMap(xs[1..], f)
  }

  /** Joining keeps the order: the items of `xs + ys` are those of `xs`
      followed by those of `ys`. */
  lemma {:induction false} JoinMapAppend<T>(xs: seq<T>, ys: seq<T>, f: T -> string)
    ensures JoinMap(xs + ys, f) == JoinMap(xs, f) + JoinMap(ys, f)
  {
    if xs == [] {
      assert xs + ys == ys;
    } else {
      assert (xs + ys)[1..] == xs[1..] + ys;
      JoinMapAppend(xs[1..], ys, f);
    }
  }

  lemma JoinMapSingle<T>(x: T, f: T -> string)
    ensures JoinMap([x], f) == f(x)
  {
    assert [x][1..] == [];
  }

  /** Every entry's item occurs in the joined text. */
  lemma JoinMapContains<T>(xs: seq<T>, f: T -> string, i: nat)
    requires i < |xs|
    ensures Contains(JoinMap(xs, f), f(xs[i]))
  {
    assert xs == xs[..i] + [xs[i]] + xs[i + 1..];
    JoinMapAppend(xs[..i] + [xs[i]], xs[i + 1..], f);
    JoinMapAppend(xs[..i], [xs[i]], f);
    JoinMapSingle(xs[i], f);
    ContainsMiddle(JoinMap(xs[..i], f), f(xs[i]), JoinMap(xs[i + 1..], f));
  }

  /** The template's pieces written one after another. */
  function Concat(parts: seq<string>): string
  {
    JoinMap(parts, (s: string) => s)
  }

  lemma ConcatContains(parts: seq<string>, j: nat)
    requires j < |parts|
    ensures Contains(Concat(parts), parts[j])
  {
    JoinMapContains(parts, (s: string) => s, j);
  }

  /** The fixed start of the document, up to and including the opening
      `<header>` line, with the template's own line breaks and
      indentation. */
  const DocumentHead: string :=
    "\n"
    + "        <html>\n"
    + "          <head>\n"
    + "            <meta charset=\"UTF-8\" />\n"
    + "            <title>Mi CV</title>\n"
    + "            <style>\n"
    + "              body { font-family: Arial, sans-serif; padding: 20px; color: #333; }\n"
    + "              header { display:flex; flex-direction: column; align-items:center; margin-bottom:25px; border-bottom:2px solid #007AFF; padding-bottom:25px; }\n"
    + "              h1 { color: #007AFF; font-size:2.5em; margin-bottom:10px; text-align:center; }\n"
    + "              .profileImage { width:100px; height:100px; border-radius:50%; object-fit:cover; margin:10px 0; }\n"
    + "              .contactInfo { display:flex; flex-direction:row; gap:15px; justify-content:center; margin-top:5px; }\n"
    + "              .section { margin-top:30px; }\n"
    + "              .item { margin-bottom:15px; }\n"
    + "              h2 { color:#007AFF; margin-bottom:25px; }\n"
    + "              h3 { color:#030303; }\n"
    + "              h4 { color:#313030; }\n"
    + "            </style>\n"
    + "          </head>\n"
    + "          <body>\n"
    + "            <header>\n"

  /** The fixed end of the document. */
  const DocumentTail := "          </body>\n        </html>\n      "

  const NameFallback := "Nombre Apellido"
  const SummaryFallback := "Sin resumen disponible."
  const ImagePlaceholder := "<div class=\"profileImage\" style=\"background:#ddd;\"></div>"
  const NoExperienceText := "<p>Sin experiencia registrada.</p>"
  const NoEducationText := "<p>Sin educación registrada.</p>"
  const NoSkillsText := "<p>Sin habilidades registradas.</p>"

  function ImageTag(src: string): string
  {
    "<img src=\"" + src + "\" class=\"profileImage\"/>"
  }

  /** The photo slot: the image when there is a truthy data URI, a grey
      placeholder otherwise. */
  function ImageHtml(image: Option<string>): string
  {
    if Truthy(image) then ImageTag(image.value) else ImagePlaceholder
  }

  /** `<p>icon value</p>`, printed even when the value is empty. */
  function ContactParagraph(icon: string, value: string): string
  {
    "<p>" + icon + value + "</p>"
  }

  /** The header pieces, after a fixed `head` of markup. */
  function HeaderParts(head: string, p: PersonalInfo, image: Option<string>): seq<string>
  {
    [ head + "              ",
      "<h1>" + (if p.fullName == "" then NameFallback else p.fullName) + "</h1>",
      "\n              ",
      ImageHtml(image),
      "\n              <div class=\"contactInfo\">\n                ",
      ContactParagraph(EmailPrefix, p.email),
      "\n                ",
      ContactParagraph(PhonePrefix, p.phone),
      "\n                ",
      ContactParagraph(LocationPrefix, p.location),
      "\n              </div>\n            </header>\n" ]
  }

  /** A `<section>` preceded by a blank line, with its heading and body. */
  function SectionParts(title: string, body: string): seq<string>
  {
    [ "\n            <section class=\"section\">\n              <h2>" + title + "</h2>\n              ",
      body,
      "\n            </section>\n" ]
  }

  function ExperienceItem(x: Experience): string
  {
    Concat([ "\n                <div class=\"item\">\n                  ",
             "<h3>" + x.position + "</h3>", "\n                  ",
             "<h4>" + x.company + "</h4>", "\n                  ",
             "<p>" + DateRangeText(x) + "</p>", "\n                  ",
             "<p>" + x.description + "</p>", "\n                </div>" ])
  }

  /** An education item; an empty year prints as an em dash. */
  function EducationItem(e: Education): string
  {
    Concat([ "\n                <div class=\"item\">\n                  ",
             "<h3>" + e.degree + "</h3>", "\n                  ",
             "<h4>" + e.field + "</h4>", "\n                  ",
             "<p>" + e.institution + "</p>", "\n                  ",
             "<p>Año: " + (if e.graduationYear == "" then "\U{2014}" else e.graduationYear) + "</p>",
             "\n                </div>" ])
  }

  function SkillLine(s: Skill): string
  {
    "<p>\U{2022} " + s.name + " \U{2014} Nivel: " + LevelLabel(s.level) + "</p>"
  }

  function SkillItem(s: Skill): string
  {
    Concat(["\n                ", SkillLine(s)])
  }

  /** `xs?.length ? xs.map(f).join("") : empty`. */
  function ListBody<T>(xs: seq<T>, f: T -> string, empty: string): string
  {
    if |xs| > 0 then JoinMap(xs, f) else empty
  }

  function SummaryBody(summary: string): string
  {
    "<p>" + (if summary == "" then SummaryFallback else summary) + "</p>"
  }

  /** The header, the four sections and the tail, in document order. */
  function DocumentParts(head: string, cv: CVData, image: Option<string>): seq<string>
  {
    [ Concat(HeaderParts(head, cv.personalInfo, image)),
      Concat(SectionParts(SummaryTitle, SummaryBody(cv.personalInfo.summary))),
      Concat(SectionParts(ExperienceTitle, ListBody(cv.experiences, ExperienceItem, NoExperienceText))),
      Concat(SectionParts(EducationTitle, ListBody(cv.education, EducationItem, NoEducationText))),
      Concat(SectionParts(SkillsTitle, ListBody(cv.skills, SkillItem, NoSkillsText))),
      DocumentTail ]
  }

  /** The template with its fixed opening markup (the `<html>` and `<head>`
      elements with the style sheet, up to `<header>`) as the parameter
      `head`; the lemmas below hold whatever that markup is. */
  function RenderWith(head: string, cv: CVData, image: Option<string>): string
  {
    Concat(DocumentParts(head, cv, image))
  }

  /** The whole document for a CV and the photo's data URI. Nothing in it is
      HTML-escaped. */
  function RenderHtml(cv: CVData, image: Option<string>): string
  {
    RenderWith(DocumentHead, cv, image)
  }

  /** A part of a part of the document occurs in the document. */
  lemma DocumentContains(head: string, cv: CVData, image: Option<string>, j: nat, parts: seq<string>, k: nat)
    requires j < 6 && k < |parts| && DocumentParts(head, cv, image)[j] == Concat(parts)
    ensures Contains(RenderWith(head, cv, image), parts[k])
  {
    ConcatContains(DocumentParts(head, cv, image), j);
    ConcatContains(parts, k);
    ContainsTransitive(RenderWith(head, cv, image), Concat(parts), parts[k]);
  }

  /** Each piece of the header occurs in the document. */
  lemma HeaderPartShown(head: string, cv: CVData, image: Option<string>, k: nat)
    requires k < 11
    ensures Contains(RenderWith(head, cv, image), HeaderParts(head, cv.personalInfo, image)[k])
  {
    DocumentContains(head, cv, image, 0, HeaderParts(head, cv.personalInfo, image), k);
  }

  /** An entry added last is printed last, after the items already there. */
  lemma AppendedItemPrintedLast<T>(xs: seq<T>, x: T, f: T -> string, empty: string)
    ensures ListBody(xs + [x], f, empty) == (if xs == [] then "" else ListBody(xs, f, empty)) + f(x)
  {
    JoinMapAppend(xs, [x], f);
    JoinMapSingle(x, f);
    if xs == [] {
      assert xs + [x] == [x];
    }
  }

  /** The document begins with the fixed head and ends with the fixed
      tail. */
  lemma DocumentFrame(head: string, cv: CVData, image: Option<string>)
    ensures var html := RenderWith(head, cv, image);
      && |head| + |DocumentTail| <= |html|
      && html[..|head|] == head
      && html[|html| - |DocumentTail|..] == DocumentTail
  {
    var id := (s: string) => s;
    var ps := DocumentParts(head, cv, image);
    var hs := HeaderParts(head, cv.personalInfo, image);
    var h := Concat(hs);
    assert h == hs[0] + JoinMap(hs[1..], id);
    assert ps == [h] + ps[1..5] + [DocumentTail];
    JoinMapAppend([h] + ps[1..5], [DocumentTail], id);
    JoinMapAppend([h], ps[1..5], id);
    JoinMapSingle(h, id);
    JoinMapSingle(DocumentTail, id);
    var html := RenderWith(head, cv, image);
    assert html == hs[0] + JoinMap(hs[1..], id) + JoinMap(ps[1..5], id) + DocumentTail;
    assert hs[0][..|head|] == head;
  }

  /** The header prints the name, or "Nombre Apellido" when it is empty;
      the photo, or a grey placeholder when there is none; and all three
      contact paragraphs, empty values included. */
  lemma PrintedHeader(head: string, cv: CVData, image: Option<string>)
    ensures var html, p := RenderWith(head, cv, image), cv.personalInfo;
      && (p.fullName != "" ==> Contains(html, "<h1>" + p.fullName + "</h1>"))
      && (p.fullName == "" ==> Contains(html, "<h1>" + NameFallback + "</h1>"))
      && (Truthy(image) ==> Contains(html, ImageTag(image.value)))
      && (!Truthy(image) ==> Contains(html, ImagePlaceholder))
      && Contains(html, ContactParagraph(EmailPrefix, p.email))
      && Contains(html, ContactParagraph(PhonePrefix, p.phone))
      && Contains(html, ContactParagraph(LocationPrefix, p.location))
  {
    var hs := HeaderParts(head, cv.personalInfo, image);
    HeaderPartShown(head, cv, image, 1);
    HeaderPartShown(head, cv, image, 3);
    HeaderPartShown(head, cv, image, 5);
    HeaderPartShown(head, cv, image, 7);
    HeaderPartShown(head, cv, image, 9);
  }

  /** The summary is printed, or "Sin resumen disponible." when it is
      empty. */
  lemma PrintedSummary(head: string, cv: CVData, image: Option<string>)
    ensures var html, s := RenderWith(head, cv, image), cv.personalInfo.summary;
      && (s != "" ==> Contains(html, "<p>" + s + "</p>"))
      && (s == "" ==> Contains(html, "<p>" + SummaryFallback + "</p>"))
  {
    DocumentContains(head, cv, image, 1, SectionParts(SummaryTitle, SummaryBody(cv.personalInfo.summary)), 1);
  }

  /** Every experience is printed as its own item, in list order; with no
      experience the placeholder paragraph is printed. */
  lemma PrintedExperiences(head: string, cv: CVData, image: Option<string>)
    ensures var html := RenderWith(head, cv, image);
      && (cv.experiences == [] ==> Contains(html, NoExperienceText))
      && forall i :: 0 <= i < |cv.experiences| ==> Contains(html, ExperienceItem(cv.experiences[i]))
  {
    var html, xs := RenderWith(head, cv, image), cv.experiences;
    var body := ListBody(xs, ExperienceItem, NoExperienceText);
    DocumentContains(head, cv, image, 2, SectionParts(ExperienceTitle, body), 1);
    forall i | 0 <= i < |xs| ensures Contains(html, ExperienceItem(xs[i])) {
      JoinMapContains(xs, ExperienceItem, i);
      ContainsTransitive(html, body, ExperienceItem(xs[i]));
    }
  }
  /** An experience item shows the position, the company, the date range
      ("Actual" for an empty end) and the description. */
  lemma ExperienceItemShows(x: Experience)
    ensures var item := ExperienceItem(x);
      && Contains(item, "<h3>" + x.position + "</h3>")
      && Contains(item, "<h4>" + x.company + "</h4>")
      && Contains(item, "<p>" + DateRangeText(x) + "</p>")
      && Contains(item, "<p>" + x.description + "</p>")
  {
    var parts := [ "\n                <div class=\"item\">\n                  ",
             "<h3>" + x.position + "</h3>", "\n                  ",
             "<h4>" + x.company + "</h4>", "\n                  ",
             "<p>" + DateRangeText(x) + "</p>", "\n                  ",
             "<p>" + x.description + "</p>", "\n                </div>" ];
    ConcatContains(parts, 1);
    ConcatContains(parts, 3);
    ConcatContains(parts, 5);
    ConcatContains(parts, 7);
  }


  /** Every education entry is printed as its own item, in list order;
      with none the placeholder paragraph is printed. */
  lemma PrintedEducation(head: string, cv: CVData, image: Option<string>)
    ensures var html := RenderWith(head, cv, image);
      && (cv.education == [] ==> Contains(html, NoEducationText))
      && forall i :: 0 <= i < |cv.education| ==> Contains(html, EducationItem(cv.education[i]))
  {
    var html, es := RenderWith(head, cv, image), cv.education;
    var body := ListBody(es, EducationItem, NoEducationText);
    DocumentContains(head, cv, image, 3, SectionParts(EducationTitle, body), 1);
    forall i | 0 <= i < |es| ensures Contains(html, EducationItem(es[i])) {
      JoinMapContains(es, EducationItem, i);
      ContainsTransitive(html, body, EducationItem(es[i]));
    }
  }
  /** An education item shows degree, field, institution and the year, or
      an em dash for an empty year. */
  lemma EducationItemShows(e: Education)
    ensures var item := EducationItem(e);
      && Contains(item, "<h3>" + e.degree + "</h3>")
      && Contains(item, "<h4>" + e.field + "</h4>")
      && Contains(item, "<p>" + e.institution + "</p>")
      && (e.graduationYear != "" ==> Contains(item, "<p>Año: " + e.graduationYear + "</p>"))
      && (e.graduationYear == "" ==> Contains(item, "<p>Año: \U{2014}</p>"))
  {
    var parts := [ "\n                <div class=\"item\">\n                  ",
             "<h3>" + e.degree + "</h3>", "\n                  ",
             "<h4>" + e.field + "</h4>", "\n                  ",
             "<p>" + e.institution + "</p>", "\n                  ",
             "<p>Año: " + (if e.graduationYear == "" then "\U{2014}" else e.graduationYear) + "</p>",
             "\n                </div>" ];
    ConcatContains(parts, 1);
    ConcatContains(parts, 3);
    ConcatContains(parts, 5);
    ConcatContains(parts, 7);
    assert "<p>Año: " + "\U{2014}" + "</p>" == "<p>Año: \U{2014}</p>";
  }


  /** Every skill is printed as one paragraph with its name and level, in
      list order; with none the placeholder paragraph is printed. */
  lemma PrintedSkills(head: string, cv: CVData, image: Option<string>)
    ensures var html := RenderWith(head, cv, image);
      && (cv.skills == [] ==> Contains(html, NoSkillsText))
      && forall i :: 0 <= i < |cv.skills| ==>
           Contains(html, "<p>\U{2022} " + cv.skills[i].name + " \U{2014} Nivel: " + LevelLabel(cv.skills[i].level) + "</p>")
  {
    var html, ss := RenderWith(head, cv, image), cv.skills;
    var body := ListBody(ss, SkillItem, NoSkillsText);
    DocumentContains(head, cv, image, 4, SectionParts(SkillsTitle, body), 1);
    forall i | 0 <= i < |ss| ensures Contains(html, SkillLine(ss[i])) {
      JoinMapContains(ss, SkillItem, i);
      ConcatContains(["\n                ", SkillLine(ss[i])], 1);
      ContainsTransitive(html, body, SkillItem(ss[i]));
      ContainsTransitive(html, SkillItem(ss[i]), SkillLine(ss[i]));
    }
  }

  /** With an empty full name the printed document and the on-screen
      preview show different placeholders. */
  lemma NamePlaceholdersDiffer(head: string, cv: CVData, image: Option<string>)
    requires cv.personalInfo.fullName == ""
    ensures PreviewOf(cv).name == NamePlaceholder
    ensures Contains(RenderWith(head, cv, image), "<h1>" + NameFallback + "</h1>")
    ensures NamePlaceholder != NameFallback
  {
    HeaderPartShown(head, cv, image, 1);
    assert |NamePlaceholder| != |NameFallback|;
  }

  const GeneratedAlert := Alert("PDF Generado", "Ya puedes verlo o compartirlo.")
  const GenerateFailedAlert := Alert("Error", "No se pudo generar el PDF.")
  const ViewFailedAlert := Alert("Error", "No se pudo mostrar el PDF.")
  const ShareFailedAlert := Alert("Error", "No se pudo compartir el PDF.")
  /** The three alerts shown with a title only. */
  const ViewBeforeGenerateAlert := Alert("Primero debes generar el PDF", "")
  const ShareBeforeGenerateAlert := Alert("Primero debes generar el PDF antes de compartirlo.", "")
  const ShareUnavailableAlert := Alert("No disponible compartir en este dispositivo.", "")

  /** The export panel and its one piece of state, the uri of the last PDF
      file made. */
  class PdfExporter {
    var pdfUri: Option<string>

    constructor ()
      ensures pdfUri == None
    {
      pdfUri := None;
    }

    /** `generatePDF`: builds the document (`read` is the outcome of reading
        the photo file) and hands it to the printer, whose file uri is
        `printed`, or `None` when printing throws. On success the uri is
        kept; on failure it is left as it was. */
    method GeneratePdf(cv: CVData, read: Option<string>, printed: Option<string>) returns (html: string, alert: Alert)
      modifies this
      ensures html == RenderHtml(cv, GetBase64Image(cv.personalInfo.profileImage, read))
      ensures printed.Some? ==> pdfUri == printed && alert == GeneratedAlert
      ensures printed.None? ==> pdfUri == old(pdfUri) && alert == GenerateFailedAlert
    {
      var image := GetBase64Image(cv.personalInfo.profileImage, read);
      html := RenderHtml(cv, image);
      if printed.Some? {
        pdfUri := printed;
        alert := GeneratedAlert;
      } else {
        alert := GenerateFailedAlert;
      }
    }

    /** `viewPDF`: without a file, only an alert; otherwise the file is
        handed to the print dialog (`dialogUri`), and a failure of the dialog
        (`printOk` false) is alerted. */
    method ViewPdf(printOk: bool) returns (dialogUri: Option<string>, alert: Option<Alert>)
      ensures !Truthy(pdfUri) ==> dialogUri == None && alert == Some(ViewBeforeGenerateAlert)
      ensures Truthy(pdfUri) ==> dialogUri == pdfUri && alert == (if printOk then None else Some(ViewFailedAlert))
    {
      if !Truthy(pdfUri) {
        return None, Some(ViewBeforeGenerateAlert);
      }
      dialogUri := pdfUri;
      alert := if printOk then None else Some(ViewFailedAlert);
    }

    /** `sharePDF`: without a file, only an alert; otherwise sharing is
        asked whether it is available (`available`, `None` when asking
        throws) and the file is shared (`shared`) when it is, a failure of
        the share sheet (`shareOk` false) being alerted. */
    method SharePdf(available: Option<bool>, shareOk: bool) returns (shared: Option<string>, alert: Option<Alert>)
      ensures !Truthy(pdfUri) ==> shared == None && alert == Some(ShareBeforeGenerateAlert)
      ensures Truthy(pdfUri) && available == Some(true) ==>
        shared == pdfUri && alert == (if shareOk then None else Some(ShareFailedAlert))
      ensures Truthy(pdfUri) && available == Some(false) ==> shared == None && alert == Some(ShareUnavailableAlert)
      ensures Truthy(pdfUri) && available == None ==> shared == None && alert == Some(ShareFailedAlert)
    {
      if !Truthy(pdfUri) {
        return None, Some(ShareBeforeGenerateAlert);
      }
      match available
      case None =>
        shared, alert := None, Some(ShareFailedAlert);
      case Some(true) =>
        shared := pdfUri;
        alert := if shareOk then None else Some(ShareFailedAlert);
      case Some(false) =>
        shared, alert := None, Some(ShareUnavailableAlert);
    }
  }
}
