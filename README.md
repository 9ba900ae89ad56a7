# Mi CV: a verified model of the CV builder's logic

The app is a React Native CV builder. Its screens collect:
- personal information;
- work experiences, with month-year dates chosen in a native picker;
- education entries;
- skills, each with one of four levels;
- a profile photo.

Everything is kept in one shared CV record. The home screen shows a status for each part. A preview screen draws the CV. An export panel turns the CV into an HTML document, prints it to a PDF file, and opens or shares that file.

This project models the logic behind those screens in Dafny:
- **Types** (`cv_types.dfy`): the CV record and its closed four-value skill-level enum.
- **Validation** (`validation.dfy`, with `text.dfy`): each screen's field rules, written as data (`required`, `pattern`, `maxLength`, `max`), and the plain meaning of each rule kind.
  - The three regular expressions become character-class predicates.
  - JavaScript `.length` counts UTF-16 units.
- **Store** (`record_store.dfy`): the CV store the screens write to. It is a class holding one personal-info record and three ordered lists. It has whole-record replace, append, and removal by id.
- **Screens**, each a class whose methods change the form state and the store exactly as the handlers do:
  - personal info (`personal_info.dfy`);
  - experience (`experience.dfy`);
  - education (`education.dfy`);
  - skills (`skill.dfy`);
  - photo (`photo.dfy`).
- **Experience dates** (`experience_dates.dfy`):
  - The picker writes "<MonthName> <Year>".
  - Submit reads the text back with `split(" ")`, `indexOf` and `parseInt`.
  - It then builds `new Date(year, month)`, including JavaScript's reading of years 0–99 as 1900–1999.
  - It runs the four date checks in order.
- **Renderers**:
  - the on-screen preview (`cv_preview.dfy`);
  - the HTML template of the printable CV, with the photo as a JPEG data URI (`cv_print.dfy`);
  - the home screen's status texts (`home.dfy`).
- **PDF export** (`cv_print.dfy`): a small class whose only state is the uri of the last PDF made.

The printed document is `RenderHtml`, which is the template `RenderWith` applied to the template's own opening markup. That markup is the `<html>` and `<head>` elements with the style sheet. The lemmas about the printed document are stated for `RenderWith` with any opening markup. So they hold for `RenderHtml` in particular, and the solver does not have to reason about the style sheet's text.

Outside effects become inputs:
- clocks: the current month and the current year;
- `Date.now()` ids: an `id` parameter;
- permission requests and the camera or gallery result;
- the file read that yields base64 text;
- the printer and the share sheet: success or failure.

Confirmation dialogs are a `confirmed: bool` input. Every alert is an `Alert(title, message)` value, and a title-only alert has an empty message.

## Behaviour notes

- **`required` does not trim.** A value of spaces passes `required`. On the name fields it then passes the letters pattern too, because `\s` is in the character class.
- **The printed document is not minimal.** It always prints the three contact paragraphs, even empty ones. It prints "Sin resumen disponible." for an empty summary. It always prints all four sections, with a placeholder paragraph for an empty list.
- **No escaping.** The printed document inserts user text without HTML escaping.

## Model

| member | source | states |
|---|---|---|
| CvTypes.LevelLabel | types/cv.types.ts:11-16 | each level's string value is one of the four labels |
| CvTypes.LevelOfLabel | types/cv.types.ts:11-16 | the inverse of LevelLabel on the four labels: each label reads back as its level, and no other text reads as a level. The source's `as LevelSkill` cast checks nothing; the picker only ever offers those four labels |
| CvTypes.LevelSkillIsClosed | types/cv.types.ts:11-21 | the enum has exactly four members with four distinct labels in declaration order; every level is one of them and its label reads back as that level |
| Text.NatToDecimal | app/experience.tsx:105 | the decimal text of a number, as a template literal prints it, is a non-empty string of digits with no space |
| Text.DecimalRoundTrip | app/experience.tsx:52 | reading the printed decimal text of a number gives back that number |
| Text.ParseIntPrefix | app/experience.tsx:52 | `parseInt` yields NaN exactly when the text does not start with a digit, and the value of the whole text when it is all digits |
| Text.Split | app/experience.tsx:51 | `split` on a one-character separator always yields at least one piece |
| Text.SplitNoSeparator | app/experience.tsx:51 | a text without the separator splits into itself alone |
| Text.SplitAtFirst | app/experience.tsx:51 | a text split at its first separator gives the part before it followed by the pieces of the rest |
| Text.Utf16Length | app/personal-info.tsx:91 | `.length` lies between the number of characters and twice that, and equals the number of characters when none is outside the Basic Multilingual Plane |
| Validation.NumericValue | app/education.tsx:84-85 | a `max` rule compares a value exactly when it is a non-empty digit string, and then compares its decimal value |
| Validation.Violations | app/personal-info.tsx:34-91 | a field has no errors exactly when every rule of its field holds; every message reported is that of a failing rule and every failing rule's message is reported |
| Validation.NameTextLength | app/experience.tsx:123-124 | for text in the letters-and-spaces class, `.length` is the number of characters |
| RecordStore.WithoutId | app/education.tsx:27 | removal by id keeps exactly the entries with another id, never adding one |
| RecordStore.DeleteAbsentIsNoOp | app/skill.tsx:35 | deleting an id that no entry carries leaves the list unchanged |
| RecordStore.DeleteRemovesOne | app/skill.tsx:35 | with unique ids, deleting the id of entry i removes that entry and nothing else, keeping the order |
| RecordStore.AddThenDelete | app/skill.tsx:26 | adding an entry with a fresh id and then deleting that id restores the list |
| RecordStore.CVStore.constructor | types/cv.types.ts:40-45 | the store holds one personal-info record and three lists, starting blank and empty |
| RecordStore.CVStore.UpdatePersonalInfo | app/personal-info.tsx:19 | the personal info is replaced as a whole and the three lists are untouched |
| RecordStore.CVStore.AddExperience | app/experience.tsx:75 | the experience is appended last and nothing else changes |
| RecordStore.CVStore.DeleteExperience | app/experience.tsx:89 | the experiences lose the entries with that id and nothing else changes |
| RecordStore.CVStore.AddEducation | app/education.tsx:20 | the entry is appended last and nothing else changes |
| RecordStore.CVStore.DeleteEducation | app/education.tsx:27 | the education list loses the entries with that id and nothing else changes |
| RecordStore.CVStore.AddSkill | app/skill.tsx:26 | the skill is appended last and nothing else changes |
| RecordStore.CVStore.DeleteSkill | app/skill.tsx:35 | the skills lose the entries with that id and nothing else changes |
| ExperienceDates.MonthIndexOf | app/experience.tsx:20-23 | `indexOf` on the twelve Spanish month names gives the position of the name, or -1 exactly when it is not a month name |
| ExperienceDates.MonthNameReadsBack | app/experience.tsx:20-23 | no month name contains a space, and `indexOf` finds each name at its own position, so the twelve are distinct |
| ExperienceDates.ParseDateText | app/experience.tsx:51-52 | the parsed month index is always in -1..11 |
| ExperienceDates.FormatThenParse | app/experience.tsx:51-52 | parsing the picker's "<MonthName> <Year>" text gives back the month index and the year it was made from |
| ExperienceDates.PickedDateReadsBack | app/experience.tsx:52 | from year 100 on, a picked date's text becomes the first instant of the same month and year |
| ExperienceDates.TwoDigitYearReadsAs1900s | app/experience.tsx:52 | a picked year below 100 is read back as 1900 plus that year |
| ExperienceDates.CheckDates | app/experience.tsx:46-72 | an empty start is rejected with "La fecha de inicio es obligatoria."; with an empty end, only a future start is rejected |
| ExperienceDates.LaterMonthIsLaterDate | app/experience.tsx:54 | comparing two first-of-month dates is comparing their (year, month) pairs |
| ExperienceDates.PickedDatesVerdict | app/experience.tsx:46-72 | for picked dates the verdict is, in order: start after the current month, end after the current month, end before the start, else accepted; only the first failure is reported |
| ExperienceDates.PickedDatesAccepted | app/experience.tsx:51-72 | picked dates are accepted exactly when the start is not after the current month and a given end is neither after the current month nor before the start |
| ExperienceDates.PickedDatesBoundaries | app/experience.tsx:54-71 | the current month is accepted as start, an end equal to the start is accepted, and an end one month before the start is rejected as before the start |
| ExperienceDates.DateRangeText | app/experience.tsx:188 | the date line is "start - end", with "Actual" for an empty end |
| ExperienceDates.ExperienceLines | app/experience.tsx:185-190 | a card shows position, company and date line, and the description exactly when it is non-empty |
| ExperienceScreen.DraftErrors | app/experience.tsx:121-165 | the form has no field error exactly when company, position and description each pass their rules; the date inputs have none |
| ExperienceScreen.CompanyAccepted | app/experience.tsx:121-125 | the company passes exactly when it is 1 to 50 letters or spaces |
| ExperienceScreen.PositionAccepted | app/experience.tsx:132-136 | the position passes exactly when it is 1 to 50 letters or spaces |
| ExperienceScreen.DescriptionAccepted | app/experience.tsx:165 | the description is optional: empty passes, and it passes exactly when at most 250 units |
| ExperienceScreen.DateTextIsValidDate | app/experience.tsx:105 | a non-empty date field, which only the picker writes, always reads back as a valid date and parses to the month and year picked |
| ExperienceScreen.ListView | app/experience.tsx:179-195 | the list is drawn exactly when there are experiences, under "Experiencias Agregadas", with one card per entry in list order; card i shows entry i's position, company, date range ("Actual" for an empty end) and its description only when non-empty |
| ExperienceScreen.ExperienceForm.constructor | app/experience.tsx:29-40 | the five fields start empty and no picker is open |
| ExperienceScreen.ExperienceForm.EditText | app/experience.tsx:116-166 | typing changes only company, position and description, keeping the date fields valid |
| ExperienceScreen.ExperienceForm.OpenPicker | app/experience.tsx:93-96 | the picker opens for the focused field at the current date |
| ExperienceScreen.ExperienceForm.OnDateChange | app/experience.tsx:98-109 | a dismissal closes the picker; a selected date is written to the open field as "<MonthName> <Year>" and the picker closes; otherwise nothing changes |
| ExperienceScreen.ExperienceForm.Submit | app/experience.tsx:42-84 | field errors block; a failed date check shows its error and changes nothing; otherwise exactly one record {id, ...data} is appended and all five fields reset to "" |
| ExperienceScreen.ExperienceForm.HandleDelete | app/experience.tsx:86-91 | the experience is removed only when "Eliminar" is chosen |
| EducationScreen.DraftErrors | app/education.tsx:37-87 | the form has no field error exactly when all four fields pass their rules |
| EducationScreen.GraduationYearAccepted | app/education.tsx:82-86 | the year passes exactly when it is a non-empty digit string not above the current year; the current year passes and the next fails |
| EducationScreen.TextFieldsAccepted | app/education.tsx:42-73 | institution: 1 to 50 letters or spaces; degree: non-empty, at most 50; field: non-empty, at most 250; no pattern on the last two |
| EducationScreen.ListView | app/education.tsx:94-123 | the list is drawn exactly when there are entries, under "Educación Agregada", with one card per entry in list order; card i shows entry i's degree, field, institution and graduation year |
| EducationScreen.EducationForm.constructor | app/education.tsx:15-17 | the four fields start empty |
| EducationScreen.EducationForm.Edit | app/education.tsx:37-87 | typing sets the form's values |
| EducationScreen.EducationForm.Submit | app/education.tsx:19-23 | field errors block and change nothing; otherwise one entry {id, ...data} is appended and the form is reset to empty fields |
| EducationScreen.EducationForm.HandleDelete | app/education.tsx:25-28 | the entry is removed only when the confirmation returns true; otherwise the list is unchanged |
| SkillScreen.NameAccepted | app/skill.tsx:53-63 | a skill name passes exactly when it is 1 to 50 letters or spaces |
| SkillScreen.PickerItems | app/skill.tsx:72-74 | the picker offers exactly the four level labels, in order, each casting back to its level |
| SkillScreen.ListView | app/skill.tsx:82-106 | an empty list shows "No has agregado habilidades aún."; a non-empty one shows the heading "Habilidades Agregadas" over one card per skill in list order, card i showing skill i's name and "Nivel: " with its level's label |
| ExperienceScreen.AddedExperienceShownLast | app/experience.tsx:179-195 | after adding an experience, the earlier cards are kept in order and the new one is last |
| EducationScreen.AddedEducationShownLast | app/education.tsx:94-123 | after adding an entry, the earlier cards are kept in order and the new one is last |
| SkillScreen.AddedSkillShownLast | app/skill.tsx:82-106 | after adding a skill, the earlier cards are kept in order and the new one is last |
| SkillScreen.SkillForm.constructor | app/skill.tsx:18-23 | the name starts empty and the level at Básico |
| SkillScreen.SkillForm.EnterName | app/skill.tsx:48-64 | typing sets the name |
| SkillScreen.SkillForm.SelectLevel | app/skill.tsx:68-75 | choosing a picker item sets the level |
| SkillScreen.SkillForm.Submit | app/skill.tsx:25-30 | an invalid name blocks and changes nothing; otherwise one skill {id, name, level} is appended and the form resets to "" and Básico |
| SkillScreen.SkillForm.HandleDelete | app/skill.tsx:32-37 | the skill is removed only when "Eliminar" is chosen; "Cancelar" leaves the list unchanged |
| PersonalInfoScreen.FormErrors | app/personal-info.tsx:34-91 | the form has no field error exactly when all five fields pass their rules; the photo has none |
| PersonalInfoScreen.FullNameAccepted | app/personal-info.tsx:34-41 | the full name passes exactly when it is 1 to 50 letters or spaces |
| PersonalInfoScreen.EmailAccepted | app/personal-info.tsx:51-54 | the email passes exactly when it has no white space and an `@` and a later `.` with text before, between and after |
| PersonalInfoScreen.PhoneAccepted | app/personal-info.tsx:62-68 | the phone passes exactly when it is 1 to 15 digits or `+`, the `+` anywhere |
| PersonalInfoScreen.LocationAccepted | app/personal-info.tsx:77-80 | the location passes exactly when it is non-empty and at most 50 units, any characters |
| PersonalInfoScreen.SummaryAccepted | app/personal-info.tsx:91 | the summary is optional: empty passes, and it passes exactly when at most 250 units |
| PersonalInfoScreen.NameWithDigitsRejected | app/personal-info.tsx:34-41 | "Juan123" is rejected |
| PersonalInfoScreen.AccentedNameAccepted | app/personal-info.tsx:34-41 | "Juan Pérez" is accepted |
| PersonalInfoScreen.ShortEmailAccepted | app/personal-info.tsx:51-54 | "a@b.c" is accepted |
| PersonalInfoScreen.EmailWithoutAtRejected | app/personal-info.tsx:51-54 | "a.b.com" is rejected |
| PersonalInfoScreen.PhonePlaceholderRejected | app/personal-info.tsx:62-68 | the field's own placeholder "+593 99 999 9999" is rejected |
| PersonalInfoScreen.PhoneDigitsAccepted | app/personal-info.tsx:62-68 | "+593999999999" is accepted |
| PersonalInfoScreen.PersonalInfoForm.constructor | app/personal-info.tsx:14-16 | the form starts from the stored personal info |
| PersonalInfoScreen.PersonalInfoForm.Edit | app/personal-info.tsx:29-92 | typing changes the five text fields and not the photo |
| PersonalInfoScreen.PersonalInfoForm.Submit | app/personal-info.tsx:18-22 | field errors block and change nothing; otherwise the stored personal info is replaced as a whole by the form's values |
| CvPreview.EducationCard | components/CVPreview.tsx:68-73 | a card has degree first, institution and year last, and the field line exactly when the field is non-empty |
| CvPreview.PreviewHeader | components/CVPreview.tsx:18-30 | the photo appears exactly when the stored image is truthy; the name, or "Nombre" when empty; exactly one contact line per non-empty contact field and no other, in the order email, phone, location (email first, location last) |
| CvPreview.PieceShapes | components/CVPreview.tsx:35-91 | each block is absent or one titled non-empty section, present exactly when its content is non-empty |
| CvPreview.SectionDrawnIffPiece | components/CVPreview.tsx:35-91 | the section with a given title is drawn exactly when its block has content |
| CvPreview.PreviewSections | components/CVPreview.tsx:35-91 | summary, experience, education and skill sections each appear exactly when non-empty, with no empty section and no placeholder |
| CvPreview.PreviewSectionOrder | components/CVPreview.tsx:34-91 | the sections drawn keep the order summary, experience, education, skills |
| CvPreview.PreviewCards | components/CVPreview.tsx:40-89 | each list section shows one card per entry in list order ("start - Actual" for an empty end), and the summary section the summary |
| CvPreview.EmptyCvPreview | components/CVPreview.tsx:18-91 | an empty CV previews as "Nombre" alone: no photo, contact line or section |
| CvPrint.GetBase64Image | components/CVPrint.tsx:17-26 | a data URI is produced exactly when the uri is truthy and the read succeeds, and it is truthy |
| CvPrint.DataUriPayload | components/CVPrint.tsx:21 | a text has a payload exactly when it starts with the JPEG data-URI prefix, and is that prefix followed by the payload |
| CvPrint.Base64RoundTrip | components/CVPrint.tsx:17-26 | the data URI of a readable photo carries exactly the file's base64 text |
| CvPrint.AppendedItemPrintedLast | components/CVPrint.tsx:68-91 | an entry added last is printed last, after the items already printed |
| CvPrint.DocumentFrame | components/CVPrint.tsx:32-95 | the document starts with its fixed opening markup (for the template, the head and style sheet) and ends with the closing body and html tags |
| CvPrint.PrintedHeader | components/CVPrint.tsx:52-57 | the name, or "Nombre Apellido" when empty; the image tag with the data URI, or the grey placeholder; all three contact paragraphs, even empty |
| CvPrint.PrintedSummary | components/CVPrint.tsx:61-64 | the summary is printed, or "Sin resumen disponible." when empty |
| CvPrint.PrintedExperiences | components/CVPrint.tsx:66-75 | every experience is printed as an item, or "Sin experiencia registrada." when there is none |
| CvPrint.ExperienceItemShows | components/CVPrint.tsx:69-74 | an item prints position, company, "start - end" with "Actual" for an empty end, and the description |
| CvPrint.PrintedEducation | components/CVPrint.tsx:77-86 | every education entry is printed as an item, or "Sin educación registrada." when there is none |
| CvPrint.EducationItemShows | components/CVPrint.tsx:80-85 | an item prints degree, field, institution and "Año: " with the year or "—" when empty |
| CvPrint.PrintedSkills | components/CVPrint.tsx:88-92 | every skill is printed as "• name — Nivel: level", or "Sin habilidades registradas." when there is none |
| CvPrint.NamePlaceholdersDiffer | components/CVPrint.tsx:52 | with an empty name the preview shows "Nombre" and the printed document "Nombre Apellido", which differ |
| CvPrint.PdfExporter.constructor | components/CVPrint.tsx:15 | no PDF exists at first |
| CvPrint.PdfExporter.GeneratePdf | components/CVPrint.tsx:28-104 | the document is rendered with the photo's data URI; the uri is kept only when printing succeeds, and a failure leaves it unchanged with an error alert |
| CvPrint.PdfExporter.ViewPdf | components/CVPrint.tsx:106-110 | with no PDF only an alert is shown; otherwise the PDF is opened, and a failure is alerted |
| CvPrint.PdfExporter.SharePdf | components/CVPrint.tsx:112-116 | with no PDF only an alert is shown; otherwise it is shared when sharing is available, with an alert when it is not or when sharing fails |
| HomeScreen.CountOfStatus | app/index.tsx:76-78 | a status reports a count only when it has the "✓ " prefix |
| HomeScreen.CountStatusRoundTrip | app/index.tsx:76-114 | "✓ N agregada(s)" reads back as N, and "Pendiente" appears exactly for an empty list |
| HomeScreen.HomeStatuses | app/index.tsx:10-114 | "✓ Agregada", "Cambiar Foto" and the thumbnail exactly when the image is truthy; "✓ Completado" exactly when name and email are filled; each list's status reports its length, or "Pendiente" when empty |
| HomeScreen.SavedPersonalInfoIsComplete | app/index.tsx:10-11 | personal info that passed the form's rules always shows as complete |
| HomeScreen.CompleteIsWeakerThanValid | app/index.tsx:10-11 | the converse fails: info with a name with digits and an email without `@` still shows as complete |
| PhotoScreen.PickedUri | app/photo.tsx:26 | a uri is taken exactly when the pick was not cancelled and returned an asset, and it is the first asset's uri |
| PhotoScreen.ViewOf | app/photo.tsx:71-105 | the image and the remove button are shown exactly when the selection is truthy |
| PhotoScreen.PhotoEditor.constructor | app/photo.tsx:11-13 | the selection starts as the stored image |
| PhotoScreen.PhotoEditor.Choose | app/photo.tsx:15-42 | a denied permission only alerts; a granted one takes the first asset's uri, and a cancelled or empty result keeps the selection |
| PhotoScreen.PhotoEditor.TakePhoto | app/photo.tsx:15-27 | camera denied: alert, selection kept; otherwise the picked uri replaces the selection, if there is one |
| PhotoScreen.PhotoEditor.PickImage | app/photo.tsx:29-42 | gallery denied: alert, selection kept; otherwise the picked uri replaces the selection, if there is one |
| PhotoScreen.PhotoEditor.HandleSave | app/photo.tsx:44-48 | the stored image becomes the selection and every other field and list is unchanged |
| PhotoScreen.PhotoEditor.HandleRemove | app/photo.tsx:50-62 | a confirmed removal clears both the selection and the stored image, and nothing else; otherwise nothing changes |
| PhotoScreen.SavedPhotoShownEverywhere | app/photo.tsx:45 | after a save, the home status and the preview show a photo exactly when the selection is truthy; the printed document shows the data URI of a readable selection, and the placeholder when there is none |

## Left out

- Rendering, styling, navigation (`router.push`/`back`) and the photo screen's Cancel button, which only navigates back and leaves the store unchanged.
- `components/ValidatedInput.tsx`, `components/InputField.tsx`, `components/NavigationButton.tsx` and `app/preview.tsx`. They pass props and compose screens, and hold no logic.
- The CV store's implementation (`context/CVContext`) is not part of this model. The store is a class with a whole-record replace, appends, and a delete that removes every entry carrying the id. Its blank initial value is assumed.
- Clocks, ids, permissions, the camera and gallery, the file read, the printer and the share sheet. These are foreign asynchronous calls; their outcomes are parameters of the methods.
- Validation.Violations: lists the message of every failing rule in declaration order. Which single message react-hook-form shows, and whether it skips `pattern`/`maxLength` on an empty value, is not modelled.
- Validation.NumericValue: a `max` rule is compared only for non-empty digit strings. JavaScript's `Number()` on other text (spaces, signs, decimals) is not modelled. Such text already fails the digits pattern that accompanies the only `max` rule.
- Text.ParseIntPrefix: `parseInt`'s skipping of leading white space and its sign are not modelled. The date texts it reads are written by the picker and have neither.
- Picked years before the common era are not modelled: a picked year is a natural number.
- ExperienceScreen.ExperienceForm.HandleDelete: modelled although the screen's list draws no delete button, so nothing calls it.
- The education and personal-info screens call the global `alert(text)` and, for the education delete, the global `confirm(text)`. The model assumes their web-browser behaviour: `alert` shows only the text, modelled as an alert with an empty title, and `confirm` returns the user's choice. Native React Native shows "Alert" as the title of a global `alert` and does not define `confirm`; that is not modelled.
- React Native drawing of an empty-string `&&` operand is taken as drawing nothing.
