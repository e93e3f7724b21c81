# ClearVide resume builder — a Dafny model of its core

ClearVide is a web application in which a user fills in one resume and picks one of four
skins (classic, modern, minimal, bold). It shows the resume in a live preview and exports
it as a PDF. Paying users ("Pro") get AI help with the summary, job descriptions and
skills. Users who bought the templates get pages without the "Created with ClearVide"
watermark. An admin panel lists the users and switches their two entitlements.

This project models the parts of that application that decide behaviour:

- **The resume store** (`Store.ResumeStore`, over the values in `Resume`). It holds the
  document, the two entitlement flags, the selected template and the `isLoaded` latch. It
  covers the pure update operations, the restore from browser storage and the premium
  check.
- **The two renderers** (`PdfSkins`, `PreviewSkins`), reduced to *what* each skin shows,
  in order. A page is a sequence of sections, each tagged with the part of the resume it
  renders and shown or hidden by its guard (`Render`). `Surfaces` relates the two
  renderings: which parts each one shows, and whether they show the same texts.
- **The editing form** (`Form.ResumeForm`). It covers the skill and language inputs, the
  "I currently work here" checkbox, and the order of the AI actions' checks before the
  polish dialog (the form's only way to the AI endpoint) opens.
- **The AI prompts and the skill-list parser** (`AiPrompts`).
- **The admin route and the admin panel** (`AdminRoute`, `AdminPage.AdminPanel`). They
  cover the allow-list, the per-user record, the toggle and the name and id shown per row.

`JsStrings` and `Seqs` give the JavaScript string and array operations the code relies on
(`trim`, `split(",")`, `join`, `includes`, `filter`, `map`).

Foreign calls appear as inputs:

- `getToken()` becomes whether a token came back.
- The `/api/me` reply, Clerk's session and user list, and `api.patch` become what the call
  produced.
- `crypto.randomUUID()` becomes a fresh id supplied by the caller.
- `JSON.parse` of the stored document becomes a parsed document or a parse failure (see
  "## Left out" for what parses but is not a resume).

Three behaviours of the code that a reader might not expect:

- The preview and the PDF do not show the same information for every skin. For minimal:
  - the minimal PDF gates its contact row on email, phone and location only;
  - the minimal preview gates it on all five contact fields and adds a second row for
    linkedIn and website, which the PDF never shows (`Surfaces.SurfacesShowSameParts`,
    `Surfaces.MinimalSurfacesTexts`).
  For classic, modern and bold the two surfaces agree.
- The PDF entry point falls back to classic for an unknown template name. The preview has
  no fallback and renders only its caption (`Surfaces.UnknownTemplateExportsClassic`).
- The entitlement `PATCH` route answers `{success: true}` rather than the updated record,
  and the client has no `patch` method at all (see Findings).

## Model

| member | source | states |
|---|---|---|
| Resume.ParseTemplate | lib/resume-context.tsx:113 | a stored template name is accepted exactly when it is one of the four names, and then maps to the template with that name |
| Resume.ParseTemplateName | lib/resume-context.tsx:113 | every template's own name is accepted and maps back to that template |
| Resume.DefaultDataIsBlank | lib/resume-context.tsx:67-82 | the default document has all seven personal fields empty, an empty summary and empty employment, education, skills and languages |
| Resume.MergePersonal | lib/resume-context.tsx:180-185 | each personal field is the patch's value when the patch supplies it and the old value otherwise |
| Resume.MergePersonalNothing | lib/resume-context.tsx:183 | an empty patch leaves the personal details unchanged |
| Resume.MergePersonalTwice | lib/resume-context.tsx:180-185 | two successive updates equal one update with the later patch taking precedence field by field |
| Resume.MergeEmployment | lib/resume-context.tsx:210 | each employment field is the patch's value when supplied and the old value otherwise |
| Resume.MergeEducation | lib/resume-context.tsx:239 | each education field is the patch's value when supplied and the old value otherwise |
| Resume.AddEmployment | lib/resume-context.tsx:191-205 | exactly one all-empty entry with `current = false` and the fresh id is appended; earlier entries are unchanged |
| Resume.UpdateEmployment | lib/resume-context.tsx:207-212 | length and order kept; only entries with the id are merged with the patch; an unknown id changes nothing; ids are kept unless the patch sets one |
| Resume.RemoveEmployment | lib/resume-context.tsx:214-219 | no entry with the id remains, every other entry remains, and nothing new appears |
| Resume.RemoveUnknownEmployment | lib/resume-context.tsx:214-219 | removing an id no entry has changes nothing |
| Resume.RemoveEmploymentAppend | lib/resume-context.tsx:217 | removal distributes over concatenation, so the survivors keep their order |
| Resume.AddThenRemoveEmployment | lib/resume-context.tsx:191-219 | adding an entry with a fresh id and removing that id restores the list |
| Resume.AddEducation | lib/resume-context.tsx:221-234 | exactly one all-empty entry with the fresh id is appended; earlier entries are unchanged |
| Resume.UpdateEducation | lib/resume-context.tsx:236-241 | length and order kept; only entries with the id are merged; an unknown id changes nothing |
| Resume.RemoveEducation | lib/resume-context.tsx:243-248 | no entry with the id remains, every other entry remains, and nothing new appears |
| Resume.RemoveUnknownEducation | lib/resume-context.tsx:243-248 | removing an unknown id changes nothing |
| Resume.RemoveEducationAppend | lib/resume-context.tsx:246 | removal distributes over concatenation, so the survivors keep their order |
| Resume.AddThenRemoveEducation | lib/resume-context.tsx:221-248 | add with a fresh id, then remove of that id, restores the list |
| Store.RestoredData | lib/resume-context.tsx:100-106 | a parsed stored document replaces the current one; a missing or unparsable one keeps it |
| Store.RestoredFlag | lib/resume-context.tsx:107-112 | a missing or empty stored flag keeps the current value; any other becomes `stored == "true"` |
| Store.RestoredTemplate | lib/resume-context.tsx:113-115 | the template changes only to a stored value that is one of the four names; any other value keeps the current template |
| Store.PremiumCheck | lib/resume-context.tsx:122-150 | not loaded or signed out gives both flags false; no token keeps them; a profile sets them to the server's values; an error mentioning "Unauthorized" or "401" gives false, any other error keeps them |
| Store.PremiumCheckNeverGrantsUnconfirmed | lib/resume-context.tsx:122-150 | a flag that was off is on after the check only when the server reported it on |
| Store.ResumeStore.constructor | lib/resume-context.tsx:87-91 | the provider starts with the default document, both flags false, classic, and not loaded |
| Store.ResumeStore.Restore | lib/resume-context.tsx:94-117 | the document, both flags and the template become their restored values, and `isLoaded` is set |
| Store.ResumeStore.CheckPremium | lib/resume-context.tsx:122-153 | the two flags become `PremiumCheck` of their old values; nothing else changes |
| Store.ResumeStore.SetIsPro | lib/resume-context.tsx:88 | only `isPro` changes, to the value given |
| Store.ResumeStore.SetHasPurchasedTemplates | lib/resume-context.tsx:89 | only `hasPurchasedTemplates` changes, to the value given |
| Store.ResumeStore.SetTemplate | lib/resume-context.tsx:90 | only the template changes, to the value given |
| Store.ResumeStore.UpdatePersonalDetails | lib/resume-context.tsx:180-185 | only the personal details change, to their merge with the patch |
| Store.ResumeStore.UpdateSummary | lib/resume-context.tsx:187-189 | only the summary changes |
| Store.ResumeStore.AddEmployment | lib/resume-context.tsx:191-205 | only the employment list changes, by `Resume.AddEmployment` |
| Store.ResumeStore.UpdateEmployment | lib/resume-context.tsx:207-212 | only the employment list changes, by `Resume.UpdateEmployment` |
| Store.ResumeStore.RemoveEmployment | lib/resume-context.tsx:214-219 | only the employment list changes, by `Resume.RemoveEmployment` |
| Store.ResumeStore.AddEducation | lib/resume-context.tsx:221-234 | only the education list changes, by `Resume.AddEducation` |
| Store.ResumeStore.UpdateEducation | lib/resume-context.tsx:236-241 | only the education list changes, by `Resume.UpdateEducation` |
| Store.ResumeStore.RemoveEducation | lib/resume-context.tsx:243-248 | only the education list changes, by `Resume.RemoveEducation` |
| Store.ResumeStore.UpdateSkills | lib/resume-context.tsx:250-252 | the skills are replaced wholesale, without deduplication; nothing else changes |
| Store.ResumeStore.UpdateLanguages | lib/resume-context.tsx:254-256 | the languages are replaced wholesale; nothing else changes |
| Store.AddThenRemoveRestores | lib/resume-context.tsx:191-219 | on the store, adding an employment entry and removing its fresh id leaves the document as it was |
| Render.CurrentOverridesEndDate | components/resume-document.tsx:196 | while an entry is current its range ends in "Present" whatever its stored end date |
| Render.DateRangeExamples | components/resume-document.tsx:196 | "Jan 2020 — Present" for a current job; "Start — End" when both dates are empty |
| Render.ContactItemsGate | components/resume-document.tsx:148-153 | the contact list is empty exactly when `hasContactInfo` is false, and never holds an empty text |
| Render.ContactItemsOnlyLocation | components/resume-document.tsx:161-170 | with only the location filled, the contact list is that location alone |
| PdfSkins.ResumeDocument | components/resume-document.tsx:15-26 | "modern", "minimal" and "bold" select their skin; every other name renders classic |
| PdfSkins.NameBlock | components/resume-document.tsx:160 | every skin has a name block, always shown, holding the full name or, when it is empty, "Your Name" ("YOUR NAME" in bold, lines 381, 586 and 799 for the other skins) |
| PdfSkins.JobEntryTexts | components/resume-document.tsx:192-199 | in every skin a job shows its title or "Job Title", its company or "Company" and its date range, and its description exactly when it has one |
| PdfSkins.SchoolEntryTexts | components/resume-document.tsx:212-219 | in every skin a school shows its degree or "Degree", its institution or "Institution" and its date range; only classic and modern (line 459) show its description |
| PdfSkins.JobListing | components/resume-document.tsx:188-201 | every skin's experience listing renders each job with that skin's entry, in the document's order |
| PdfSkins.SchoolListing | components/resume-document.tsx:208-220 | every skin's education listing renders each school with that skin's entry, in the document's order |
| PdfSkins.MinimalContactWithoutEmail | components/resume-document.tsx:589-593 | without an email, the minimal contact row is a dot before the phone and a dot before the location, each only when filled, so it starts with a dot; linkedIn and website never show |
| PreviewSkins.ResumePreviewSelects | components/resume-preview.tsx:33-80 | a known template name renders the free-version caption followed by that template's skin and no other |
| PreviewSkins.ResumePreviewUnknown | components/resume-preview.tsx:33-80 | any other name renders only the caption: the preview has no fallback skin |
| Surfaces.ClassicSurfacesAgree | components/resume-preview.tsx:121-245 | the classic preview renders the same sections and texts as the classic PDF |
| Surfaces.ModernSurfacesAgree | components/resume-preview.tsx:248-362 | the modern preview renders the same sections and texts as the modern PDF |
| Surfaces.BoldSurfacesAgree | components/resume-preview.tsx:471-602 | the bold preview renders the same sections and texts as the bold PDF |
| Surfaces.ClassicPdfLayout | components/resume-document.tsx:146-255 | the classic PDF's sections and their guards, in order |
| Surfaces.ModernPdfLayout | components/resume-document.tsx:367-468 | the modern PDF's sections and their guards, in order |
| Surfaces.MinimalPdfLayout | components/resume-document.tsx:577-654 | the minimal PDF's sections and their guards, in order, with the contact row gated on email, phone and location only |
| Surfaces.BoldPdfLayout | components/resume-document.tsx:785-906 | the bold PDF's sections and their guards, in order |
| Surfaces.MinimalPreviewLayout | components/resume-preview.tsx:365-468 | the minimal preview's sections and their guards, including the linkedIn/website row |
| Surfaces.ClassicPdfGates | components/resume-document.tsx:146-255 | the classic PDF shows a part exactly when its guard holds |
| Surfaces.ModernPdfGates | components/resume-document.tsx:367-468 | the modern PDF shows a part exactly when its guard holds |
| Surfaces.MinimalPdfGates | components/resume-document.tsx:577-654 | the minimal PDF shows a part exactly when its guard holds |
| Surfaces.BoldPdfGates | components/resume-document.tsx:785-906 | the bold PDF shows a part exactly when its guard holds |
| Surfaces.PdfGates | components/resume-document.tsx:146-906 | every PDF skin shows the name always, the photo, summary and lists exactly when present, the contact row exactly when its gate holds, and the watermark exactly for a non-premium user |
| Surfaces.MinimalPreviewGates | components/resume-preview.tsx:365-468 | the minimal preview shows a part exactly when the preview's guard holds |
| Surfaces.PreviewGates | components/resume-preview.tsx:121-602 | every preview skin shows a part exactly when the preview's guard holds |
| Surfaces.SurfacesShowSameParts | components/resume-preview.tsx:386-401 | the two surfaces disagree on whether a part is shown exactly for minimal with a linkedIn or website: on the links row, and on the contact row when email, phone and location are all empty |
| Surfaces.LinkRowTexts | components/resume-preview.tsx:395-401 | the minimal links row shows a text exactly when linkedIn or website is filled |
| Surfaces.MinimalSurfacesTexts | components/resume-preview.tsx:386-401 | the minimal preview shows the same texts as the minimal PDF exactly when linkedIn and website are both empty |
| Surfaces.ExportMatchesPreview | components/header.tsx:67 | for classic, modern and bold the exported page (with `isPremium = hasPurchasedTemplates`) is exactly the preview without its caption |
| Surfaces.UnknownTemplateExportsClassic | components/resume-document.tsx:23-24 | an unknown template name exports the classic page, name included, but previews only the caption, with no name |
| Form.AddEntry | components/resume-form.tsx:52-57 | an accepted input (non-empty after trimming, not already listed) is appended trimmed; any other leaves the list unchanged |
| Form.AddEntryKeepsDistinct | components/resume-form.tsx:53 | adding never introduces a duplicate into a duplicate-free list |
| Form.AddTwiceOneCopy | components/resume-form.tsx:53 | adding the same text twice leaves exactly one copy of it |
| Form.RemoveEntry | components/resume-form.tsx:59-61 | the removed value no longer occurs |
| Form.RemoveEntryCount | components/resume-form.tsx:59-61 | every copy of the removed value goes, and every other value keeps all its copies |
| Form.RemoveEntryAppend | components/resume-form.tsx:70-72 | removal distributes over concatenation, so the rest keep their order |
| Form.AddThenRemoveEntry | components/resume-form.tsx:52-61 | removing what was just added restores the list |
| Form.MergeSuggestions | components/resume-form.tsx:172-174 | the existing skills come first, unchanged, followed by at most the suggested items |
| Form.MergeSuggestionsCount | components/resume-form.tsx:172-174 | a value already held keeps its copies; any other value takes all its copies from the suggestion, so duplicates inside the suggestion survive |
| Form.SkillsAfterSuggestion | components/resume-form.tsx:171-175 | only an array result is merged, into the skills captured when the dialog opened; anything else leaves the skills as they are |
| Form.CurrentToggle | components/resume-form.tsx:421-423 | the checkbox writes `current` and the end date together: checked gives "Present", unchecked gives "", so the range ends in "Present" or "End"; nothing else of the entry changes |
| Form.JobTitles | components/resume-form.tsx:92 | the job titles passed on are never empty |
| Form.JobTitlesEmpty | components/resume-form.tsx:141-142 | there are no job titles exactly when every entry's title is empty |
| Form.ResumeForm.constructor | components/resume-form.tsx:37-50 | both inputs start empty, the dialog closed with a no-op callback, no notice shown |
| Form.ResumeForm.SetSkillInput | components/resume-form.tsx:37 | only the skill input changes |
| Form.ResumeForm.SetLanguageInput | components/resume-form.tsx:38 | only the language input changes |
| Form.ResumeForm.AddSkill | components/resume-form.tsx:52-57 | the skills become `AddEntry` of the old skills and input; the input is cleared exactly when it was accepted; nothing else changes |
| Form.ResumeForm.RemoveSkill | components/resume-form.tsx:59-61 | the skills become `RemoveEntry` of the old skills; nothing else changes |
| Form.ResumeForm.AddLanguage | components/resume-form.tsx:63-68 | as `AddSkill`, for the languages |
| Form.ResumeForm.RemoveLanguage | components/resume-form.tsx:70-72 | as `RemoveSkill`, for the languages |
| Form.ResumeForm.ToggleCurrent | components/resume-form.tsx:421-423 | the checkbox updates the entry with that id through `CurrentPatch` |
| Form.ResumeForm.CheckEntitled | components/resume-form.tsx:75-89 | passes exactly when there is a token and the user is Pro; no token shows "Login Required", a token without Pro shows "Pro Feature" |
| Form.ResumeForm.GenerateSummary | components/resume-form.tsx:74-105 | the dialog opens, with name, job titles and skills and the summary callback, exactly when both checks pass, with no notice; otherwise it is unchanged and the right notice shows |
| Form.ResumeForm.GenerateJobDescription | components/resume-form.tsx:107-139 | an empty job title does nothing at all; otherwise the dialog opens with job title and company and the description callback for that entry exactly when both checks pass, with no notice; otherwise the dialog is unchanged and the right notice shows |
| Form.ResumeForm.SuggestSkills | components/resume-form.tsx:141-177 | with no job titles nothing happens; otherwise the dialog opens with the titles, the existing skills and a merge callback holding those skills exactly when both checks pass, with no notice; otherwise the dialog is unchanged and the right notice shows |
| Form.ResumeForm.SetDialogOpen | components/resume-form.tsx:667 | only the dialog's open flag changes |
| Form.ResumeForm.AcceptText | components/resume-form.tsx:103-137 | the summary callback sets the summary; the description callback updates that entry's description; any other callback changes nothing |
| Form.ResumeForm.AcceptSuggestions | components/resume-form.tsx:171-175 | the merge callback sets the skills to `SkillsAfterSuggestion` of its snapshot |
| AiPrompts.SummaryLines | app/actions/ai-resume.ts:8-11 | the job-titles line is empty exactly when there are no job titles, and the skills line exactly when there are no skills |
| AiPrompts.SummaryPromptMentions | app/actions/ai-resume.ts:8-11 | the summary prompt names the person, or "a professional" when the name is empty, and contains every job title and every skill |
| AiPrompts.JobLinesMention | app/actions/ai-resume.ts:21-24 | whatever bullet the format line names, the job prompt contains the job title, the company or "a company" when it is empty, and asks for lines starting with that bullet |
| AiPrompts.JobPromptMentions | app/actions/ai-resume.ts:21-24 | the prompt sent as written and the corrected one both contain the job title and the company or "a company" when it is empty; the corrected one asks for lines starting with "• " |
| AiPrompts.SkillsLines | app/actions/ai-resume.ts:34-36 | the existing-skills line is empty exactly when there are no existing skills |
| AiPrompts.SkillsPromptMentions | app/actions/ai-resume.ts:34-36 | the skills prompt contains every job title and every existing skill |
| AiPrompts.ParseSkillList | app/actions/ai-resume.ts:40-43 | at most one element per comma-separated piece, and every element non-empty and trimmed |
| AiPrompts.ParseSkillListPiece | app/actions/ai-resume.ts:40-43 | the elements keep the order of the comma-separated pieces |
| AiPrompts.ParseSkillListOne | app/actions/ai-resume.ts:40-43 | one comma-free skill with leading whitespace parses to that skill alone |
| AiPrompts.ParseJoinedSkills | app/actions/ai-resume.ts:36-43 | a list of non-empty, trimmed, comma-free skills joined with ", " (the answer format the prompt asks for) parses back to the same list |
| AiPrompts.ExampleAnswerParses | app/actions/ai-resume.ts:36 | the prompt's own example answer parses to its four skills |
| AiPrompts.BulletAsWrittenIsMisreadBullet | app/actions/ai-resume.ts:24 | the prompt's "â€¢" is the UTF-8 bytes of "•" read as Windows-1252 |
| AiPrompts.JobPromptAsWrittenAsksForMisreadBullet | app/actions/ai-resume.ts:24 | the job prompt as written asks for lines starting with "â€¢ ", not with the bullet |
| AdminRoute.AdminEmails | app/api/admin/users/route.ts:8 | one trimmed entry per comma-separated piece of the variable |
| AdminRoute.AdminEmailsUnset | app/api/admin/users/route.ts:8 | an unset or empty variable gives the list holding only "" |
| AdminRoute.AdminEmailsListed | app/api/admin/users/route.ts:8 | addresses joined with commas give back those addresses, trimmed |
| AdminRoute.AdminEmailsTrailingComma | app/api/admin/users/route.ts:8 | a trailing comma puts "" in the list |
| AdminRoute.ToUserRecord | app/api/admin/users/route.ts:28-37 | id, names and creation time are copied; a missing or empty first address becomes "No email"; each flag is true exactly when the metadata holds the boolean `true`; a falsy subscription id becomes null |
| AdminRoute.FlagsNeedLiteralTrue | app/api/admin/users/route.ts:34 | the string "true" or the number 1 does not grant Pro |
| AdminRoute.UnsetListAdmitsEmailless | app/api/admin/users/route.ts:20-23 | with the variable unset, exactly the users without a (non-empty) first address pass the admin check |
| AdminRoute.AdminByFirstAddressOnly | app/api/admin/users/route.ts:20-21 | a user whose second address is listed but whose first is not is refused |
| AdminRoute.ListUsers | app/api/admin/users/route.ts:10-44 | 401 exactly for a missing user id or user; 403 exactly for a signed-in non-admin; the user list exactly for an admin when the fetch succeeded, one record per fetched user in order; every other outcome is 500 |
| AdminPage.TogglePayload | app/admin/page.tsx:77-80 | the named flag becomes the negated current value and the other flag is copied from the stored record |
| AdminPage.Apply | app/admin/page.tsx:77-82 | the write the `PATCH` route performs for this payload (`updateUserMetadata` in the route file under app/api/admin/users/, lines 33-38): exactly the two flags are set, every other field is kept |
| AdminPage.TogglePayloadFlipsOne | app/admin/page.tsx:77-80 | with the switch's own value, the payload flips that flag and keeps the other flag and every other field |
| AdminPage.TogglePayloadTwice | app/admin/page.tsx:77-80 | toggling the same switch twice restores the record |
| AdminPage.FindUser | app/admin/page.tsx:74 | the first record with the id, and none exactly when no record has it |
| AdminPage.ReplaceUser | app/admin/page.tsx:84-86 | the length is kept; records with the id become the returned record and all others stay in place |
| AdminPage.ReplaceUnknownUser | app/admin/page.tsx:84-86 | an id not in the list leaves the list unchanged |
| AdminPage.ReplaceUserFinds | app/admin/page.tsx:84-86 | after the replacement the id is found with the new record exactly when it was found before |
| AdminPage.ToggleEffectOf | app/admin/page.tsx:71-92 | no request is made exactly when there is no token or no record with the id; once a request is made, the effect is a replacement exactly when the patch returned a record for the payload (and carries that record) and a failure exactly when it threw |
| AdminPage.PatchAsWritten | app/admin/page.tsx:82 | the patch call as written always throws |
| AdminPage.ToggleAsWrittenChangesNothing | app/admin/page.tsx:82-97 | as written, a toggle never changes the list, and every attempt with a token and a known id fails |
| AdminPage.PatchIntended | app/admin/page.tsx:82 | the intended patch returns the record with the payload's flags |
| AdminPage.ToggleIntendedFlips | app/admin/page.tsx:77-86 | with the intended patch a toggle flips the switched flag of the matching records, keeps everything else, and leaves other records in place |
| AdminPage.DisplayName | app/admin/page.tsx:173-175 | the name is "No name" when both parts are null or empty, and otherwise trimmed |
| AdminPage.DisplayNameBoth | app/admin/page.tsx:173-175 | two trimmed parts show as "first last" |
| AdminPage.DisplayNameFirstOnly | app/admin/page.tsx:173-175 | a first name alone shows without the trailing space |
| AdminPage.DisplayNameLastOnly | app/admin/page.tsx:173-175 | a last name alone shows without the leading space |
| AdminPage.DisplayNameBlank | app/admin/page.tsx:173-175 | a first name of only whitespace shows as the empty string, not "No name" |
| AdminPage.ShortId | app/admin/page.tsx:177 | the first twelve characters of the id, or the whole id if shorter, followed by "..." |
| AdminPage.ShortIdCollides | app/admin/page.tsx:177 | two ids agreeing in their first twelve characters show alike |
| AdminPage.AdminPanel.constructor | app/admin/page.tsx:32-34 | the panel starts with no users, loading, no row disabled and no toast |
| AdminPage.AdminPanel.Loaded | app/admin/page.tsx:45-46 | a successful load replaces the list and ends loading |
| AdminPage.AdminPanel.BeginToggle | app/admin/page.tsx:69 | the row being toggled has its switches disabled |
| AdminPage.AdminPanel.CompleteToggle | app/admin/page.tsx:70-100 | the list and the toast follow `ToggleEffectOf`, and the row is enabled again on every path |
| AdminPage.AdminPanel.Toggle | app/admin/page.tsx:68-101 | a whole toggle: the list and the toast follow `ToggleEffectOf` (the success toast for a replacement, the failure toast for a throw, no new toast without a request) and no row is left disabled |

## Left out

- Store.RestoredData: the stored document is `JSON.parse`d and handed to `setData` whatever it parses to (`null`, an object of an older shape). The model takes any parsed value to be a well-formed resume and does not model what the pages do with one that is not.
- Writes to browser storage and React's effect scheduling, including the order between the restore and the premium check. The restore and the check are separate transitions of the store.
- The Stripe routes (checkout, portal, webhook, prices): vendor SDK calls, a foreign signature check, and float and locale formatting.
- `GET /api/me`: a thin wrapper whose strict `=== true` coercion is the admin route's, modelled there.
- `POST /api/analyze`, which returns a constant.
- lib/api.ts: fetch plumbing. Its one behaviour that matters here is that it has no `patch` (see Findings).
- The `PATCH /api/admin/users/[userId]` route: a Clerk call. The panel's patch outcome is an input.
- The panel's fetch errors and the redirect home on "Forbidden" or "Unauthorized" (app/admin/page.tsx:47-56). They depend on lib/api.ts's error message; only a successful load is modelled.
- The polish dialog, the cover-letter generator and the analysis dialog: asynchronous UI over the AI endpoint. The dialog is modelled only by its state and its `onSuccess` callbacks.
- `generateText` and the model it calls. The prompts are modelled; the AI's answer is an input to the parser.
- PDF generation and download (`@react-pdf` renderer, Blob and DOM APIs), and all styling: only which texts appear, and in what order.
- Hidden-by-CSS markup (for example the caption's `hidden sm:inline`) and the photo's image element, beyond whether the photo is shown.
- The end-date input's `disabled` while current (components/resume-form.tsx:413): a UI state with no effect on data.
- Toast descriptions and variants; a notice is recorded only by its title.
- `crypto.randomUUID()`: the caller supplies the fresh id.
- Store.ResumeStore.AddEmployment: requires the id to be fresh, which `crypto.randomUUID()` gives in practice but does not guarantee.
- Store.ResumeStore.AddEducation: requires a fresh id, for the same reason.
- Form.ResumeForm.AcceptSuggestions: requires the dialog's callback to be the merge callback (or none), since a list handed to the summary or description callback would store an array where the document holds a string.
- JsStrings.Trim: characters are Unicode scalar values, while JavaScript strings are UTF-16. This differs only for characters outside the Basic Multilingual Plane, none of which `trim` removes.
- AdminRoute.ToUserRecord: metadata numbers are integers (JavaScript numbers are floating point), and only the JSON shapes that matter for truthiness are distinguished.
- AdminRoute.ListUsers: `getUserList` returns at most 100 users; the fetched list is an input, so the limit is not modelled.
- The admin row's join date (`toLocaleDateString`): locale formatting.

## Findings

| source | as written | input that shows it | evidently intended | confidence | as-written member | corrected member |
|---|---|---|---|---|---|---|
| app/actions/ai-resume.ts:24 | the job-description prompt asks for lines starting with "â€¢ ", the UTF-8 bytes of "•" misread as Windows-1252 | any job title, for example "Engineer" at "Acme": the prompt contains `"â€¢ "` | lines starting with the bullet "• " | high (not executed) | AiPrompts.JobPromptAsWrittenAsksForMisreadBullet | AiPrompts.JobPromptMentions |
| app/admin/page.tsx:82 | `api.patch` is called, but lib/api.ts:28-35 defines only `get` and `post`. The call throws, the failure toast shows, and no switch ever changes. The `PATCH` route would also answer `{success: true}` rather than `{user}` | any toggle with a token and a listed id, for example switching Pro on for the first user | the server writes the payload's flags and the row shows the updated record | high (not executed) | AdminPage.ToggleAsWrittenChangesNothing | AdminPage.ToggleIntendedFlips |
