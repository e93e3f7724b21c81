/** The four live-preview skins of components/resume-preview.tsx and their dispatch
    `ResumePreview`, as the blocks and texts each shows. The preview passes
    `isPremium = hasPurchasedTemplates` and a precomputed `hasContactInfo`. */
module PreviewSkins {
  import opened Resume
  import opened JsStrings
  import opened Render
  import Seqs

  function SkillTag(s: string): seq<Node> {
    [Text(s)]
  }

  function ClassicEntry(e: Employment): seq<Node> {
    [Text(OrElse(e.jobTitle, "Job Title")), Text(OrElse(e.company, "Company")), Text(EmploymentDates(e))]
    + IfPresent(e.description)
  }

  function ClassicEducationEntry(e: Education): seq<Node> {
    [Text(OrElse(e.degree, "Degree")), Text(OrElse(e.institution, "Institution")), Text(EducationDates(e))]
    + IfPresent(e.description)
  }

  function ClassicLanguageItem(l: string): seq<Node> {
    [Text(Dot + " " + l)]
  }

  /** `ClassicTemplate`. */
  function ClassicTemplate(d: ResumeData, hasContactInfo: bool, isPremium: bool): Page {
    var p := d.personalDetails;
    [
      Section(true, Name, [Text(NameText(p, "Your Name"))]),
      Section(hasContactInfo, Contact, ContactItems(p)),
      Section(p.photo != "", Photo, [Image(p.photo)]),
      Section(d.summary != "", Summary, [Text("Professional Summary"), Text(d.summary)]),
      Listing(|d.employment| > 0, EmploymentList, [Text("Employment History")], Seqs.Map(d.employment, ClassicEntry)),
      Listing(|d.education| > 0, EducationList, [Text("Education")], Seqs.Map(d.education, ClassicEducationEntry)),
      Listing(|d.skills| > 0, Skills, [Text("Skills")], Seqs.Map(d.skills, SkillTag)),
      Listing(|d.languages| > 0, Languages, [Text("Languages")], Seqs.Map(d.languages, ClassicLanguageItem)),
      Section(!isPremium, Watermark, [Text(WatermarkText)])
    ]
  }

  function ModernEntry(e: Employment): seq<Node> {
    [Text(OrElse(e.jobTitle, "Job Title")), Text(EmploymentDates(e)), Text(OrElse(e.company, "Company"))]
    + IfPresent(e.description)
  }

  function ModernEducationEntry(e: Education): seq<Node> {
    [Text(OrElse(e.degree, "Degree")), Text(EducationDates(e)), Text(OrElse(e.institution, "Institution"))]
    + IfPresent(e.description)
  }

  /** `ModernTemplate`: sidebar, then main column. */
  function ModernTemplate(d: ResumeData, hasContactInfo: bool, isPremium: bool): Page {
    var p := d.personalDetails;
    [
      Section(p.photo != "", Photo, [Image(p.photo)]),
      Section(true, Name, [Text(NameText(p, "Your Name"))]),
      Section(hasContactInfo, Contact, [Text("Contact")] + ContactItems(p)),
      Listing(|d.skills| > 0, Skills, [Text("Skills")], Seqs.Map(d.skills, SkillTag)),
      Listing(|d.languages| > 0, Languages, [Text("Languages")], Seqs.Map(d.languages, SkillTag)),
      Section(!isPremium, Watermark, [Text(WatermarkText)]),
      Section(d.summary != "", Summary, [Text("About Me"), Text(d.summary)]),
      Listing(|d.employment| > 0, EmploymentList, [Text("Experience")], Seqs.Map(d.employment, ModernEntry)),
      Listing(|d.education| > 0, EducationList, [Text("Education")], Seqs.Map(d.education, ModernEducationEntry))
    ]
  }

  /** The first contact row: email, "•" phone, "•" location. */
  function MinimalContactRow(p: PersonalDetails): seq<Node> {
    IfPresent(p.email)
    + (if p.phone != "" then [Text(Dot), Text(p.phone)] else [])
    + (if p.location != "" then [Text(Dot), Text(p.location)] else [])
  }

  /** The second contact row: linkedIn, then "•" and website. */
  function MinimalLinkRow(p: PersonalDetails): seq<Node> {
    IfPresent(p.linkedIn) + (if p.website != "" then [Text(Dot), Text(p.website)] else [])
  }

  function MinimalEntry(e: Employment): seq<Node> {
    [Text(OrElse(e.jobTitle, "Job Title")), Text(EmploymentDates(e)), Text(OrElse(e.company, "Company"))]
    + IfPresent(e.description)
  }

  function MinimalEducationEntry(e: Education): seq<Node> {
    [Text(OrElse(e.degree, "Degree")), Text(EducationDates(e)), Text(OrElse(e.institution, "Institution"))]
  }

  /** `MinimalTemplate`: the first row is gated on all five contact fields, the second on
      linkedIn or website. */
  function MinimalTemplate(d: ResumeData, hasContactInfo: bool, isPremium: bool): Page {
    var p := d.personalDetails;
    [
      Section(p.photo != "", Photo, [Image(p.photo)]),
      Section(true, Name, [Text(NameText(p, "Your Name"))]),
      Section(hasContactInfo, Contact, MinimalContactRow(p)),
      Section(p.linkedIn != "" || p.website != "", Links, MinimalLinkRow(p)),
      Section(d.summary != "", Summary, [Text(d.summary)]),
      Listing(|d.employment| > 0, EmploymentList, [Text("Experience")], Seqs.Map(d.employment, MinimalEntry)),
      Listing(|d.education| > 0, EducationList, [Text("Education")], Seqs.Map(d.education, MinimalEducationEntry)),
      Section(|d.skills| > 0, Skills, [Text("Skills"), Text(Join(d.skills, DotSeparator))]),
      Section(|d.languages| > 0, Languages, [Text("Languages"), Text(Join(d.languages, DotSeparator))]),
      Section(!isPremium, Watermark, [Text(WatermarkText)])
    ]
  }

  function BoldEntry(e: Employment): seq<Node> {
    [Text(OrElse(e.jobTitle, "Job Title")), Text(OrElse(e.company, "Company")), Text(EmploymentDates(e))]
    + IfPresent(e.description)
  }

  function BoldEducationEntry(e: Education): seq<Node> {
    [Text(OrElse(e.degree, "Degree")), Text(OrElse(e.institution, "Institution")), Text(EducationDates(e))]
  }

  /** `BoldTemplate`. */
  function BoldTemplate(d: ResumeData, hasContactInfo: bool, isPremium: bool): Page {
    var p := d.personalDetails;
    [
      Section(true, Name, [Text(NameText(p, "YOUR NAME"))]),
      Section(hasContactInfo, Contact, ContactItems(p)),
      Section(p.photo != "", Photo, [Image(p.photo)]),
      Section(d.summary != "", Summary, [Text("Profile"), Text(d.summary)]),
      Listing(|d.employment| > 0, EmploymentList, [Text("Experience")], Seqs.Map(d.employment, BoldEntry)),
      Listing(|d.education| > 0, EducationList, [Text("Education")], Seqs.Map(d.education, BoldEducationEntry)),
      Listing(|d.skills| > 0, Skills, [Text("Skills")], Seqs.Map(d.skills, SkillTag)),
      Listing(|d.languages| > 0, Languages, [Text("Languages")], Seqs.Map(d.languages, SkillTag)),
      Section(!isPremium, Watermark, [Text(WatermarkText)])
    ]
  }

  /** The skin a template selects, given the props `ResumePreview` computes. */
  function Preview(t: Template, d: ResumeData, isPremium: bool): Page {
    var hasContact := HasContactInfo(d.personalDetails);
    match t
    case Classic => ClassicTemplate(d, hasContact, isPremium)
    case Modern => ModernTemplate(d, hasContact, isPremium)
    case Minimal => MinimalTemplate(d, hasContact, isPremium)
    case Bold => BoldTemplate(d, hasContact, isPremium)
  }

  /** The caption above the preview, shown while the user has not bought templates. */
  function FreeHintSection(hasPurchasedTemplates: bool): Section {
    Section(!hasPurchasedTemplates, FreeHint, [Text(FreeHintText)])
  }

  /** One of the four `{template === "..." && <...Template/>}` lines. */
  function SkinWhen(template: string, t: Template, d: ResumeData, isPremium: bool): Page {
    if template == TemplateName(t) then Preview(t, d, isPremium) else []
  }

  /** `ResumePreview`: the free-version caption, then each skin whose name equals the
      template exactly. */
  function ResumePreview(d: ResumeData, hasPurchasedTemplates: bool, template: string): Page {
    [FreeHintSection(hasPurchasedTemplates)]
    + SkinWhen(template, Classic, d, hasPurchasedTemplates)
    + SkinWhen(template, Modern, d, hasPurchasedTemplates)
    + SkinWhen(template, Minimal, d, hasPurchasedTemplates)
    + SkinWhen(template, Bold, d, hasPurchasedTemplates)
  }

  /** At most one of the four exact-match lines fires: a known name renders the caption and
      that name's skin. */
  lemma ResumePreviewSelects(d: ResumeData, hasPurchasedTemplates: bool, t: Template)
    ensures ResumePreview(d, hasPurchasedTemplates, TemplateName(t))
      == [FreeHintSection(hasPurchasedTemplates)] + Preview(t, d, hasPurchasedTemplates)
  {
    var h := [FreeHintSection(hasPurchasedTemplates)];
    var page := Preview(t, d, hasPurchasedTemplates);
    var none: Page := [];
    assert page + none == page;
    assert h + none == h;
    match t
    case Classic =>
      assert ResumePreview(d, hasPurchasedTemplates, TemplateName(t)) == h + page + none + none + none;
    case Modern =>
      assert ResumePreview(d, hasPurchasedTemplates, TemplateName(t)) == h + none + page + none + none;
    case Minimal =>
      assert ResumePreview(d, hasPurchasedTemplates, TemplateName(t)) == h + none + none + page + none;
    case Bold =>
      assert ResumePreview(d, hasPurchasedTemplates, TemplateName(t)) == h + none + none + none + page;
  }

  /** Any other name matches none of the four lines: only the caption renders, with no
      fallback skin. */
  lemma ResumePreviewUnknown(d: ResumeData, hasPurchasedTemplates: bool, template: string)
    requires ParseTemplate(template).None?
    ensures ResumePreview(d, hasPurchasedTemplates, template) == [FreeHintSection(hasPurchasedTemplates)]
  {
    var h := [FreeHintSection(hasPurchasedTemplates)];
    var none: Page := [];
    assert h + none == h;
    assert ResumePreview(d, hasPurchasedTemplates, template) == h + none + none + none + none;
  }
}
