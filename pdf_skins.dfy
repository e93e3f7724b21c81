/** The four PDF skins of components/resume-document.tsx and their dispatch
    `ResumeDocument`, as the blocks and texts each page shows. */
module PdfSkins {
  import opened Resume
  import opened JsStrings
  import opened Render
  import Seqs

  /** A skill or language rendered as its own text. */
  function Tag(s: string): seq<Node> {
    [Text(s)]
  }

  /** Title and company stacked, then the date range, then the description if any. */
  function ClassicJob(e: Employment): seq<Node> {
    [Text(OrElse(e.jobTitle, "Job Title")), Text(OrElse(e.company, "Company")), Text(EmploymentDates(e))]
    + IfPresent(e.description)
  }

  function ClassicSchool(e: Education): seq<Node> {
    [Text(OrElse(e.degree, "Degree")), Text(OrElse(e.institution, "Institution")), Text(EducationDates(e))]
    + IfPresent(e.description)
  }

  /** `• {language}`. */
  function ClassicLanguage(l: string): seq<Node> {
    [Text(Dot + " " + l)]
  }

  /** `ClassicPDF`. */
  function ClassicPdf(d: ResumeData, isPremium: bool): Page {
    var p := d.personalDetails;
    [
      Section(true, Name, [Text(NameText(p, "Your Name"))]),
      Section(HasContactInfo(p), Contact, ContactItems(p)),
      Section(p.photo != "", Photo, [Image(p.photo)]),
      Section(d.summary != "", Summary, [Text("Professional Summary"), Text(d.summary)]),
      Listing(|d.employment| > 0, EmploymentList, [Text("Employment History")], Seqs.Map(d.employment, ClassicJob)),
      Listing(|d.education| > 0, EducationList, [Text("Education")], Seqs.Map(d.education, ClassicSchool)),
      Listing(|d.skills| > 0, Skills, [Text("Skills")], Seqs.Map(d.skills, Tag)),
      Listing(|d.languages| > 0, Languages, [Text("Languages")], Seqs.Map(d.languages, ClassicLanguage)),
      Section(!isPremium, Watermark, [Text(WatermarkText)])
    ]
  }

  /** Title and date range on one line, the company below, then the description. */
  function ModernJob(e: Employment): seq<Node> {
    [Text(OrElse(e.jobTitle, "Job Title")), Text(EmploymentDates(e)), Text(OrElse(e.company, "Company"))]
    + IfPresent(e.description)
  }

  function ModernSchool(e: Education): seq<Node> {
    [Text(OrElse(e.degree, "Degree")), Text(EducationDates(e)), Text(OrElse(e.institution, "Institution"))]
    + IfPresent(e.description)
  }

  /** `ModernPDF`: a sidebar (photo, name, contact, skills, languages, watermark) followed by
      the main column (summary, experience, education). */
  function ModernPdf(d: ResumeData, isPremium: bool): Page {
    var p := d.personalDetails;
    [
      Section(p.photo != "", Photo, [Image(p.photo)]),
      Section(true, Name, [Text(NameText(p, "Your Name"))]),
      Section(HasContactInfo(p), Contact, [Text("Contact")] + ContactItems(p)),
      Listing(|d.skills| > 0, Skills, [Text("Skills")], Seqs.Map(d.skills, Tag)),
      Listing(|d.languages| > 0, Languages, [Text("Languages")], Seqs.Map(d.languages, Tag)),
      Section(!isPremium, Watermark, [Text(WatermarkText)]),
      Section(d.summary != "", Summary, [Text("About Me"), Text(d.summary)]),
      Listing(|d.employment| > 0, EmploymentList, [Text("Experience")], Seqs.Map(d.employment, ModernJob)),
      Listing(|d.education| > 0, EducationList, [Text("Education")], Seqs.Map(d.education, ModernSchool))
    ]
  }

  /** The minimal PDF's contact gate: email, phone or location only. */
  predicate HasMinimalContact(p: PersonalDetails) {
    p.email != "" || p.phone != "" || p.location != ""
  }

  /** Email, then "•" and phone, then "•" and location; each dot is tied to the field after
      it, so a dot leads the row when email is empty. linkedIn and website never appear. */
  function MinimalContact(p: PersonalDetails): seq<Node> {
    IfPresent(p.email)
    + (if p.phone != "" then [Text(Dot), Text(p.phone)] else [])
    + (if p.location != "" then [Text(Dot), Text(p.location)] else [])
  }

  function MinimalJob(e: Employment): seq<Node> {
    [Text(OrElse(e.jobTitle, "Job Title")), Text(EmploymentDates(e)), Text(OrElse(e.company, "Company"))]
    + IfPresent(e.description)
  }

  /** Minimal omits the education description. */
  function MinimalSchool(e: Education): seq<Node> {
    [Text(OrElse(e.degree, "Degree")), Text(EducationDates(e)), Text(OrElse(e.institution, "Institution"))]
  }

  /** `MinimalPDF`. */
  function MinimalPdf(d: ResumeData, isPremium: bool): Page {
    var p := d.personalDetails;
    [
      Section(p.photo != "", Photo, [Image(p.photo)]),
      Section(true, Name, [Text(NameText(p, "Your Name"))]),
      Section(HasMinimalContact(p), Contact, MinimalContact(p)),
      Section(d.summary != "", Summary, [Text(d.summary)]),
      Listing(|d.employment| > 0, EmploymentList, [Text("Experience")], Seqs.Map(d.employment, MinimalJob)),
      Listing(|d.education| > 0, EducationList, [Text("Education")], Seqs.Map(d.education, MinimalSchool)),
      Section(|d.skills| > 0, Skills, [Text("Skills"), Text(Join(d.skills, DotSeparator))]),
      Section(|d.languages| > 0, Languages, [Text("Languages"), Text(Join(d.languages, DotSeparator))]),
      Section(!isPremium, Watermark, [Text(WatermarkText)])
    ]
  }

  function BoldJob(e: Employment): seq<Node> {
    [Text(OrElse(e.jobTitle, "Job Title")), Text(OrElse(e.company, "Company")), Text(EmploymentDates(e))]
    + IfPresent(e.description)
  }

  /** Bold omits the education description. */
  function BoldSchool(e: Education): seq<Node> {
    [Text(OrElse(e.degree, "Degree")), Text(OrElse(e.institution, "Institution")), Text(EducationDates(e))]
  }

  /** `BoldPDF`. */
  function BoldPdf(d: ResumeData, isPremium: bool): Page {
    var p := d.personalDetails;
    [
      Section(true, Name, [Text(NameText(p, "YOUR NAME"))]),
      Section(HasContactInfo(p), Contact, ContactItems(p)),
      Section(p.photo != "", Photo, [Image(p.photo)]),
      Section(d.summary != "", Summary, [Text("Profile"), Text(d.summary)]),
      Listing(|d.employment| > 0, EmploymentList, [Text("Experience")], Seqs.Map(d.employment, BoldJob)),
      Listing(|d.education| > 0, EducationList, [Text("Education")], Seqs.Map(d.education, BoldSchool)),
      Listing(|d.skills| > 0, Skills, [Text("Skills")], Seqs.Map(d.skills, Tag)),
      Listing(|d.languages| > 0, Languages, [Text("Languages")], Seqs.Map(d.languages, Tag)),
      Section(!isPremium, Watermark, [Text(WatermarkText)])
    ]
  }

  /** The skin a template selects on the PDF surface. */
  function Pdf(t: Template, d: ResumeData, isPremium: bool): Page {
    match t
    case Classic => ClassicPdf(d, isPremium)
    case Modern => ModernPdf(d, isPremium)
    case Minimal => MinimalPdf(d, isPremium)
    case Bold => BoldPdf(d, isPremium)
  }

  /** The placeholder a skin shows for an empty name: bold writes it in capitals. */
  function NamePlaceholder(t: Template): string {
    if t == Bold then "YOUR NAME" else "Your Name"
  }

  /** Every skin has one name block, always shown, holding the full name or the skin's
      placeholder when the name is empty. */
  lemma NameBlock(t: Template, d: ResumeData, isPremium: bool)
    ensures exists i :: 0 <= i < |Pdf(t, d, isPremium)| && Pdf(t, d, isPremium)[i].part == Name
    ensures forall i :: (0 <= i < |Pdf(t, d, isPremium)| && Pdf(t, d, isPremium)[i].part == Name
      ==> Pdf(t, d, isPremium)[i] == Section(true, Name, [Text(OrElse(d.personalDetails.fullName, NamePlaceholder(t)))]))
  {
    var page := Pdf(t, d, isPremium);
    var k := if t == Classic || t == Bold then 0 else 1;
    assert page[k].part == Name;
  }

  /** The entry a skin renders for one job. */
  function JobEntry(t: Template, e: Employment): seq<Node> {
    match t
    case Classic => ClassicJob(e)
    case Modern => ModernJob(e)
    case Minimal => MinimalJob(e)
    case Bold => BoldJob(e)
  }

  /** The entry a skin renders for one school. */
  function SchoolEntry(t: Template, e: Education): seq<Node> {
    match t
    case Classic => ClassicSchool(e)
    case Modern => ModernSchool(e)
    case Minimal => MinimalSchool(e)
    case Bold => BoldSchool(e)
  }

  /** In every skin a job shows its title or "Job Title", its company or "Company" and its
      date range, and then its description exactly when it has one. */
  lemma JobEntryTexts(t: Template, e: Employment)
    ensures Text(OrElse(e.jobTitle, "Job Title")) in JobEntry(t, e)
    ensures Text(OrElse(e.company, "Company")) in JobEntry(t, e)
    ensures Text(EmploymentDates(e)) in JobEntry(t, e)
    ensures |JobEntry(t, e)| == if e.description != "" then 4 else 3
    ensures e.description != "" ==> JobEntry(t, e)[3] == Text(e.description)
  {
  }

  /** In every skin a school shows its degree or "Degree", its institution or "Institution"
      and its date range; only classic and modern go on to its description. */
  lemma SchoolEntryTexts(t: Template, e: Education)
    ensures Text(OrElse(e.degree, "Degree")) in SchoolEntry(t, e)
    ensures Text(OrElse(e.institution, "Institution")) in SchoolEntry(t, e)
    ensures Text(EducationDates(e)) in SchoolEntry(t, e)
    ensures |SchoolEntry(t, e)| == if (t == Classic || t == Modern) && e.description != "" then 4 else 3
    ensures |SchoolEntry(t, e)| == 4 ==> SchoolEntry(t, e)[3] == Text(e.description)
  {
  }

  /** The experience listing of every skin renders each job with that skin's `JobEntry`, in
      the document's order. */
  lemma JobListing(t: Template, d: ResumeData, isPremium: bool)
    ensures forall i :: (0 <= i < |Pdf(t, d, isPremium)| && Pdf(t, d, isPremium)[i].part == EmploymentList
      ==> Pdf(t, d, isPremium)[i].Listing? && Pdf(t, d, isPremium)[i].entries == Seqs.Map(d.employment, (e: Employment) => JobEntry(t, e)))
  {
    var jobs := (e: Employment) => JobEntry(t, e);
    match t {
      case Classic => Seqs.MapCongruent(d.employment, ClassicJob, jobs);
      case Modern => Seqs.MapCongruent(d.employment, ModernJob, jobs);
      case Minimal => Seqs.MapCongruent(d.employment, MinimalJob, jobs);
      case Bold => Seqs.MapCongruent(d.employment, BoldJob, jobs);
    }
  }

  /** The education listing of every skin renders each school with that skin's
      `SchoolEntry`, in the document's order. */
  lemma SchoolListing(t: Template, d: ResumeData, isPremium: bool)
    ensures forall i :: (0 <= i < |Pdf(t, d, isPremium)| && Pdf(t, d, isPremium)[i].part == EducationList
      ==> Pdf(t, d, isPremium)[i].Listing? && Pdf(t, d, isPremium)[i].entries == Seqs.Map(d.education, (e: Education) => SchoolEntry(t, e)))
  {
    var schools := (e: Education) => SchoolEntry(t, e);
    match t {
      case Classic => Seqs.MapCongruent(d.education, ClassicSchool, schools);
      case Modern => Seqs.MapCongruent(d.education, ModernSchool, schools);
      case Minimal => Seqs.MapCongruent(d.education, MinimalSchool, schools);
      case Bold => Seqs.MapCongruent(d.education, BoldSchool, schools);
    }
  }

  /** The minimal contact row without an email: each of phone and location that is filled
      shows after its own dot, so the row starts with a dot; linkedIn and website never
      show. */
  lemma MinimalContactWithoutEmail(p: PersonalDetails)
    requires p.email == ""
    ensures NodeTexts(MinimalContact(p))
      == (if p.phone != "" then [Dot, p.phone] else []) + (if p.location != "" then [Dot, p.location] else [])
    ensures HasMinimalContact(p) ==> MinimalContact(p)[0] == Text(Dot)
  {
    var phone := if p.phone != "" then [Text(Dot), Text(p.phone)] else [];
    var location := if p.location != "" then [Text(Dot), Text(p.location)] else [];
    assert MinimalContact(p) == phone + location;
    NodeTextsAppend(phone, location);
    PairTexts(p.phone);
    PairTexts(p.location);
  }

  lemma PairTexts(field: string)
    ensures NodeTexts([Text(Dot), Text(field)]) == [Dot, field]
  {
    var ns := [Text(Dot), Text(field)];
    assert ns[1..] == [Text(field)];
    assert [Text(field)][1..] == [];
    assert NodeTexts([Text(field)]) == [field] + NodeTexts([]);
    assert NodeTexts(ns) == [Dot] + NodeTexts([Text(field)]);
  }

  /** `ResumeDocument`: modern, minimal and bold by name; every other value renders classic. */
  function ResumeDocument(d: ResumeData, isPremium: bool, template: string): (r: Page)
    ensures ParseTemplate(template).Some? ==> r == Pdf(ParseTemplate(template).value, d, isPremium)
    ensures ParseTemplate(template).None? ==> r == ClassicPdf(d, isPremium)
  {
    if template == "modern" then ModernPdf(d, isPremium)
    else if template == "minimal" then MinimalPdf(d, isPremium)
    else if template == "bold" then BoldPdf(d, isPremium)
    else ClassicPdf(d, isPremium)
  }
}
