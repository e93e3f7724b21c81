/** How the two renderings of one resume relate: the live preview
    (components/resume-preview.tsx) and the exported PDF (components/resume-document.tsx). */
module Surfaces {
  import opened Resume
  import opened Render
  import Seqs
  import PdfSkins
  import PreviewSkins

  datatype Surface = PdfExport | LivePreview

  /** The page a template renders on a surface. */
  function RenderOn(s: Surface, t: Template, d: ResumeData, isPremium: bool): Page {
    match s
    case PdfExport => PdfSkins.Pdf(t, d, isPremium)
    case LivePreview => PreviewSkins.Preview(t, d, isPremium)
  }

  /** Classic: the preview and the PDF render the same sections and texts. */
  lemma ClassicSurfacesAgree(d: ResumeData, isPremium: bool)
    ensures RenderOn(LivePreview, Classic, d, isPremium) == RenderOn(PdfExport, Classic, d, isPremium)
  {
    Seqs.MapCongruent(d.employment, PreviewSkins.ClassicEntry, PdfSkins.ClassicJob);
    Seqs.MapCongruent(d.education, PreviewSkins.ClassicEducationEntry, PdfSkins.ClassicSchool);
    Seqs.MapCongruent(d.skills, PreviewSkins.SkillTag, PdfSkins.Tag);
    Seqs.MapCongruent(d.languages, PreviewSkins.ClassicLanguageItem, PdfSkins.ClassicLanguage);
  }

  /** Modern: the preview and the PDF render the same sections and texts. */
  lemma ModernSurfacesAgree(d: ResumeData, isPremium: bool)
    ensures RenderOn(LivePreview, Modern, d, isPremium) == RenderOn(PdfExport, Modern, d, isPremium)
  {
    Seqs.MapCongruent(d.employment, PreviewSkins.ModernEntry, PdfSkins.ModernJob);
    Seqs.MapCongruent(d.education, PreviewSkins.ModernEducationEntry, PdfSkins.ModernSchool);
    Seqs.MapCongruent(d.skills, PreviewSkins.SkillTag, PdfSkins.Tag);
    Seqs.MapCongruent(d.languages, PreviewSkins.SkillTag, PdfSkins.Tag);
  }

  /** Bold: the preview and the PDF render the same sections and texts. */
  lemma BoldSurfacesAgree(d: ResumeData, isPremium: bool)
    ensures RenderOn(LivePreview, Bold, d, isPremium) == RenderOn(PdfExport, Bold, d, isPremium)
  {
    Seqs.MapCongruent(d.employment, PreviewSkins.BoldEntry, PdfSkins.BoldJob);
    Seqs.MapCongruent(d.education, PreviewSkins.BoldEducationEntry, PdfSkins.BoldSchool);
    Seqs.MapCongruent(d.skills, PreviewSkins.SkillTag, PdfSkins.Tag);
    Seqs.MapCongruent(d.languages, PreviewSkins.SkillTag, PdfSkins.Tag);
  }

  /** The sections of `ClassicPDF` in order, each with its guard. */
  lemma ClassicPdfLayout(d: ResumeData, isPremium: bool)
    ensures var p := d.personalDetails;
      Frame(PdfSkins.ClassicPdf(d, isPremium)) == [
        Slot(true, Name), Slot(HasContactInfo(p), Contact), Slot(p.photo != "", Photo),
        Slot(d.summary != "", Summary), Slot(|d.employment| > 0, EmploymentList),
        Slot(|d.education| > 0, EducationList), Slot(|d.skills| > 0, Skills),
        Slot(|d.languages| > 0, Languages), Slot(!isPremium, Watermark)]
  {
  }

  /** The sections of `ModernPDF` in order: the sidebar, then the main column. */
  lemma ModernPdfLayout(d: ResumeData, isPremium: bool)
    ensures var p := d.personalDetails;
      Frame(PdfSkins.ModernPdf(d, isPremium)) == [
        Slot(p.photo != "", Photo), Slot(true, Name), Slot(HasContactInfo(p), Contact),
        Slot(|d.skills| > 0, Skills), Slot(|d.languages| > 0, Languages), Slot(!isPremium, Watermark),
        Slot(d.summary != "", Summary), Slot(|d.employment| > 0, EmploymentList),
        Slot(|d.education| > 0, EducationList)]
  {
  }

  /** The sections of `MinimalPDF` in order; its contact gate ignores linkedIn and website. */
  lemma MinimalPdfLayout(d: ResumeData, isPremium: bool)
    ensures var p := d.personalDetails;
      Frame(PdfSkins.MinimalPdf(d, isPremium)) == [
        Slot(p.photo != "", Photo), Slot(true, Name), Slot(PdfSkins.HasMinimalContact(p), Contact),
        Slot(d.summary != "", Summary), Slot(|d.employment| > 0, EmploymentList),
        Slot(|d.education| > 0, EducationList), Slot(|d.skills| > 0, Skills),
        Slot(|d.languages| > 0, Languages), Slot(!isPremium, Watermark)]
  {
  }

  /** The sections of `BoldPDF` in order. */
  lemma BoldPdfLayout(d: ResumeData, isPremium: bool)
    ensures var p := d.personalDetails;
      Frame(PdfSkins.BoldPdf(d, isPremium)) == [
        Slot(true, Name), Slot(HasContactInfo(p), Contact), Slot(p.photo != "", Photo),
        Slot(d.summary != "", Summary), Slot(|d.employment| > 0, EmploymentList),
        Slot(|d.education| > 0, EducationList), Slot(|d.skills| > 0, Skills),
        Slot(|d.languages| > 0, Languages), Slot(!isPremium, Watermark)]
  {
  }

  /** The sections of the minimal preview in order: a second contact row for linkedIn and
      website follows the first. */
  lemma MinimalPreviewLayout(d: ResumeData, isPremium: bool)
    ensures var p := d.personalDetails;
      Frame(PreviewSkins.Preview(Minimal, d, isPremium)) == [
        Slot(p.photo != "", Photo), Slot(true, Name), Slot(HasContactInfo(p), Contact),
        Slot(p.linkedIn != "" || p.website != "", Links), Slot(d.summary != "", Summary),
        Slot(|d.employment| > 0, EmploymentList), Slot(|d.education| > 0, EducationList),
        Slot(|d.skills| > 0, Skills), Slot(|d.languages| > 0, Languages), Slot(!isPremium, Watermark)]
  {
  }

  /** Whether the PDF shows `part`, as the guards of the four skins agree: the name always,
      the watermark exactly for a free user, every other part exactly when the resume has
      data for it, with minimal's contact block alone ignoring linkedIn and website. */
  function PdfGuard(t: Template, d: ResumeData, isPremium: bool, part: Part): bool {
    var p := d.personalDetails;
    match part
    case Name => true
    case Photo => p.photo != ""
    case Contact => if t == Minimal then PdfSkins.HasMinimalContact(p) else HasContactInfo(p)
    case Links => false
    case Summary => d.summary != ""
    case EmploymentList => |d.employment| > 0
    case EducationList => |d.education| > 0
    case Skills => |d.skills| > 0
    case Languages => |d.languages| > 0
    case Watermark => !isPremium
    case FreeHint => false
  }

  lemma ClassicPdfGates(d: ResumeData, isPremium: bool, part: Part)
    ensures Shows(PdfSkins.ClassicPdf(d, isPremium), part) <==> PdfGuard(Classic, d, isPremium, part)
  {
    ClassicPdfLayout(d, isPremium);
  }

  lemma ModernPdfGates(d: ResumeData, isPremium: bool, part: Part)
    ensures Shows(PdfSkins.ModernPdf(d, isPremium), part) <==> PdfGuard(Modern, d, isPremium, part)
  {
    ModernPdfLayout(d, isPremium);
  }

  lemma MinimalPdfGates(d: ResumeData, isPremium: bool, part: Part)
    ensures Shows(PdfSkins.MinimalPdf(d, isPremium), part) <==> PdfGuard(Minimal, d, isPremium, part)
  {
    MinimalPdfLayout(d, isPremium);
  }

  lemma BoldPdfGates(d: ResumeData, isPremium: bool, part: Part)
    ensures Shows(PdfSkins.BoldPdf(d, isPremium), part) <==> PdfGuard(Bold, d, isPremium, part)
  {
    BoldPdfLayout(d, isPremium);
  }

  /** Every skin's PDF shows exactly the parts its guard admits. */
  lemma PdfGates(t: Template, d: ResumeData, isPremium: bool, part: Part)
    ensures Shows(PdfSkins.Pdf(t, d, isPremium), part) <==> PdfGuard(t, d, isPremium, part)
  {
    match t
    case Classic => ClassicPdfGates(d, isPremium, part);
    case Modern => ModernPdfGates(d, isPremium, part);
    case Minimal => MinimalPdfGates(d, isPremium, part);
    case Bold => BoldPdfGates(d, isPremium, part);
  }

  /** Whether the live preview shows `part`: as on the PDF, except that every preview skin
      gates its contact block on all five contact fields, and the minimal preview adds a
      second row for linkedIn and website. */
  function PreviewGuard(t: Template, d: ResumeData, isPremium: bool, part: Part): bool {
    var p := d.personalDetails;
    match part
    case Contact => HasContactInfo(p)
    case Links => t == Minimal && (p.linkedIn != "" || p.website != "")
    case _ => PdfGuard(t, d, isPremium, part)
  }

  lemma MinimalPreviewGates(d: ResumeData, isPremium: bool, part: Part)
    ensures Shows(PreviewSkins.Preview(Minimal, d, isPremium), part) <==> PreviewGuard(Minimal, d, isPremium, part)
  {
    MinimalPreviewLayout(d, isPremium);
  }

  /** Every preview skin shows exactly the parts its guard admits. */
  lemma PreviewGates(t: Template, d: ResumeData, isPremium: bool, part: Part)
    ensures Shows(PreviewSkins.Preview(t, d, isPremium), part) <==> PreviewGuard(t, d, isPremium, part)
  {
    match t
    case Classic =>
      ClassicSurfacesAgree(d, isPremium);
      ClassicPdfGates(d, isPremium, part);
    case Modern =>
      ModernSurfacesAgree(d, isPremium);
      ModernPdfGates(d, isPremium, part);
    case Minimal =>
      MinimalPreviewGates(d, isPremium, part);
    case Bold =>
      BoldSurfacesAgree(d, isPremium);
      BoldPdfGates(d, isPremium, part);
  }

  /** The two surfaces disagree on whether a part shows exactly for the minimal skin of a
      resume with a linkedIn or website: the preview then shows the links row, and shows the
      contact block even when email, phone and location are all empty. */
  lemma SurfacesShowSameParts(t: Template, d: ResumeData, isPremium: bool, part: Part)
    ensures var p := d.personalDetails;
      (Shows(RenderOn(PdfExport, t, d, isPremium), part) != Shows(RenderOn(LivePreview, t, d, isPremium), part))
      <==> t == Minimal && (p.linkedIn != "" || p.website != "")
           && (part == Links || (part == Contact && !PdfSkins.HasMinimalContact(p)))
  {
    PdfGates(t, d, isPremium, part);
    PreviewGates(t, d, isPremium, part);
  }

  /** The minimal preview's links row shows a text exactly when it is shown. */
  lemma LinkRowTexts(p: PersonalDetails)
    ensures var row := Section(p.linkedIn != "" || p.website != "", Links, PreviewSkins.MinimalLinkRow(p));
      PageTexts([row]) == [] <==> p.linkedIn == "" && p.website == ""
  {
    var row := PreviewSkins.MinimalLinkRow(p);
    if p.linkedIn != "" {
      assert row[0] == Text(p.linkedIn);
    } else if p.website != "" {
      assert row == [Text(Dot), Text(p.website)];
    }
  }

  /** Minimal: the preview shows the same texts as the PDF exactly when linkedIn and website
      are both empty; otherwise the preview's second contact row adds them. The preview's
      first row, though gated on all five fields, shows the same texts as the PDF's. */
  lemma MinimalSurfacesTexts(d: ResumeData, isPremium: bool)
    ensures var p := d.personalDetails;
      PageTexts(RenderOn(LivePreview, Minimal, d, isPremium)) == PageTexts(RenderOn(PdfExport, Minimal, d, isPremium))
      <==> p.linkedIn == "" && p.website == ""
  {
    var p := d.personalDetails;
    var pdf := PdfSkins.MinimalPdf(d, isPremium);
    var preview := PreviewSkins.Preview(Minimal, d, isPremium);
    Seqs.MapCongruent(d.employment, PreviewSkins.MinimalEntry, PdfSkins.MinimalJob);
    Seqs.MapCongruent(d.education, PreviewSkins.MinimalEducationEntry, PdfSkins.MinimalSchool);
    assert preview == pdf[..2] + [preview[2]] + [preview[3]] + pdf[3..];
    assert pdf == pdf[..2] + [pdf[2]] + pdf[3..];
    assert PageTexts([preview[2]]) == PageTexts([pdf[2]]) by {
      if !PdfSkins.HasMinimalContact(p) {
        assert PreviewSkins.MinimalContactRow(p) == [];
      }
    }
    ReplaceSectionTexts(pdf[..2], pdf[2], preview[2], pdf[3..]);
    InsertSectionTexts(pdf[..2] + [preview[2]], preview[3], pdf[3..]);
    LinkRowTexts(p);
  }

  /** The header exports `ResumeDocument` with `isPremium = hasPurchasedTemplates`, the flag
      the preview receives: for classic, modern and bold the preview shows the free-version
      caption followed by exactly the exported page. */
  lemma ExportMatchesPreview(d: ResumeData, hasPurchasedTemplates: bool, t: Template)
    requires t != Minimal
    ensures var name := TemplateName(t);
      PreviewSkins.ResumePreview(d, hasPurchasedTemplates, name)
      == [PreviewSkins.FreeHintSection(hasPurchasedTemplates)] + PdfSkins.ResumeDocument(d, hasPurchasedTemplates, name)
  {
    ParseTemplateName(t);
    PreviewSkins.ResumePreviewSelects(d, hasPurchasedTemplates, t);
    match t
    case Classic => ClassicSurfacesAgree(d, hasPurchasedTemplates);
    case Modern => ModernSurfacesAgree(d, hasPurchasedTemplates);
    case Bold => BoldSurfacesAgree(d, hasPurchasedTemplates);
  }

  /** A template name none of the four skins matches exports the classic page but previews
      only the caption. */
  lemma UnknownTemplateExportsClassic(d: ResumeData, hasPurchasedTemplates: bool, name: string)
    requires ParseTemplate(name).None?
    ensures PdfSkins.ResumeDocument(d, hasPurchasedTemplates, name) == PdfSkins.ClassicPdf(d, hasPurchasedTemplates)
    ensures PreviewSkins.ResumePreview(d, hasPurchasedTemplates, name) == [PreviewSkins.FreeHintSection(hasPurchasedTemplates)]
    ensures Shows(PdfSkins.ResumeDocument(d, hasPurchasedTemplates, name), Name)
    ensures !Shows(PreviewSkins.ResumePreview(d, hasPurchasedTemplates, name), Name)
  {
    PreviewSkins.ResumePreviewUnknown(d, hasPurchasedTemplates, name);
    ClassicPdfGates(d, hasPurchasedTemplates, Name);
    var hint := PreviewSkins.FreeHintSection(hasPurchasedTemplates);
    assert Frame([hint]) == [Slot(hint.shown, FreeHint)];
  }
}
