/** The resume document (`ResumeData` and its parts), the template selector, and the pure
    updates the store applies to them (lib/resume-context.tsx). */
module Resume {
  import opened Optional
  import Seqs

  /** The four skins, `ResumeTemplate`. */
  datatype Template = Classic | Modern | Minimal | Bold

  /** The name a template carries in storage and in the renderers' dispatch. */
  function TemplateName(t: Template): string {
    match t
    case Classic => "classic"
    case Modern => "modern"
    case Minimal => "minimal"
    case Bold => "bold"
  }

  /** Recognises exactly the four template names. */
  function ParseTemplate(name: string): (r: Option<Template>)
    ensures r.Some? <==> name in {"classic", "modern", "minimal", "bold"}
    ensures r.Some? ==> TemplateName(r.value) == name
  {
    if name == "classic" then Some(Classic)
    else if name == "modern" then Some(Modern)
    else if name == "minimal" then Some(Minimal)
    else if name == "bold" then Some(Bold)
    else None
  }

  lemma ParseTemplateName(t: Template)
    ensures ParseTemplate(TemplateName(t)) == Some(t)
  {
  }

  datatype PersonalDetails = PersonalDetails(
    fullName: string,
    email: string,
    phone: string,
    location: string,
    linkedIn: string,
    website: string,
    photo: string)

  datatype Employment = Employment(
    id: string,
    jobTitle: string,
    company: string,
    startDate: string,
    endDate: string,
    current: bool,
    description: string)

  datatype Education = Education(
    id: string,
    degree: string,
    institution: string,
    startDate: string,
    endDate: string,
    description: string)

  datatype ResumeData = ResumeData(
    personalDetails: PersonalDetails,
    summary: string,
    employment: seq<Employment>,
    education: seq<Education>,
    skills: seq<string>,
    languages: seq<string>)

  /** `Partial<PersonalDetails>`; `None` is a key the caller left out. */
  datatype PersonalPatch = PersonalPatch(
    fullName: Option<string>,
    email: Option<string>,
    phone: Option<string>,
    location: Option<string>,
    linkedIn: Option<string>,
    website: Option<string>,
    photo: Option<string>)

  /** `Partial<Employment>`; the source's type lets a caller overwrite `id` too. */
  datatype EmploymentPatch = EmploymentPatch(
    id: Option<string>,
    jobTitle: Option<string>,
    company: Option<string>,
    startDate: Option<string>,
    endDate: Option<string>,
    current: Option<bool>,
    description: Option<string>)

  /** `Partial<Education>`. */
  datatype EducationPatch = EducationPatch(
    id: Option<string>,
    degree: Option<string>,
    institution: Option<string>,
    startDate: Option<string>,
    endDate: Option<string>,
    description: Option<string>)

  const NoPersonalChange := PersonalPatch(None, None, None, None, None, None, None)
  const NoEmploymentChange := EmploymentPatch(None, None, None, None, None, None, None)

  /** `defaultData`. */
  function DefaultData(): ResumeData {
    ResumeData(PersonalDetails("", "", "", "", "", "", ""), "", [], [], [], [])
  }

  predicate IsBlankPersonal(p: PersonalDetails) {
    p.fullName == "" && p.email == "" && p.phone == "" && p.location == ""
    && p.linkedIn == "" && p.website == "" && p.photo == ""
  }

  /** The default document: seven empty personal fields, empty summary, empty lists. */
  lemma DefaultDataIsBlank()
    ensures IsBlankPersonal(DefaultData().personalDetails)
    ensures DefaultData().summary == ""
    ensures DefaultData().employment == [] && DefaultData().education == []
    ensures DefaultData().skills == [] && DefaultData().languages == []
  {
  }

  /** The entry `addEmployment` appends. */
  function BlankEmployment(id: string): Employment {
    Employment(id, "", "", "", "", false, "")
  }

  /** The entry `addEducation` appends. */
  function BlankEducation(id: string): Education {
    Education(id, "", "", "", "", "")
  }

  /** `{ ...p, ...patch }` on personal details. */
  function MergePersonal(p: PersonalDetails, patch: PersonalPatch): (r: PersonalDetails)
    ensures patch.fullName.None? ==> r.fullName == p.fullName
    ensures patch.email.None? ==> r.email == p.email
    ensures patch.phone.None? ==> r.phone == p.phone
    ensures patch.location.None? ==> r.location == p.location
    ensures patch.linkedIn.None? ==> r.linkedIn == p.linkedIn
    ensures patch.website.None? ==> r.website == p.website
    ensures patch.photo.None? ==> r.photo == p.photo
    ensures patch.fullName.Some? ==> r.fullName == patch.fullName.value
    ensures patch.email.Some? ==> r.email == patch.email.value
    ensures patch.phone.Some? ==> r.phone == patch.phone.value
    ensures patch.location.Some? ==> r.location == patch.location.value
    ensures patch.linkedIn.Some? ==> r.linkedIn == patch.linkedIn.value
    ensures patch.website.Some? ==> r.website == patch.website.value
    ensures patch.photo.Some? ==> r.photo == patch.photo.value
  {
    PersonalDetails(
      patch.fullName.GetOr(p.fullName),
      patch.email.GetOr(p.email),
      patch.phone.GetOr(p.phone),
      patch.location.GetOr(p.location),
      patch.linkedIn.GetOr(p.linkedIn),
      patch.website.GetOr(p.website),
      patch.photo.GetOr(p.photo))
  }

  /** Spreading the empty partial changes nothing. */
  lemma MergePersonalNothing(p: PersonalDetails)
    ensures MergePersonal(p, NoPersonalChange) == p
  {
  }

  /** `{ ...p, ...q }` on two partials: the later one wins key by key. */
  function ThenPersonal(p: PersonalPatch, q: PersonalPatch): PersonalPatch {
    PersonalPatch(
      if q.fullName.Some? then q.fullName else p.fullName,
      if q.email.Some? then q.email else p.email,
      if q.phone.Some? then q.phone else p.phone,
      if q.location.Some? then q.location else p.location,
      if q.linkedIn.Some? then q.linkedIn else p.linkedIn,
      if q.website.Some? then q.website else p.website,
      if q.photo.Some? then q.photo else p.photo)
  }

  /** Two successive merges are one merge of the combined partial. */
  lemma MergePersonalTwice(d: PersonalDetails, p: PersonalPatch, q: PersonalPatch)
    ensures MergePersonal(MergePersonal(d, p), q) == MergePersonal(d, ThenPersonal(p, q))
  {
  }

  /** `{ ...emp, ...patch }`. */
  function MergeEmployment(e: Employment, patch: EmploymentPatch): (r: Employment)
    ensures patch.id.None? ==> r.id == e.id
    ensures patch.jobTitle.None? ==> r.jobTitle == e.jobTitle
    ensures patch.company.None? ==> r.company == e.company
    ensures patch.startDate.None? ==> r.startDate == e.startDate
    ensures patch.endDate.None? ==> r.endDate == e.endDate
    ensures patch.current.None? ==> r.current == e.current
    ensures patch.description.None? ==> r.description == e.description
    ensures patch.id.Some? ==> r.id == patch.id.value
    ensures patch.jobTitle.Some? ==> r.jobTitle == patch.jobTitle.value
    ensures patch.company.Some? ==> r.company == patch.company.value
    ensures patch.startDate.Some? ==> r.startDate == patch.startDate.value
    ensures patch.endDate.Some? ==> r.endDate == patch.endDate.value
    ensures patch.current.Some? ==> r.current == patch.current.value
    ensures patch.description.Some? ==> r.description == patch.description.value
  {
    Employment(
      patch.id.GetOr(e.id),
      patch.jobTitle.GetOr(e.jobTitle),
      patch.company.GetOr(e.company),
      patch.startDate.GetOr(e.startDate),
      patch.endDate.GetOr(e.endDate),
      patch.current.GetOr(e.current),
      patch.description.GetOr(e.description))
  }

  /** `{ ...edu, ...patch }`. */
  function MergeEducation(e: Education, patch: EducationPatch): (r: Education)
    ensures patch.id.None? ==> r.id == e.id
    ensures patch.degree.None? ==> r.degree == e.degree
    ensures patch.institution.None? ==> r.institution == e.institution
    ensures patch.startDate.None? ==> r.startDate == e.startDate
    ensures patch.endDate.None? ==> r.endDate == e.endDate
    ensures patch.description.None? ==> r.description == e.description
    ensures patch.id.Some? ==> r.id == patch.id.value
    ensures patch.degree.Some? ==> r.degree == patch.degree.value
    ensures patch.institution.Some? ==> r.institution == patch.institution.value
    ensures patch.startDate.Some? ==> r.startDate == patch.startDate.value
    ensures patch.endDate.Some? ==> r.endDate == patch.endDate.value
    ensures patch.description.Some? ==> r.description == patch.description.value
  {
    Education(
      patch.id.GetOr(e.id),
      patch.degree.GetOr(e.degree),
      patch.institution.GetOr(e.institution),
      patch.startDate.GetOr(e.startDate),
      patch.endDate.GetOr(e.endDate),
      patch.description.GetOr(e.description))
  }

  /** No employment entry carries this id. */
  predicate FreshEmploymentId(es: seq<Employment>, id: string) {
    forall i :: 0 <= i < |es| ==> es[i].id != id
  }

  predicate FreshEducationId(es: seq<Education>, id: string) {
    forall i :: 0 <= i < |es| ==> es[i].id != id
  }

  /** `[...employment, newEmployment]`. */
  function AddEmployment(es: seq<Employment>, newId: string): (r: seq<Employment>)
    ensures |r| == |es| + 1 && r[..|es|] == es
    ensures r[|es|] == BlankEmployment(newId)
  {
    es + [BlankEmployment(newId)]
  }

  /** `employment.map(emp => emp.id === id ? { ...emp, ...patch } : emp)`. */
  function UpdateEmployment(es: seq<Employment>, id: string, patch: EmploymentPatch): (r: seq<Employment>)
    ensures |r| == |es|
    ensures forall i :: 0 <= i < |es| && es[i].id != id ==> r[i] == es[i]
    ensures forall i :: 0 <= i < |es| && es[i].id == id ==> r[i] == MergeEmployment(es[i], patch)
    ensures FreshEmploymentId(es, id) ==> r == es
    ensures patch.id.None? ==> forall i :: 0 <= i < |es| ==> r[i].id == es[i].id
  {
    seq(|es|, i requires 0 <= i < |es| => if es[i].id == id then MergeEmployment(es[i], patch) else es[i])
  }

  /** `employment.filter(emp => emp.id !== id)`. */
  function RemoveEmployment(es: seq<Employment>, id: string): (r: seq<Employment>)
    ensures FreshEmploymentId(r, id)
    ensures forall i :: 0 <= i < |es| && es[i].id != id ==> es[i] in r
    ensures forall i :: 0 <= i < |r| ==> r[i] in es
  {
    Seqs.Filter(es, (e: Employment) => e.id != id)
  }

  /** Removing an id no entry carries is a no-op. */
  lemma RemoveUnknownEmployment(es: seq<Employment>, id: string)
    requires FreshEmploymentId(es, id)
    ensures RemoveEmployment(es, id) == es
  {
    Seqs.FilterKeepsAll(es, (e: Employment) => e.id != id);
  }

  /** Removal keeps the surviving entries in their order. */
  lemma RemoveEmploymentAppend(a: seq<Employment>, b: seq<Employment>, id: string)
    ensures RemoveEmployment(a + b, id) == RemoveEmployment(a, id) + RemoveEmployment(b, id)
  {
    Seqs.FilterAppend(a, b, (e: Employment) => e.id != id);
  }

  /** With a fresh id, adding an entry and removing it again restores the list. */
  lemma AddThenRemoveEmployment(es: seq<Employment>, newId: string)
    requires FreshEmploymentId(es, newId)
    ensures RemoveEmployment(AddEmployment(es, newId), newId) == es
  {
    RemoveEmploymentAppend(es, [BlankEmployment(newId)], newId);
    RemoveUnknownEmployment(es, newId);
  }

  /** `[...education, newEducation]`. */
  function AddEducation(es: seq<Education>, newId: string): (r: seq<Education>)
    ensures |r| == |es| + 1 && r[..|es|] == es
    ensures r[|es|] == BlankEducation(newId)
  {
    es + [BlankEducation(newId)]
  }

  /** `education.map(edu => edu.id === id ? { ...edu, ...patch } : edu)`. */
  function UpdateEducation(es: seq<Education>, id: string, patch: EducationPatch): (r: seq<Education>)
    ensures |r| == |es|
    ensures forall i :: 0 <= i < |es| && es[i].id != id ==> r[i] == es[i]
    ensures forall i :: 0 <= i < |es| && es[i].id == id ==> r[i] == MergeEducation(es[i], patch)
    ensures FreshEducationId(es, id) ==> r == es
    ensures patch.id.None? ==> forall i :: 0 <= i < |es| ==> r[i].id == es[i].id
  {
    seq(|es|, i requires 0 <= i < |es| => if es[i].id == id then MergeEducation(es[i], patch) else es[i])
  }

  /** `education.filter(edu => edu.id !== id)`. */
  function RemoveEducation(es: seq<Education>, id: string): (r: seq<Education>)
    ensures FreshEducationId(r, id)
    ensures forall i :: 0 <= i < |es| && es[i].id != id ==> es[i] in r
    ensures forall i :: 0 <= i < |r| ==> r[i] in es
  {
    Seqs.Filter(es, (e: Education) => e.id != id)
  }

  /** Removing an id no entry carries is a no-op. */
  lemma RemoveUnknownEducation(es: seq<Education>, id: string)
    requires FreshEducationId(es, id)
    ensures RemoveEducation(es, id) == es
  {
    Seqs.FilterKeepsAll(es, (e: Education) => e.id != id);
  }

  lemma RemoveEducationAppend(a: seq<Education>, b: seq<Education>, id: string)
    ensures RemoveEducation(a + b, id) == RemoveEducation(a, id) + RemoveEducation(b, id)
  {
    Seqs.FilterAppend(a, b, (e: Education) => e.id != id);
  }

  lemma AddThenRemoveEducation(es: seq<Education>, newId: string)
    requires FreshEducationId(es, newId)
    ensures RemoveEducation(AddEducation(es, newId), newId) == es
  {
    RemoveEducationAppend(es, [BlankEducation(newId)], newId);
    RemoveUnknownEducation(es, newId);
  }
}
