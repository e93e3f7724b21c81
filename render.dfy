/** What a rendered resume shows, independent of styling. A skin renders a fixed sequence
    of sections; each section is tagged with the part of the resume it renders, holds its
    visible nodes in order, and is shown or not according to its `{condition && ...}` guard
    (the always-rendered name block is simply always shown). The field-level rules here
    (placeholders, the date range, the contact list) are written identically in
    components/resume-document.tsx and components/resume-preview.tsx. */
module Render {
  import opened Resume
  import opened JsStrings

  datatype Node = Text(text: string) | Image(src: string)

  /** The part of the resume a section renders. `Links` is the minimal preview's second
      contact row; `FreeHint` is the preview's "Watermark visible" caption outside the skin. */
  datatype Part = Name | Photo | Contact | Links | Summary | EmploymentList | EducationList
    | Skills | Languages | Watermark | FreeHint

  /** A block of nodes, or a heading followed by one group of nodes per list element (a JSX
      `list.map(...)`). */
  datatype Section =
    | Section(shown: bool, part: Part, nodes: seq<Node>)
    | Listing(shown: bool, part: Part, nodes: seq<Node>, entries: seq<seq<Node>>)

  type Page = seq<Section>

  const WatermarkText := "Created with ClearVide"
  const FreeHintText := "Watermark visible (Free version)"
  /** The separator between the two ends of a date range, " — ". */
  const DateSeparator := " \U{2014} "
  const Dot := "\U{2022}"
  /** The separator minimal uses to join skills and languages, " • ". */
  const DotSeparator := " \U{2022} "

  /** `{text && <Text>{text}</Text>}`: a node only for a non-empty string. */
  function IfPresent(text: string): seq<Node> {
    if text != "" then [Text(text)] else []
  }

  /** `personalDetails.fullName || placeholder`. */
  function NameText(p: PersonalDetails, placeholder: string): string {
    OrElse(p.fullName, placeholder)
  }

  /** `{start || "Start"} — {current ? "Present" : end || "End"}`. */
  function EmploymentDates(e: Employment): string {
    OrElse(e.startDate, "Start") + DateSeparator + (if e.current then "Present" else OrElse(e.endDate, "End"))
  }

  /** `{start || "Start"} — {end || "End"}`: education has no current flag. */
  function EducationDates(e: Education): string {
    OrElse(e.startDate, "Start") + DateSeparator + OrElse(e.endDate, "End")
  }

  /** While an entry is current its range ends in "Present" whatever its stored end date. */
  lemma CurrentOverridesEndDate(e: Employment, end: string)
    requires e.current
    ensures EmploymentDates(e) == EmploymentDates(e.(endDate := end))
    ensures EmploymentDates(e) == OrElse(e.startDate, "Start") + " \U{2014} Present"
  {
  }

  /** The two worked examples: "Jan 2020 — Present" and the placeholder pair "Start — End". */
  lemma DateRangeExamples()
    ensures EmploymentDates(Employment("a", "", "", "Jan 2020", "", true, "")) == "Jan 2020 \U{2014} Present"
    ensures EmploymentDates(Employment("b", "", "", "", "", false, "")) == "Start \U{2014} End"
  {
  }

  /** At least one of the five contact fields is filled (`hasContactInfo`). */
  predicate HasContactInfo(p: PersonalDetails) {
    p.email != "" || p.phone != "" || p.location != "" || p.linkedIn != "" || p.website != ""
  }

  /** The contact items: the non-empty ones of email, phone, location, linkedIn, website, in
      that order. */
  function ContactItems(p: PersonalDetails): seq<Node> {
    IfPresent(p.email) + IfPresent(p.phone) + IfPresent(p.location) + IfPresent(p.linkedIn) + IfPresent(p.website)
  }

  /** The contact list is empty exactly when the contact gate is closed, and never holds an
      empty text. */
  lemma ContactItemsGate(p: PersonalDetails)
    ensures |ContactItems(p)| == 0 <==> !HasContactInfo(p)
    ensures forall i :: 0 <= i < |ContactItems(p)| ==> ContactItems(p)[i].Text? && ContactItems(p)[i].text != ""
  {
  }

  /** Only `location = "Paris"` filled: the contact list is the one item "Paris". */
  lemma ContactItemsOnlyLocation(p: PersonalDetails)
    requires p.email == "" && p.phone == "" && p.linkedIn == "" && p.website == ""
    requires p.location == "Paris"
    ensures ContactItems(p) == [Text("Paris")]
  {
  }

  /** The texts a sequence of nodes shows, in order. */
  function NodeTexts(ns: seq<Node>): seq<string> {
    if ns == [] then []
    else (if ns[0].Text? then [ns[0].text] else []) + NodeTexts(ns[1..])
  }

  /** The texts of two node sequences one after the other. */
  lemma {:induction false} NodeTextsAppend(a: seq<Node>, b: seq<Node>)
    ensures NodeTexts(a + b) == NodeTexts(a) + NodeTexts(b)
  {
    if a != [] {
      assert (a + b)[0] == a[0];
      assert (a + b)[1..] == a[1..] + b;
      NodeTextsAppend(a[1..], b);
      var head := if a[0].Text? then [a[0].text] else [];
      assert NodeTexts(a + b) == head + NodeTexts(a[1..] + b);
      assert NodeTexts(a) == head + NodeTexts(a[1..]);
    } else {
      assert a + b == b;
    }
  }

  /** The texts of a list's entries, entry after entry. */
  function EntryTexts(entries: seq<seq<Node>>): seq<string> {
    if entries == [] then [] else NodeTexts(entries[0]) + EntryTexts(entries[1..])
  }

  /** The texts a section holds, whether or not it is shown. */
  function SectionTexts(s: Section): seq<string> {
    match s
    case Section(_, _, nodes) => NodeTexts(nodes)
    case Listing(_, _, nodes, entries) => NodeTexts(nodes) + EntryTexts(entries)
  }

  /** The texts a page shows, in order: those of its shown sections. */
  function PageTexts(page: Page): seq<string> {
    if page == [] then []
    else (if page[0].shown then SectionTexts(page[0]) else []) + PageTexts(page[1..])
  }

  lemma {:induction false} PageTextsAppend(a: Page, b: Page)
    ensures PageTexts(a + b) == PageTexts(a) + PageTexts(b)
  {
    if a == [] {
      assert a + b == b;
    } else {
      assert (a + b)[1..] == a[1..] + b;
      PageTextsAppend(a[1..], b);
    }
  }

  /** Replacing one section by another that shows the same texts leaves the page's texts
      unchanged. */
  lemma {:induction false} ReplaceSectionTexts(a: Page, s: Section, s': Section, b: Page)
    requires PageTexts([s]) == PageTexts([s'])
    ensures PageTexts(a + [s] + b) == PageTexts(a + [s'] + b)
  {
    PageTextsAppend(a + [s], b);
    PageTextsAppend(a, [s]);
    PageTextsAppend(a + [s'], b);
    PageTextsAppend(a, [s']);
  }

  /** Inserting a section leaves the page's texts unchanged exactly when it shows no text. */
  lemma {:induction false} InsertSectionTexts(a: Page, s: Section, b: Page)
    ensures PageTexts(a + [s] + b) == PageTexts(a + b) <==> PageTexts([s]) == []
  {
    PageTextsAppend(a + [s], b);
    PageTextsAppend(a, [s]);
    PageTextsAppend(a, b);
    if PageTexts(a + [s] + b) == PageTexts(a + b) {
      assert |PageTexts([s])| == 0;
    }
  }

  /** Which part each section of a page renders and whether it is shown, its contents
      dropped. */
  datatype Slot = Slot(shown: bool, part: Part)

  function Frame(page: Page): seq<Slot>
  {
    seq(|page|, i requires 0 <= i < |page| => Slot(page[i].shown, page[i].part))
  }

  /** Some shown section of the page renders `part`. */
  predicate Shows(page: Page, part: Part) {
    Slot(true, part) in Frame(page)
  }
}
