/** The editing form (components/resume-form.tsx): the tag inputs for skills and languages,
    the "I currently work here" checkbox, and the three AI actions, which check for a login
    token, then for Pro, and only then open the polish dialog, the form's one route to the AI
    endpoint. `getToken()` is an input (whether it produced a token); toasts are recorded
    as the last notice shown. */
module Form {
  import opened Optional
  import opened Resume
  import opened JsStrings
  import Seqs
  import Render
  import Store

  /** `input.trim() && !list.includes(input.trim())`: the add button takes the input. */
  predicate Accepts(list: seq<string>, input: string) {
    Trim(input) != "" && Trim(input) !in list
  }

  /** The list after `handleAddSkill` (and `handleAddLanguage`): the trimmed input appended
      when it is accepted, the list unchanged otherwise. */
  function AddEntry(list: seq<string>, input: string): (r: seq<string>)
    ensures Accepts(list, input) ==> r == list + [Trim(input)]
    ensures !Accepts(list, input) ==> r == list
  {
    if Accepts(list, input) then list + [Trim(input)] else list
  }

  /** Adding never introduces a duplicate. */
  lemma AddEntryKeepsDistinct(list: seq<string>, input: string)
    requires Seqs.NoDuplicates(list)
    ensures Seqs.NoDuplicates(AddEntry(list, input))
  {
    if Accepts(list, input) {
      var r := list + [Trim(input)];
      forall i, j | 0 <= i < j < |r|
        ensures r[i] != r[j]
      {
        if j == |list| {
          assert r[i] == list[i];
        }
      }
    }
  }

  /** Adding the same text twice leaves exactly one copy of it. */
  lemma AddTwiceOneCopy(list: seq<string>, input: string)
    requires Trim(input) != "" && Trim(input) !in list
    ensures AddEntry(AddEntry(list, input), input) == list + [Trim(input)]
    ensures Seqs.Count(AddEntry(AddEntry(list, input), input), Trim(input)) == 1
  {
    var once := AddEntry(list, input);
    assert Trim(input) in once by {
      assert once[|list|] == Trim(input);
    }
    Seqs.CountAppend(list, [Trim(input)], Trim(input));
    assert Seqs.Count([Trim(input)], Trim(input)) == 1 by {
      assert [Trim(input)][1..] == [];
    }
  }

  /** `list.filter(s => s !== value)`: `handleRemoveSkill` and `handleRemoveLanguage`. */
  function RemoveEntry(list: seq<string>, value: string): (r: seq<string>)
    ensures value !in r
  {
    Seqs.Filter(list, (s: string) => s != value)
  }

  /** Removal drops every copy of the value and keeps every copy of every other value. */
  lemma RemoveEntryCount(list: seq<string>, value: string, other: string)
    ensures Seqs.Count(RemoveEntry(list, value), other) == if other == value then 0 else Seqs.Count(list, other)
  {
    Seqs.FilterCount(list, (s: string) => s != value, other);
  }

  /** The remaining entries keep their order: removal distributes over concatenation. */
  lemma RemoveEntryAppend(a: seq<string>, b: seq<string>, value: string)
    ensures RemoveEntry(a + b, value) == RemoveEntry(a, value) + RemoveEntry(b, value)
  {
    Seqs.FilterAppend(a, b, (s: string) => s != value);
  }

  /** Removing what was just added restores the list. */
  lemma AddThenRemoveEntry(list: seq<string>, input: string)
    requires Accepts(list, input)
    ensures RemoveEntry(AddEntry(list, input), Trim(input)) == list
  {
    RemoveEntryAppend(list, [Trim(input)], Trim(input));
    Seqs.FilterKeepsAll(list, (s: string) => s != Trim(input));
    assert RemoveEntry([Trim(input)], Trim(input)) == [] by {
      assert [Trim(input)][1..] == [];
    }
  }

  /** The suggested-skills merge: the skills, then the suggestions they do not already hold,
      in the returned order. */
  function MergeSuggestions(skills: seq<string>, suggested: seq<string>): (r: seq<string>)
    ensures |skills| <= |r| <= |skills| + |suggested|
    ensures r[..|skills|] == skills
  {
    skills + Seqs.Filter(suggested, (s: string) => s !in skills)
  }

  /** Every value keeps its copies from the skills if it was there, and otherwise takes
      its copies from the suggestion: repeats inside the suggestion survive. */
  lemma MergeSuggestionsCount(skills: seq<string>, suggested: seq<string>, x: string)
    ensures Seqs.Count(MergeSuggestions(skills, suggested), x)
      == if x in skills then Seqs.Count(skills, x) else Seqs.Count(suggested, x)
  {
    var added := Seqs.Filter(suggested, (s: string) => s !in skills);
    Seqs.CountAppend(skills, added, x);
    Seqs.FilterCount(suggested, (s: string) => s !in skills, x);
  }

  /** What the polish dialog hands to the suggestion callback: an array of strings, or
      anything else (a string, a falsy value). */
  datatype Refined = RefinedList(items: seq<string>) | NotAList

  /** The skills after the suggestion callback: merged only when the result is an array. */
  function SkillsAfterSuggestion(snapshot: seq<string>, current: seq<string>, refined: Refined): (r: seq<string>)
    ensures !refined.RefinedList? ==> r == current
    ensures refined.RefinedList? ==> r == MergeSuggestions(snapshot, refined.items)
  {
    if refined.RefinedList? then MergeSuggestions(snapshot, refined.items) else current
  }

  /** The checkbox's one update: `current` and `endDate` written together. */
  function CurrentPatch(checked: bool): EmploymentPatch {
    NoEmploymentChange.(current := Some(checked), endDate := Some(if checked then "Present" else ""))
  }

  /** Checking the box sets `current` and the end date "Present"; unchecking clears both, so
      the range then ends in the "End" placeholder. Nothing else of the entry changes. */
  lemma CurrentToggle(e: Employment, checked: bool)
    ensures var r := MergeEmployment(e, CurrentPatch(checked));
      && r == e.(current := checked, endDate := if checked then "Present" else "")
      && Render.EmploymentDates(r) == OrElse(e.startDate, "Start") + Render.DateSeparator
           + (if checked then "Present" else "End")
  {
  }

  function JobTitleOf(e: Employment): string {
    e.jobTitle
  }

  /** `data.employment.map(e => e.jobTitle).filter(Boolean)`. */
  function JobTitles(employment: seq<Employment>): (r: seq<string>)
    ensures forall i :: 0 <= i < |r| ==> r[i] != ""
  {
    Seqs.Filter(Seqs.Map(employment, JobTitleOf), IsNonEmpty)
  }

  /** There are no job titles exactly when every entry's title is empty. */
  lemma JobTitlesEmpty(employment: seq<Employment>)
    ensures JobTitles(employment) == [] <==> forall i :: 0 <= i < |employment| ==> employment[i].jobTitle == ""
  {
    var titles := Seqs.Map(employment, JobTitleOf);
    Seqs.MapAt(employment, JobTitleOf);
    if JobTitles(employment) == [] {
      forall i | 0 <= i < |employment|
        ensures employment[i].jobTitle == ""
      {
        assert titles[i] == employment[i].jobTitle;
      }
    } else {
      assert JobTitles(employment)[0] in titles;
    }
  }

  /** `AIPolishType`. */
  datatype PolishType = SummaryPolish | ExperiencePolish | SkillSuggestions

  /** The dialog's `context`. */
  datatype Context =
    | NoContext
    | SummaryContext(name: string, jobTitles: seq<string>, skills: seq<string>)
    | ExperienceContext(jobTitle: string, company: string)
    | SkillContext(jobTitles: seq<string>, existingSkills: seq<string>)

  /** The dialog's `onSuccess` closure, with what it captured: `MergeSkills` holds the skills
      as they were when the dialog opened. */
  datatype OnSuccess = Ignore | SetSummary | SetDescription(empId: string) | MergeSkills(snapshot: seq<string>)

  /** `polishDialogState`. */
  datatype Dialog = Dialog(isOpen: bool, kind: PolishType, context: Context, onSuccess: OnSuccess)

  const InitialDialog := Dialog(false, SummaryPolish, NoContext, Ignore)

  /** The last toast shown: "Login Required", or "Pro Feature" for one of the actions. */
  datatype Notice = NoNotice | LoginRequired | ProFeature(kind: PolishType)

  class ResumeForm {
    const store: Store.ResumeStore
    var skillInput: string
    var languageInput: string
    var dialog: Dialog
    var notice: Notice

    constructor (store: Store.ResumeStore)
      ensures this.store == store
      ensures skillInput == "" && languageInput == ""
      ensures dialog == InitialDialog && notice == NoNotice
    {
      this.store := store;
      skillInput, languageInput := "", "";
      dialog := InitialDialog;
      notice := NoNotice;
    }

    method SetSkillInput(value: string)
      modifies this`skillInput
      ensures skillInput == value
    {
      skillInput := value;
    }

    method SetLanguageInput(value: string)
      modifies this`languageInput
      ensures languageInput == value
    {
      languageInput := value;
    }

    /** `handleAddSkill`: an accepted input is appended and the input cleared; otherwise
        nothing changes. */
    method AddSkill()
      modifies this`skillInput, store`data
      ensures store.data == old(store.data).(skills := AddEntry(old(store.data.skills), old(skillInput)))
      ensures skillInput == if Accepts(old(store.data.skills), old(skillInput)) then "" else old(skillInput)
    {
      if Accepts(store.data.skills, skillInput) {
        store.UpdateSkills(AddEntry(store.data.skills, skillInput));
        skillInput := "";
      }
    }

    method RemoveSkill(skill: string)
      modifies store`data
      ensures store.data == old(store.data).(skills := RemoveEntry(old(store.data.skills), skill))
    {
      store.UpdateSkills(RemoveEntry(store.data.skills, skill));
    }

    method AddLanguage()
      modifies this`languageInput, store`data
      ensures store.data == old(store.data).(languages := AddEntry(old(store.data.languages), old(languageInput)))
      ensures languageInput == if Accepts(old(store.data.languages), old(languageInput)) then "" else old(languageInput)
    {
      if Accepts(store.data.languages, languageInput) {
        store.UpdateLanguages(AddEntry(store.data.languages, languageInput));
        languageInput := "";
      }
    }

    method RemoveLanguage(language: string)
      modifies store`data
      ensures store.data == old(store.data).(languages := RemoveEntry(old(store.data.languages), language))
    {
      store.UpdateLanguages(RemoveEntry(store.data.languages, language));
    }

    /** The checkbox of the employment entry `empId`. */
    method ToggleCurrent(empId: string, checked: bool)
      modifies store`data
      ensures store.data == old(store.data).(employment := UpdateEmployment(old(store.data.employment), empId, CurrentPatch(checked)))
    {
      store.UpdateEmployment(empId, CurrentPatch(checked));
    }

    /** The two checks every AI action makes, in order; true when both pass. */
    method CheckEntitled(hasToken: bool, kind: PolishType) returns (entitled: bool)
      modifies this`notice
      ensures entitled <==> hasToken && store.isPro
      ensures !hasToken ==> notice == LoginRequired
      ensures hasToken && !store.isPro ==> notice == ProFeature(kind)
      ensures entitled ==> notice == old(notice)
    {
      if !hasToken {
        notice := LoginRequired;
        return false;
      }
      if !store.isPro {
        notice := ProFeature(kind);
        return false;
      }
      return true;
    }

    /** `handleGenerateSummary`. */
    method GenerateSummary(hasToken: bool)
      modifies this`notice, this`dialog
      ensures hasToken && store.isPro ==> dialog == Dialog(true, SummaryPolish,
        SummaryContext(store.data.personalDetails.fullName, JobTitles(store.data.employment), store.data.skills), SetSummary)
      ensures hasToken && store.isPro ==> notice == old(notice)
      ensures !(hasToken && store.isPro) ==> dialog == old(dialog)
      ensures !hasToken ==> notice == LoginRequired
      ensures hasToken && !store.isPro ==> notice == ProFeature(SummaryPolish)
    {
      var entitled := CheckEntitled(hasToken, SummaryPolish);
      if !entitled {
        return;
      }
      var context := SummaryContext(store.data.personalDetails.fullName, JobTitles(store.data.employment), store.data.skills);
      dialog := Dialog(true, SummaryPolish, context, SetSummary);
    }

    /** `handleGenerateJobDescription`: an empty job title returns before anything else. */
    method GenerateJobDescription(empId: string, jobTitle: string, company: string, hasToken: bool)
      modifies this`notice, this`dialog
      ensures jobTitle == "" ==> dialog == old(dialog) && notice == old(notice)
      ensures jobTitle != "" && hasToken && store.isPro
        ==> dialog == Dialog(true, ExperiencePolish, ExperienceContext(jobTitle, company), SetDescription(empId))
      ensures jobTitle != "" && hasToken && store.isPro ==> notice == old(notice)
      ensures !(jobTitle != "" && hasToken && store.isPro) ==> dialog == old(dialog)
      ensures jobTitle != "" && !hasToken ==> notice == LoginRequired
      ensures jobTitle != "" && hasToken && !store.isPro ==> notice == ProFeature(ExperiencePolish)
    {
      if jobTitle == "" {
        return;
      }
      var entitled := CheckEntitled(hasToken, ExperiencePolish);
      if !entitled {
        return;
      }
      dialog := Dialog(true, ExperiencePolish, ExperienceContext(jobTitle, company), SetDescription(empId));
    }

    /** `handleSuggestSkills`: nothing happens while no entry has a job title. */
    method SuggestSkills(hasToken: bool)
      modifies this`notice, this`dialog
      ensures JobTitles(store.data.employment) == [] ==> dialog == old(dialog) && notice == old(notice)
      ensures JobTitles(store.data.employment) != [] && hasToken && store.isPro
        ==> dialog == Dialog(true, SkillSuggestions,
              SkillContext(JobTitles(store.data.employment), store.data.skills), MergeSkills(store.data.skills))
      ensures JobTitles(store.data.employment) != [] && hasToken && store.isPro ==> notice == old(notice)
      ensures !(JobTitles(store.data.employment) != [] && hasToken && store.isPro) ==> dialog == old(dialog)
      ensures JobTitles(store.data.employment) != [] && !hasToken ==> notice == LoginRequired
      ensures JobTitles(store.data.employment) != [] && hasToken && !store.isPro ==> notice == ProFeature(SkillSuggestions)
    {
      var jobTitles := JobTitles(store.data.employment);
      if |jobTitles| == 0 {
        return;
      }
      var entitled := CheckEntitled(hasToken, SkillSuggestions);
      if !entitled {
        return;
      }
      dialog := Dialog(true, SkillSuggestions, SkillContext(jobTitles, store.data.skills), MergeSkills(store.data.skills));
    }

    /** `onOpenChange`: only the open flag changes. */
    method SetDialogOpen(open: bool)
      modifies this`dialog
      ensures dialog == old(dialog).(isOpen := open)
    {
      dialog := dialog.(isOpen := open);
    }

    /** The dialog's `onSuccess` with a polished text; the suggestion callback ignores a
        text, which is not an array. */
    method AcceptText(text: string)
      modifies store`data
      ensures dialog.onSuccess.SetSummary? ==> store.data == old(store.data).(summary := text)
      ensures dialog.onSuccess.SetDescription? ==> store.data == old(store.data).(employment :=
        UpdateEmployment(old(store.data.employment), dialog.onSuccess.empId, NoEmploymentChange.(description := Some(text))))
      ensures !dialog.onSuccess.SetSummary? && !dialog.onSuccess.SetDescription? ==> store.data == old(store.data)
    {
      match dialog.onSuccess {
        case SetSummary =>
          store.UpdateSummary(text);
        case SetDescription(empId) =>
          store.UpdateEmployment(empId, NoEmploymentChange.(description := Some(text)));
        case _ =>
      }
    }

    /** The dialog's `onSuccess` with the suggested skills (or a falsy value): merged into
        the skills captured when the dialog opened. */
    method AcceptSuggestions(refined: Refined)
      requires dialog.onSuccess.MergeSkills? || dialog.onSuccess.Ignore?
      modifies store`data
      ensures dialog.onSuccess.MergeSkills? ==> store.data == old(store.data).(skills :=
        SkillsAfterSuggestion(dialog.onSuccess.snapshot, old(store.data.skills), refined))
      ensures dialog.onSuccess.Ignore? ==> store.data == old(store.data)
    {
      if dialog.onSuccess.MergeSkills? && refined.RefinedList? {
        store.UpdateSkills(MergeSuggestions(dialog.onSuccess.snapshot, refined.items));
      }
    }
  }
}
