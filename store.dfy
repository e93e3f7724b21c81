/** The resume store (`ResumeProvider`, lib/resume-context.tsx): the session's one document,
    the two entitlement flags, the selected template and the `isLoaded` latch, with the
    operations that reassign them. Writes to localStorage and React's effect scheduling are
    not modelled; the mount-time restore and the premium check are separate transitions. */
module Store {
  import opened Optional
  import opened Resume
  import JsStrings

  /** What the mount effect found under "resumeData": nothing (null or ""), text that
      `JSON.parse` rejects, or a parsed document. */
  datatype SavedDocument = NotSaved | Unparsable | Parsed(doc: ResumeData)

  /** The document after restore: a parse failure keeps the one already there. */
  function RestoredData(current: ResumeData, saved: SavedDocument): (r: ResumeData)
    ensures saved.Parsed? ==> r == saved.doc
    ensures !saved.Parsed? ==> r == current
  {
    if saved.Parsed? then saved.doc else current
  }

  /** `if (stored) setFlag(stored === "true")`: a missing or empty entry keeps the flag. */
  function RestoredFlag(current: bool, stored: Option<string>): (r: bool)
    ensures (stored == None || stored == Some("")) ==> r == current
    ensures stored.Some? && stored.value != "" ==> (r <==> stored.value == "true")
  {
    if stored.Some? && stored.value != "" then stored.value == "true" else current
  }

  /** The stored template is taken only when it is one of the four names. */
  function RestoredTemplate(current: Template, stored: Option<string>): (r: Template)
    ensures r != current ==> stored.Some? && TemplateName(r) == stored.value
    ensures stored.Some? && ParseTemplate(stored.value).Some? ==> r == ParseTemplate(stored.value).value
    ensures stored.Some? && stored.value !in {"classic", "modern", "minimal", "bold"} ==> r == current
  {
    if stored.Some? && stored.value != "" && ParseTemplate(stored.value).Some?
    then ParseTemplate(stored.value).value
    else current
  }

  /** How the awaited part of `checkPremium` ended: `getToken()` gave no token, `/me`
      answered, or something threw with the given `message`. */
  datatype PremiumReply = NoToken | Profile(isPro: bool, hasPurchasedTemplates: bool) | Failed(message: Option<string>)

  datatype Flags = Flags(isPro: bool, hasPurchasedTemplates: bool)

  /** The error counts as "signed out" when its message mentions Unauthorized or 401. */
  predicate IsAuthFailure(message: Option<string>) {
    message.Some? && (JsStrings.Includes(message.value, "Unauthorized") || JsStrings.Includes(message.value, "401"))
  }

  /** The flags after `checkPremium`. */
  function PremiumCheck(flags: Flags, clerkLoaded: bool, signedIn: bool, reply: PremiumReply): (r: Flags)
    ensures !(clerkLoaded && signedIn) ==> r == Flags(false, false)
    ensures clerkLoaded && signedIn && reply.Profile? ==> r == Flags(reply.isPro, reply.hasPurchasedTemplates)
    ensures clerkLoaded && signedIn && reply.Failed? && IsAuthFailure(reply.message) ==> r == Flags(false, false)
    ensures clerkLoaded && signedIn && (reply.NoToken? || (reply.Failed? && !IsAuthFailure(reply.message))) ==> r == flags
  {
    if !clerkLoaded || !signedIn then Flags(false, false)
    else match reply
      case NoToken => flags
      case Profile(pro, templates) => Flags(pro, templates)
      case Failed(message) => if IsAuthFailure(message) then Flags(false, false) else flags
  }

  /** The check never turns a flag on that the server did not report as on. */
  lemma PremiumCheckNeverGrantsUnconfirmed(flags: Flags, clerkLoaded: bool, signedIn: bool, reply: PremiumReply)
    ensures PremiumCheck(flags, clerkLoaded, signedIn, reply).isPro && !flags.isPro ==> reply.Profile? && reply.isPro
    ensures PremiumCheck(flags, clerkLoaded, signedIn, reply).hasPurchasedTemplates && !flags.hasPurchasedTemplates
      ==> reply.Profile? && reply.hasPurchasedTemplates
  {
  }

  class ResumeStore {
    var data: ResumeData
    var isPro: bool
    var hasPurchasedTemplates: bool
    var template: Template
    var isLoaded: bool

    /** The provider's initial state. */
    constructor ()
      ensures data == DefaultData()
      ensures !isPro && !hasPurchasedTemplates && template == Classic && !isLoaded
    {
      data := DefaultData();
      isPro, hasPurchasedTemplates := false, false;
      template := Classic;
      isLoaded := false;
    }

    /** The mount effect: restore what localStorage holds, then set `isLoaded`. */
    method Restore(saved: SavedDocument, savedPro: Option<string>, savedTemplates: Option<string>, savedTemplate: Option<string>)
      modifies this
      ensures data == RestoredData(old(data), saved)
      ensures isPro == RestoredFlag(old(isPro), savedPro)
      ensures hasPurchasedTemplates == RestoredFlag(old(hasPurchasedTemplates), savedTemplates)
      ensures template == RestoredTemplate(old(template), savedTemplate)
      ensures isLoaded
    {
      if saved.Parsed? {
        data := saved.doc;
      }
      if savedPro.Some? && savedPro.value != "" {
        isPro := savedPro.value == "true";
      }
      if savedTemplates.Some? && savedTemplates.value != "" {
        hasPurchasedTemplates := savedTemplates.value == "true";
      }
      if savedTemplate.Some? && savedTemplate.value != "" {
        var parsed := ParseTemplate(savedTemplate.value);
        if parsed.Some? {
          template := parsed.value;
        }
      }
      isLoaded := true;
    }

    /** `checkPremium`, with the Clerk state and the awaited outcome as inputs. */
    method CheckPremium(clerkLoaded: bool, signedIn: bool, reply: PremiumReply)
      modifies this`isPro, this`hasPurchasedTemplates
      ensures Flags(isPro, hasPurchasedTemplates)
        == PremiumCheck(Flags(old(isPro), old(hasPurchasedTemplates)), clerkLoaded, signedIn, reply)
    {
      if !clerkLoaded || !signedIn {
        isPro := false;
        hasPurchasedTemplates := false;
        return;
      }
      match reply {
        case NoToken =>
          return;
        case Profile(pro, templates) =>
          isPro := pro;
          hasPurchasedTemplates := templates;
        case Failed(message) =>
          if IsAuthFailure(message) {
            isPro := false;
            hasPurchasedTemplates := false;
            return;
          }
      }
    }

    method SetIsPro(value: bool)
      modifies this`isPro
      ensures isPro == value
    {
      isPro := value;
    }

    method SetHasPurchasedTemplates(value: bool)
      modifies this`hasPurchasedTemplates
      ensures hasPurchasedTemplates == value
    {
      hasPurchasedTemplates := value;
    }

    method SetTemplate(t: Template)
      modifies this`template
      ensures template == t
    {
      template := t;
    }

    method UpdatePersonalDetails(patch: PersonalPatch)
      modifies this`data
      ensures data == old(data).(personalDetails := MergePersonal(old(data).personalDetails, patch))
    {
      data := data.(personalDetails := MergePersonal(data.personalDetails, patch));
    }

    method UpdateSummary(summary: string)
      modifies this`data
      ensures data == old(data).(summary := summary)
    {
      data := data.(summary := summary);
    }

    /** `addEmployment`, with the caller supplying the fresh id `crypto.randomUUID()` gives. */
    method AddEmployment(newId: string)
      requires FreshEmploymentId(data.employment, newId)
      modifies this`data
      ensures data == old(data).(employment := Resume.AddEmployment(old(data).employment, newId))
    {
      data := data.(employment := Resume.AddEmployment(data.employment, newId));
    }

    method UpdateEmployment(id: string, patch: EmploymentPatch)
      modifies this`data
      ensures data == old(data).(employment := Resume.UpdateEmployment(old(data).employment, id, patch))
    {
      data := data.(employment := Resume.UpdateEmployment(data.employment, id, patch));
    }

    method RemoveEmployment(id: string)
      modifies this`data
      ensures data == old(data).(employment := Resume.RemoveEmployment(old(data).employment, id))
    {
      data := data.(employment := Resume.RemoveEmployment(data.employment, id));
    }

    method AddEducation(newId: string)
      requires FreshEducationId(data.education, newId)
      modifies this`data
      ensures data == old(data).(education := Resume.AddEducation(old(data).education, newId))
    {
      data := data.(education := Resume.AddEducation(data.education, newId));
    }

    method UpdateEducation(id: string, patch: EducationPatch)
      modifies this`data
      ensures data == old(data).(education := Resume.UpdateEducation(old(data).education, id, patch))
    {
      data := data.(education := Resume.UpdateEducation(data.education, id, patch));
    }

    method RemoveEducation(id: string)
      modifies this`data
      ensures data == old(data).(education := Resume.RemoveEducation(old(data).education, id))
    {
      data := data.(education := Resume.RemoveEducation(data.education, id));
    }

    /** Wholesale replacement; the store does not deduplicate. */
    method UpdateSkills(skills: seq<string>)
      modifies this`data
      ensures data == old(data).(skills := skills)
    {
      data := data.(skills := skills);
    }

    method UpdateLanguages(languages: seq<string>)
      modifies this`data
      ensures data == old(data).(languages := languages)
    {
      data := data.(languages := languages);
    }
  }

  /** Adding an employment entry and removing it by its fresh id leaves the store's
      document as it was. */
  method AddThenRemoveRestores(store: ResumeStore, newId: string)
    requires FreshEmploymentId(store.data.employment, newId)
    modifies store
    ensures store.data == old(store.data)
  {
    store.AddEmployment(newId);
    store.RemoveEmployment(newId);
    AddThenRemoveEmployment(old(store.data.employment), newId);
  }
}
