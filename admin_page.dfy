/** The admin panel (app/admin/page.tsx): the list of users the route returned, the two
    plan switches of each row, and how a row shows its name and id. `getToken()` and the
    `api.patch` call are foreign: whether a token came back and what the patch call
    produced are inputs. */
module AdminPage {
  import opened Optional
  import opened JsStrings
  import Seqs
  import opened AdminRoute

  /** The switch a toggle comes from: "isPro" or "hasPurchasedTemplates". */
  datatype Field = IsProField | TemplatesField

  function Flag(u: UserRecord, field: Field): bool {
    match field
    case IsProField => u.isPro
    case TemplatesField => u.hasPurchasedTemplates
  }

  function Other(field: Field): Field {
    match field
    case IsProField => TemplatesField
    case TemplatesField => IsProField
  }

  /** The body of the patch request. */
  datatype Payload = Payload(isPro: bool, hasPurchasedTemplates: bool)

  /** The payload of `handleToggle`: the named field is the negated `currentValue`, the other
      one is copied from the stored record. */
  function TogglePayload(u: UserRecord, field: Field, currentValue: bool): (r: Payload)
    ensures Flag(Apply(u, r), field) == !currentValue
    ensures Flag(Apply(u, r), Other(field)) == Flag(u, Other(field))
  {
    Payload(
      if field == IsProField then !currentValue else u.isPro,
      if field == TemplatesField then !currentValue else u.hasPurchasedTemplates)
  }

  /** The record once the payload's flags are written into it. */
  function Apply(u: UserRecord, p: Payload): (r: UserRecord)
    ensures r.isPro == p.isPro && r.hasPurchasedTemplates == p.hasPurchasedTemplates
    ensures r.(isPro := u.isPro, hasPurchasedTemplates := u.hasPurchasedTemplates) == u
  {
    u.(isPro := p.isPro, hasPurchasedTemplates := p.hasPurchasedTemplates)
  }

  /** A switch passes its record's own flag as `currentValue`; applying that payload flips the
      switch's flag and leaves the rest of the record as it was. */
  lemma TogglePayloadFlipsOne(u: UserRecord, field: Field)
    ensures var v := Apply(u, TogglePayload(u, field, Flag(u, field)));
      && Flag(v, field) == !Flag(u, field)
      && Flag(v, Other(field)) == Flag(u, Other(field))
      && v.id == u.id && v.email == u.email && v.firstName == u.firstName && v.lastName == u.lastName
      && v.createdAt == u.createdAt && v.stripeSubscriptionId == u.stripeSubscriptionId
  {
  }

  /** Toggling the same switch twice restores the record. */
  lemma TogglePayloadTwice(u: UserRecord, field: Field)
    ensures var v := Apply(u, TogglePayload(u, field, Flag(u, field)));
      Apply(v, TogglePayload(v, field, Flag(v, field))) == u
  {
  }

  /** `users.find(u => u.id === userId)`: the first record with that id. */
  function FindUser(users: seq<UserRecord>, id: string): (r: Option<UserRecord>)
    ensures r.None? <==> forall i :: 0 <= i < |users| ==> users[i].id != id
    ensures r.Some? ==> r.value.id == id
    ensures r.Some? ==> exists i :: 0 <= i < |users| && users[i] == r.value && (forall j :: 0 <= j < i ==> users[j].id != id)
  {
    if users == [] then None
    else if users[0].id == id then Some(users[0])
    else
      var rest := FindUser(users[1..], id);
      if rest.Some? then
        var i :| 0 <= i < |users[1..]| && users[1..][i] == rest.value && (forall j :: 0 <= j < i ==> users[1..][j].id != id);
        assert users[i + 1] == rest.value;
        rest
      else rest
  }

  function ReplaceIfMatching(id: string, updated: UserRecord): UserRecord -> UserRecord {
    (u: UserRecord) => if u.id == id then updated else u
  }

  /** `prevUsers.map(u => u.id === userId ? updatedUser : u)`. */
  function ReplaceUser(users: seq<UserRecord>, id: string, updated: UserRecord): (r: seq<UserRecord>)
    ensures |r| == |users|
    ensures forall i :: 0 <= i < |users| && users[i].id != id ==> r[i] == users[i]
    ensures forall i :: 0 <= i < |users| && users[i].id == id ==> r[i] == updated
  {
    Seqs.Map(users, ReplaceIfMatching(id, updated))
  }

  /** An id that is not in the list leaves the list as it is. */
  lemma ReplaceUnknownUser(users: seq<UserRecord>, id: string, updated: UserRecord)
    requires FindUser(users, id).None?
    ensures ReplaceUser(users, id, updated) == users
  {
  }

  /** After a replacement, looking the id up finds the new record exactly when the id was
      there before. */
  lemma ReplaceUserFinds(users: seq<UserRecord>, id: string, updated: UserRecord)
    requires updated.id == id
    ensures FindUser(ReplaceUser(users, id, updated), id) == if FindUser(users, id).Some? then Some(updated) else None
  {
    var r := ReplaceUser(users, id, updated);
    var found := FindUser(r, id);
    if found.Some? {
      var i :| 0 <= i < |r| && r[i] == found.value && (forall j :: 0 <= j < i ==> r[j].id != id);
      assert users[i].id == id;
    }
  }

  /** What the patch call produced: the updated record, or an exception. */
  datatype PatchReply = Returned(user: UserRecord) | Threw

  /** The last toast the panel showed. */
  datatype Toast = NoToast | Updated(field: Field) | UpdateFailed

  /** What one toggle does to the list: nothing (no token, or no such id: no request is
      made), a failure, or the replacement of the matching records. */
  datatype ToggleEffect = NoRequest | Failed | Replaced(user: UserRecord)

  function ToggleEffectOf(users: seq<UserRecord>, userId: string, field: Field, currentValue: bool,
                          hasToken: bool, patch: Payload -> PatchReply): (r: ToggleEffect)
    ensures r.NoRequest? <==> !hasToken || FindUser(users, userId).None?
    ensures r.Replaced? ==> Returned(r.user) == patch(TogglePayload(FindUser(users, userId).value, field, currentValue))
    ensures hasToken && FindUser(users, userId).Some? ==>
      var reply := patch(TogglePayload(FindUser(users, userId).value, field, currentValue));
      && (reply.Returned? <==> r.Replaced?)
      && (reply.Threw? <==> r.Failed?)
  {
    if !hasToken then NoRequest
    else
      match FindUser(users, userId)
      case None => NoRequest
      case Some(u) =>
        match patch(TogglePayload(u, field, currentValue))
        case Returned(updated) => Replaced(updated)
        case Threw => Failed
  }

  /** The list after a toggle with that effect. */
  function UsersAfter(users: seq<UserRecord>, userId: string, effect: ToggleEffect): seq<UserRecord> {
    if effect.Replaced? then ReplaceUser(users, userId, effect.user) else users
  }

  /** `api` has `get` and `post` only, so `api.patch(...)` is a call of `undefined`: it throws
      before any request is sent, whatever the payload. */
  function PatchAsWritten(p: Payload): (r: PatchReply)
    ensures r.Threw?
  {
    Threw
  }

  /** As written, a toggle never changes the list: every attempt that gets past the token and
      the lookup ends in the failure toast. */
  lemma ToggleAsWrittenChangesNothing(users: seq<UserRecord>, userId: string, field: Field, currentValue: bool, hasToken: bool)
    ensures UsersAfter(users, userId, ToggleEffectOf(users, userId, field, currentValue, hasToken, PatchAsWritten)) == users
    ensures hasToken && FindUser(users, userId).Some?
      ==> ToggleEffectOf(users, userId, field, currentValue, hasToken, PatchAsWritten) == Failed
  {
  }

  /** The intended patch call: the server writes the payload's flags into the record and
      answers with it. */
  function PatchIntended(u: UserRecord): (patch: Payload -> PatchReply)
    ensures forall p :: patch(p) == Returned(Apply(u, p))
  {
    p => Returned(Apply(u, p))
  }

  /** With the intended patch call a toggle flips the switched flag of the matching record,
      keeps its other flag and every other field, and leaves the other records in place. */
  lemma ToggleIntendedFlips(users: seq<UserRecord>, userId: string, field: Field)
    requires FindUser(users, userId).Some?
    ensures var u := FindUser(users, userId).value;
      var after := UsersAfter(users, userId, ToggleEffectOf(users, userId, field, Flag(u, field), true, PatchIntended(u)));
      && |after| == |users|
      && (forall i :: 0 <= i < |users| && users[i].id != userId ==> after[i] == users[i])
      && (forall i :: 0 <= i < |users| && users[i].id == userId ==> after[i] == Apply(u, TogglePayload(u, field, Flag(u, field))))
      && FindUser(after, userId) == Some(Apply(u, TogglePayload(u, field, Flag(u, field))))
  {
    var u := FindUser(users, userId).value;
    var v := Apply(u, TogglePayload(u, field, Flag(u, field)));
    TogglePayloadFlipsOne(u, field);
    ReplaceUserFinds(users, userId, v);
  }

  /** The row's name: the trimmed "first last", a missing part read as "", or "No name" when
      both parts are null or empty. */
  function DisplayName(u: UserRecord): (r: string)
    ensures r == "No name" || IsTrimmed(r)
    ensures u.firstName.GetOr("") == "" && u.lastName.GetOr("") == "" ==> r == "No name"
  {
    var first := u.firstName.GetOr("");
    var last := u.lastName.GetOr("");
    if first != "" || last != "" then Trim(first + " " + last) else "No name"
  }

  /** Both parts present and trimmed: "first last". */
  lemma DisplayNameBoth(u: UserRecord, first: string, last: string)
    requires u.firstName == Some(first) && u.lastName == Some(last)
    requires first != "" && last != "" && IsTrimmed(first) && IsTrimmed(last)
    ensures DisplayName(u) == first + " " + last
  {
    var core := first + " " + last;
    assert core[0] == first[0] && core[|core| - 1] == last[|last| - 1];
    TrimOfTrimmed(core);
  }

  /** Only the first name: the trailing space is trimmed away. */
  lemma DisplayNameFirstOnly(u: UserRecord, first: string)
    requires u.firstName == Some(first) && u.lastName.GetOr("") == ""
    requires first != "" && IsTrimmed(first)
    ensures DisplayName(u) == first
  {
    TrimPadded("", first, " ");
    assert "" + first + " " == first + " " + "";
  }

  /** Only the last name: the leading space is trimmed away. */
  lemma DisplayNameLastOnly(u: UserRecord, last: string)
    requires u.firstName.GetOr("") == "" && u.lastName == Some(last)
    requires last != "" && IsTrimmed(last)
    ensures DisplayName(u) == last
  {
    TrimPadded(" ", last, "");
    assert " " + last + "" == "" + " " + last;
  }

  /** A name made only of whitespace passes the "is there a name" test but trims to the
      empty string, so the row shows nothing rather than "No name". */
  lemma DisplayNameBlank(u: UserRecord, first: string)
    requires u.firstName == Some(first) && u.lastName.GetOr("") == ""
    requires first != "" && AllWhitespace(first)
    ensures DisplayName(u) == ""
  {
    var s := first + " " + "";
    assert AllWhitespace(s) by {
      forall k | 0 <= k < |s|
        ensures IsWhitespace(s[k])
      {
        if k < |first| {
          assert s[k] == first[k];
        }
      }
    }
    TrimEmptyIff(s);
  }

  /** `u.id.slice(0, 12) + "..."`. */
  function ShortId(id: string): (r: string)
    ensures |r| == (if |id| < 12 then |id| else 12) + 3
    ensures IsPrefix(r[..|r| - 3], id) && r[|r| - 3..] == "..."
  {
    (if |id| <= 12 then id else id[..12]) + "..."
  }

  /** Two ids that agree in their first twelve characters are shown alike. */
  lemma ShortIdCollides(a: string, b: string)
    requires |a| >= 12 && |b| >= 12 && a[..12] == b[..12]
    ensures ShortId(a) == ShortId(b)
  {
  }

  /** The panel's state: the loaded users, whether a load is running, the row whose switches
      are disabled while its toggle runs, and the last toast. */
  class AdminPanel {
    var users: seq<UserRecord>
    var isLoading: bool
    var updatingUserId: Option<string>
    var toast: Toast

    constructor ()
      ensures users == [] && isLoading && updatingUserId == None && toast == NoToast
    {
      users := [];
      isLoading := true;
      updatingUserId := None;
      toast := NoToast;
    }

    /** A successful `fetchUsers`: the route's list replaces the panel's. */
    method Loaded(fetched: seq<UserRecord>)
      modifies this`users, this`isLoading
      ensures users == fetched && !isLoading
    {
      users := fetched;
      isLoading := false;
    }

    /** Whether the switches of the row for `id` are disabled. */
    predicate Disabled(id: string)
      reads this
    {
      updatingUserId == Some(id)
    }

    /** The first step of `handleToggle`: the row's switches are disabled. */
    method BeginToggle(userId: string)
      modifies this`updatingUserId
      ensures updatingUserId == Some(userId)
      ensures Disabled(userId)
    {
      updatingUserId := Some(userId);
    }

    /** The rest of `handleToggle`, through its `finally`: the token and lookup checks, the
        payload, the patch call, the list update and the toast; the row is enabled again on
        every path. */
    method CompleteToggle(userId: string, field: Field, currentValue: bool, hasToken: bool, patch: Payload -> PatchReply)
      modifies this`users, this`updatingUserId, this`toast
      ensures var effect := ToggleEffectOf(old(users), userId, field, currentValue, hasToken, patch);
        && users == UsersAfter(old(users), userId, effect)
        && toast == (match effect
                     case NoRequest => old(toast)
                     case Failed => UpdateFailed
                     case Replaced(_) => Updated(field))
      ensures updatingUserId == None
    {
      if !hasToken {
        updatingUserId := None;
        return;
      }
      var found := FindUser(users, userId);
      if found.None? {
        updatingUserId := None;
        return;
      }
      var payload := TogglePayload(found.value, field, currentValue);
      var reply := patch(payload);
      match reply {
        case Returned(updated) =>
          users := ReplaceUser(users, userId, updated);
          toast := Updated(field);
        case Threw =>
          toast := UpdateFailed;
      }
      updatingUserId := None;
    }

    /** A whole toggle. */
    method Toggle(userId: string, field: Field, currentValue: bool, hasToken: bool, patch: Payload -> PatchReply)
      modifies this`users, this`updatingUserId, this`toast
      ensures var effect := ToggleEffectOf(old(users), userId, field, currentValue, hasToken, patch);
        && users == UsersAfter(old(users), userId, effect)
        && toast == (match effect
                     case NoRequest => old(toast)
                     case Failed => UpdateFailed
                     case Replaced(_) => Updated(field))
      ensures updatingUserId == None
    {
      BeginToggle(userId);
      CompleteToggle(userId, field, currentValue, hasToken, patch);
    }
  }
}
