/** `GET /api/admin/users` (app/api/admin/users/route.ts): the admin allow-list, the admin
    check and the per-user record the route answers with. The Clerk calls (`auth`,
    `currentUser`, `getUserList`) are foreign: their outcomes are parameters. */
module AdminRoute {
  import opened Optional
  import opened JsStrings
  import Seqs

  /** `(process.env.ADMIN_EMAILS || "").split(",").map(e => e.trim())`. */
  function AdminEmails(env: Option<string>): (r: seq<string>)
    ensures |r| == Commas(env.GetOr("")) + 1
    ensures forall i :: 0 <= i < |r| ==> IsTrimmed(r[i])
  {
    Seqs.Map(Split(env.GetOr("")), Trim)
  }

  /** With the variable unset or empty the allow-list is the single empty string. */
  lemma AdminEmailsUnset(env: Option<string>)
    requires env == None || env == Some("")
    ensures AdminEmails(env) == [""]
  {
    assert Split("") == [""];
    assert Trim("") == "";
  }

  /** Addresses listed between commas, with or without spaces around them, are the list. */
  lemma AdminEmailsListed(emails: seq<string>)
    requires |emails| >= 1
    requires forall i :: 0 <= i < |emails| ==> ',' !in emails[i]
    ensures AdminEmails(Some(Join(emails, ","))) == Seqs.Map(emails, Trim)
  {
    SplitJoin(emails);
  }

  /** A trailing comma leaves an empty entry in the list. */
  lemma AdminEmailsTrailingComma(s: string)
    ensures "" in AdminEmails(Some(s + ","))
  {
    SplitTrailingComma(s);
    var pieces := Split(s + ",");
    assert Trim(pieces[|pieces| - 1]) == "";
    assert AdminEmails(Some(s + ","))[|pieces| - 1] == "";
  }

  /** A value of the user's `publicMetadata`, as JavaScript sees it. Numbers are integers. */
  datatype Json = Undefined | Null | Bool(b: bool) | Number(n: int) | Str(s: string) | Object

  /** JavaScript truthiness. */
  predicate Truthy(v: Json) {
    match v
    case Undefined => false
    case Null => false
    case Bool(b) => b
    case Number(n) => n != 0
    case Str(s) => s != ""
    case Object => true
  }

  /** The fields of a Clerk user the route reads; `emailAddresses` holds the addresses in
      order and `publicMetadata` may be absent. */
  datatype ClerkUser = ClerkUser(
    id: string,
    emailAddresses: seq<string>,
    firstName: Option<string>,
    lastName: Option<string>,
    createdAt: int,
    publicMetadata: Option<map<string, Json>>)

  /** `u.publicMetadata?.[key]`. */
  function Meta(u: ClerkUser, key: string): Json {
    if u.publicMetadata.Some? && key in u.publicMetadata.value then u.publicMetadata.value[key] else Undefined
  }

  /** `u.emailAddresses[0]?.emailAddress`. */
  function FirstEmail(u: ClerkUser): Option<string> {
    if |u.emailAddresses| > 0 then Some(u.emailAddresses[0]) else None
  }

  /** One entry of the route's answer; the admin page's `User`. */
  datatype UserRecord = UserRecord(
    id: string,
    email: string,
    firstName: Option<string>,
    lastName: Option<string>,
    createdAt: int,
    isPro: bool,
    hasPurchasedTemplates: bool,
    stripeSubscriptionId: Option<Json>)

  /** The record the route builds for one Clerk user. */
  function ToUserRecord(u: ClerkUser): (r: UserRecord)
    ensures r.id == u.id && r.firstName == u.firstName && r.lastName == u.lastName && r.createdAt == u.createdAt
    ensures r.email == "No email" <==> FirstEmail(u).GetOr("") == "" || FirstEmail(u) == Some("No email")
    ensures r.email != "No email" ==> Some(r.email) == FirstEmail(u)
    ensures r.isPro <==> Meta(u, "isPro") == Bool(true)
    ensures r.hasPurchasedTemplates <==> Meta(u, "hasPurchasedTemplates") == Bool(true)
    ensures r.stripeSubscriptionId.None? <==> !Truthy(Meta(u, "stripeSubscriptionId"))
    ensures r.stripeSubscriptionId.Some? ==> r.stripeSubscriptionId.value == Meta(u, "stripeSubscriptionId")
  {
    UserRecord(
      u.id,
      OrElse(FirstEmail(u).GetOr(""), "No email"),
      u.firstName,
      u.lastName,
      u.createdAt,
      Meta(u, "isPro") == Bool(true),
      Meta(u, "hasPurchasedTemplates") == Bool(true),
      if Truthy(Meta(u, "stripeSubscriptionId")) then Some(Meta(u, "stripeSubscriptionId")) else None)
  }

  /** The flags are granted only by the boolean `true`: a truthy string or number is not
      enough. */
  lemma FlagsNeedLiteralTrue(u: ClerkUser)
    requires Meta(u, "isPro") == Str("true") || Meta(u, "isPro") == Number(1)
    ensures !ToUserRecord(u).isPro
  {
  }

  /** The admin check: the first address, or "" when there is none, is in the list. */
  predicate IsAdmin(adminEmails: seq<string>, u: ClerkUser) {
    FirstEmail(u).GetOr("") in adminEmails
  }

  /** With `ADMIN_EMAILS` unset, exactly the users without an email address (or whose first
      one is empty) pass the admin check. */
  lemma UnsetListAdmitsEmailless(u: ClerkUser)
    ensures IsAdmin(AdminEmails(None), u) <==> FirstEmail(u).GetOr("") == ""
  {
    AdminEmailsUnset(None);
  }

  /** Only the first address counts: a user whose second address is listed but whose first
      is not is refused. */
  lemma AdminByFirstAddressOnly(env: Option<string>, u: ClerkUser)
    requires |u.emailAddresses| >= 2
    requires u.emailAddresses[0] !in AdminEmails(env)
    requires u.emailAddresses[1] in AdminEmails(env)
    ensures !IsAdmin(AdminEmails(env), u)
  {
  }

  /** What `auth()` and `currentUser()` produced: a user id (falsy when "" or absent) and a
      user, or a thrown error. */
  datatype Session = Session(userId: Option<string>, user: Option<ClerkUser>) | SessionError

  predicate SignedIn(s: Session) {
    s.Session? && s.userId.GetOr("") != "" && s.user.Some?
  }

  /** What `clerk.users.getUserList` produced. */
  datatype Fetch = Fetched(users: seq<ClerkUser>) | FetchError

  datatype Response = Status(code: int, body: string) | UsersJson(users: seq<UserRecord>)

  /** The `GET` handler. */
  function ListUsers(env: Option<string>, session: Session, fetch: Fetch): (r: Response)
    ensures r.Status? && r.code == 401 <==> session.Session? && !SignedIn(session)
    ensures r.Status? && r.code == 403 <==> SignedIn(session) && !IsAdmin(AdminEmails(env), session.user.value)
    ensures r.UsersJson? <==> SignedIn(session) && IsAdmin(AdminEmails(env), session.user.value) && fetch.Fetched?
    ensures r.Status? ==> r.code in {401, 403, 500}
    ensures r.UsersJson? ==> |r.users| == |fetch.users|
    ensures r.UsersJson? ==> forall i :: 0 <= i < |r.users| ==> r.users[i] == ToUserRecord(fetch.users[i])
  {
    match session
    case SessionError => Status(500, "Internal Error")
    case Session(userId, user) =>
      if userId.GetOr("") == "" || user.None? then Status(401, "Unauthorized")
      else if !IsAdmin(AdminEmails(env), user.value) then Status(403, "Forbidden")
      else
        match fetch
        case FetchError => Status(500, "Internal Error")
        case Fetched(users) => UsersJson(Seqs.Map(users, ToUserRecord))
  }
}
