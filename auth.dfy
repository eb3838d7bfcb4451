/** Profile field inference of src/lib/auth.ts: the display name and Google
    subject chosen from a signed-in user, and the profile row written for
    that user. The database upsert and the session lookup are parameters. */
module Auth {
  import opened Wrappers
  import opened Text
  import opened Json

  /** A linked sign-in identity. */
  datatype Identity = Identity(provider: string, identity_id: string)

  /** The parts of the Supabase user the code reads; `user_metadata` and
      `identities` may be missing. */
  datatype User = User(
    id: string,
    email: Option<string>,
    user_metadata: Option<map<string, Json>>,
    identities: Option<seq<Identity>>)

  /** `user.user_metadata ?? {}`. */
  function Metadata(user: User): map<string, Json> {
    user.user_metadata.GetOr(map[])
  }

  /** `typeof md[key] === "string" && md[key]`: the value when it is a
      non-empty string. */
  function NonEmptyString(md: map<string, Json>, key: string): (r: Option<string>)
    ensures r.Some? <==> GetString(md, key).Some? && GetString(md, key).value != []
    ensures r.Some? ==> r.value == GetString(md, key).value
  {
    match GetString(md, key)
    case Some(s) => if s != [] then Some(s) else None
    case None => None
  }

  /** `user.email?.split("@")[0]`, when it is non-empty: the text of the
      address before its first "@". */
  function EmailLocalPart(user: User): (r: Option<string>)
    ensures r.Some? ==> user.email.Some? && r.value != [] && StartsWith(user.email.value, r.value) && '@' !in r.value
    ensures r.Some? ==> |r.value| == |user.email.value| || user.email.value[|r.value|] == '@'
    ensures r.None? <==> user.email.None? || user.email.value == [] || user.email.value[0] == '@'
  {
    if user.email.None? then None
    else
      var local := BeforeFirst(user.email.value, '@');
      if local != [] then Some(local) else None
  }

  /** `inferDisplayName`: the first truthy of full name, name, e-mail local
      part, and "User". */
  function InferDisplayName(user: User): string {
    var md := Metadata(user);
    if NonEmptyString(md, "full_name").Some? then NonEmptyString(md, "full_name").value
    else if NonEmptyString(md, "name").Some? then NonEmptyString(md, "name").value
    else if EmailLocalPart(user).Some? then EmailLocalPart(user).value
    else "User"
  }

  /** The fallback chain, each step taken exactly when the earlier ones
      give nothing; the name is never empty. */
  lemma InferDisplayNameChain(user: User)
    ensures InferDisplayName(user) != []
    ensures var md := Metadata(user);
            && (GetString(md, "full_name").Some? && GetString(md, "full_name").value != [] ==>
                  InferDisplayName(user) == GetString(md, "full_name").value)
            && (NonEmptyString(md, "full_name").None? && GetString(md, "name").Some? && GetString(md, "name").value != [] ==>
                  InferDisplayName(user) == GetString(md, "name").value)
            && (NonEmptyString(md, "full_name").None? && NonEmptyString(md, "name").None?
                && user.email.Some? && BeforeFirst(user.email.value, '@') != [] ==>
                  InferDisplayName(user) == BeforeFirst(user.email.value, '@'))
            && (NonEmptyString(md, "full_name").None? && NonEmptyString(md, "name").None?
                && (user.email.None? || BeforeFirst(user.email.value, '@') == []) ==>
                  InferDisplayName(user) == "User")
  {
  }

  /** An address is cut at its first "@": a local part without "@" comes
      back whatever follows it. */
  lemma EmailLocalPartOf(user: User, local: string, domain: string)
    requires local != [] && '@' !in local
    requires user.email == Some(local + "@" + domain)
    ensures EmailLocalPart(user) == Some(local)
  {
    assert local + "@" + domain == local + ("@" + domain);
    BeforeFirstAppend(local, "@" + domain, '@');
  }

  /** `identities.find((it) => it.provider === "google")`. */
  function FirstGoogle(identities: seq<Identity>): (r: Option<Identity>)
    ensures r.Some? ==> r.value in identities && r.value.provider == "google"
    ensures r.None? <==> forall k :: 0 <= k < |identities| ==> identities[k].provider != "google"
    ensures r.Some? ==> exists k :: 0 <= k < |identities| && identities[k] == r.value
                                    && forall j :: 0 <= j < k ==> identities[j].provider != "google"
    decreases |identities|
  {
    if identities == [] then None
    else if identities[0].provider == "google" then Some(identities[0])
    else FirstGoogle(identities[1..])
  }

  /** `inferGoogleSub`. */
  function InferGoogleSub(user: User): string {
    var md := Metadata(user);
    if NonEmptyString(md, "sub").Some? then NonEmptyString(md, "sub").value
    else
      var google := FirstGoogle(user.identities.GetOr([]));
      if google.Some? && google.value.identity_id != [] then google.value.identity_id
      else user.id
  }

  /** The metadata `sub` when it is a non-empty string; else the first
      Google identity's id when that is non-empty; else the user id. Only
      the first Google identity is consulted. */
  lemma InferGoogleSubChain(user: User)
    ensures var md := Metadata(user);
            && (NonEmptyString(md, "sub").Some? ==> InferGoogleSub(user) == GetString(md, "sub").value)
            && (NonEmptyString(md, "sub").None? ==>
                  var g := FirstGoogle(user.identities.GetOr([]));
                  && (g.Some? && g.value.identity_id != [] ==>
                        InferGoogleSub(user) == g.value.identity_id && g.value in user.identities.GetOr([]))
                  && (g.None? || g.value.identity_id == [] ==> InferGoogleSub(user) == user.id))
    ensures user.id != [] ==> InferGoogleSub(user) != []
  {
  }

  /** The row `ensureProfileForUser` upserts. */
  datatype ProfileRow = ProfileRow(
    id: string,
    google_sub: string,
    email: string,
    display_name: string,
    avatar_url: Option<string>)

  function ProfileFor(user: User): ProfileRow {
    ProfileRow(
      user.id,
      InferGoogleSub(user),
      user.email.GetOr(user.id + "@example.local"),
      InferDisplayName(user),
      GetString(Metadata(user), "avatar_url"))
  }

  /** A user without an e-mail gets `<id>@example.local`; the avatar is kept
      only when it is a string; id, subject and name come from the rules
      above. */
  lemma ProfileForShape(user: User)
    ensures var row := ProfileFor(user);
            && row.id == user.id
            && (user.email.Some? ==> row.email == user.email.value)
            && (user.email.None? ==> row.email == user.id + "@example.local")
            && (row.avatar_url.Some? <==> TypeOf(Get(Metadata(user), "avatar_url")) == "string")
            && (row.avatar_url.Some? ==> Get(Metadata(user), "avatar_url") == Some(JStr(row.avatar_url.value)))
            && row.display_name != []
  {
    InferDisplayNameChain(user);
    TypeOfStringIsGetString(Metadata(user), "avatar_url");
  }

  const SyncErrorPrefix: string := "Failed to sync user profile: "

  /** `ensureProfileForUser`: `upsert` answers the database's error message,
      if any. */
  function EnsureProfileForUser(user: User, upsert: ProfileRow -> Option<string>): (r: Result<ProfileRow, string>)
    ensures upsert(ProfileFor(user)).None? ==> r == Ok(ProfileFor(user))
    ensures upsert(ProfileFor(user)).Some? ==> r == Err(SyncErrorPrefix + upsert(ProfileFor(user)).value)
  {
    var row := ProfileFor(user);
    match upsert(row)
    case Some(message) => Err(SyncErrorPrefix + message)
    case None => Ok(row)
  }

  /** The session's provider token, if signed in with one. */
  datatype Session = Session(provider_token: Option<string>)

  datatype Context = Context(user: User, session: Option<Session>, googleAccessToken: Option<string>)

  /** `getAuthenticatedContext`: a lookup error or a missing user is thrown
      before the profile is synced; the Google token is the session's
      provider token, or null. */
  function AuthenticatedContext(
    lookup: Result<Option<User>, string>,
    upsert: ProfileRow -> Option<string>,
    session: Option<Session>)
    : (r: Result<Context, string>)
    ensures lookup.Err? ==> r == Err(lookup.error)
    ensures lookup == Ok(None) ==> r == Err("Unauthorized")
    ensures lookup.Ok? && lookup.value.Some? && EnsureProfileForUser(lookup.value.value, upsert).Ok? ==>
              r == Ok(Context(lookup.value.value, session,
                              if session.Some? then session.value.provider_token else None))
    ensures lookup.Ok? && lookup.value.Some? && EnsureProfileForUser(lookup.value.value, upsert).Err? ==>
              r == Err(EnsureProfileForUser(lookup.value.value, upsert).error)
    ensures r.Ok? ==> lookup == Ok(Some(r.value.user)) && EnsureProfileForUser(r.value.user, upsert).Ok?
    ensures r.Ok? ==> r.value.googleAccessToken == (if session.Some? then session.value.provider_token else None)
  {
    match lookup
    case Err(message) => Err(message)
    case Ok(None) => Err("Unauthorized")
    case Ok(Some(user)) =>
      match EnsureProfileForUser(user, upsert)
      case Err(message) => Err(message)
      case Ok(_) =>
        Ok(Context(user, session, if session.Some? then session.value.provider_token else None))
  }
}
