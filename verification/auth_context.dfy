/** The session provider (contexts/AuthContext.tsx): the user record built
    from a session and its `profiles` row, with the fallbacks used when the
    row is missing or incomplete, and the state changes of a session event,
    sign-out and refresh. The query result is a parameter: `None` stands for
    no row, a query error and a thrown exception alike, since all three take
    the fallback path. */
module AuthContext {
  import opened Optional
  import opened Types
  import opened Text

  /** The provider state. */
  datatype AuthState = AuthState(user: Option<User>, loading: bool)

  /** The state before any session event: no user, still loading. */
  const InitialState: AuthState := AuthState(None, true)

  /** `email.split('@')[0]`: the part of the address before the first '@'. */
  function EmailPrefix(email: string): (r: string)
    ensures StartsWith(email, r) && '@' !in r
    ensures |r| < |email| ==> email[|r|] == '@'
  {
    BeforeFirst(email, '@')
  }

  /** The prefix of `local@domain` is `local`. */
  lemma EmailPrefixOfAddress(local: string, domain: string)
    requires '@' !in local
    ensures EmailPrefix(local + "@" + domain) == local
  {
    BeforeFirstOfJoined(local, '@', domain);
  }

  /** `fetchProfile`: with a row, its id, its name or else the email prefix,
      its role or else PATIENT, and its specialty and avatar; without one, a
      patient named after the email prefix. The email is always the one of
      the session, never the row's. */
  function FetchProfile(userId: string, email: string, row: Option<ProfileRow>): (u: User)
    ensures u.email == email
    ensures row.None? ==> u == User(userId, EmailPrefix(email), email, UserRole.Patient, None, None)
    ensures row.Some? ==> u.id == row.value.id
    ensures row.Some? && row.value.name != "" ==> u.name == row.value.name
    ensures row.Some? && row.value.name == "" ==> u.name == EmailPrefix(email)
    ensures row.Some? ==> u.role == if row.value.role.Some? then row.value.role.value else UserRole.Patient
    ensures row.Some? ==> u.specialty == row.value.specialty && u.avatarUrl == row.value.avatarUrl
  {
    match row
    case Some(p) => User(p.id, OrElse(p.name, EmailPrefix(email)), email, p.role.GetOr(UserRole.Patient), p.avatarUrl, p.specialty)
    case None => User(userId, EmailPrefix(email), email, UserRole.Patient, None, None)
  }

  /** A session whose account has no profile row yet signs in as a patient
      named after the local part of the address. */
  lemma NewAccountIsPatient(userId: string, local: string, domain: string)
    requires '@' !in local
    ensures var u := FetchProfile(userId, local + "@" + domain, None);
      u.id == userId && u.name == local && u.role == UserRole.Patient
  {
    EmailPrefixOfAddress(local, domain);
  }

  /** `handleSession`, given the session's user id and email (if there is a
      user), the profile row, and whether the provider is still mounted:
      an unmounted provider ignores the event. */
  function HandleSession(s: AuthState, session: Option<(string, string)>, row: Option<ProfileRow>, mounted: bool): (r: AuthState)
    ensures !mounted ==> r == s
    ensures mounted ==> !r.loading
    ensures mounted && session.None? ==> r.user.None?
    ensures mounted && session.Some? ==> r.user == Some(FetchProfile(session.value.0, session.value.1, row))
  {
    if !mounted then s
    else match session
      case Some((id, email)) => AuthState(Some(FetchProfile(id, email, row)), false)
      case None => AuthState(None, false)
  }

  /** A first session event for an account without a profile row ends the
      loading with a patient named after the local part of the address. */
  lemma FirstSignInWithoutProfile(userId: string, local: string, domain: string)
    requires '@' !in local
    ensures var email := local + "@" + domain;
      HandleSession(InitialState, Some((userId, email)), None, true)
        == AuthState(Some(User(userId, local, email, UserRole.Patient, None, None)), false)
  {
    EmailPrefixOfAddress(local, domain);
  }

  /** The three-second guard: a mounted provider stops loading. The guard
      reads the `loading` of the first render, which is always true, so it
      fires whenever the provider is still mounted. */
  function LoadingTimeout(s: AuthState, mounted: bool): (r: AuthState)
    ensures r.user == s.user
    ensures r.loading <==> s.loading && !mounted
  {
    if mounted then s.(loading := false) else s
  }

  /** `signOut`: the user is cleared at once, whatever the server answers. */
  function SignOut(s: AuthState): (r: AuthState)
    ensures r.user.None? && r.loading == s.loading
  {
    s.(user := None)
  }

  /** `refreshUser`, given the profile row: it re-reads the profile only when
      the current user has a non-empty id and email, and keeps that email. */
  function RefreshUser(s: AuthState, row: Option<ProfileRow>): (r: AuthState)
    ensures r.loading == s.loading
    ensures !(s.user.Some? && s.user.value.id != "" && s.user.value.email != "") ==> r == s
    ensures s.user.Some? && s.user.value.id != "" && s.user.value.email != "" ==>
      r.user == Some(FetchProfile(s.user.value.id, s.user.value.email, row))
  {
    match s.user
    case Some(u) =>
      if u.id != "" && u.email != "" then s.(user := Some(FetchProfile(u.id, u.email, row))) else s
    case None => s
  }

  /** Refreshing twice against the same profile row is refreshing once. */
  lemma RefreshIdempotent(s: AuthState, row: Option<ProfileRow>)
    ensures RefreshUser(RefreshUser(s, row), row) == RefreshUser(s, row)
  {
  }

  /** After signing out, a refresh does nothing. */
  lemma RefreshAfterSignOut(s: AuthState, row: Option<ProfileRow>)
    ensures RefreshUser(SignOut(s), row) == SignOut(s)
  {
  }
}
