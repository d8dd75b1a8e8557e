/** The session helpers of lib/auth-utils.ts. The session itself comes from the authentication
    library (`auth()`), so it is a parameter here: absent when nobody is signed in, and when
    present it may still lack a user. */
module AuthUtils {
  import opened Model

  /** The user carried by the session token (types/next-auth.d.ts). */
  datatype SessionUser = SessionUser(
    id: string,
    username: string,
    name: string,
    role: string,
    teamId: Option<Id>,
    teamName: Option<string>,
    teamCode: Option<string>)

  datatype Session = Session(user: Option<SessionUser>)

  /** The role that sees every team. */
  const AdminRole := "ADMIN"

  /** getCurrentUser: the session's user, or null. */
  function CurrentUser(session: Option<Session>): (u: Option<SessionUser>)
    ensures u.None? <==> session.None? || session.value.user.None?
    ensures u.Some? ==> Some(u.value) == session.value.user
  {
    if session.Some? then session.value.user else None
  }

  /** isAdmin: `session?.user?.role === "ADMIN"`. */
  predicate IsAdmin(session: Option<Session>)
  {
    var u := CurrentUser(session);
    u.Some? && u.value.role == AdminRole
  }

  /** getTeamId: the team filter the queries apply. Nobody signed in and an administrator both
      give null (no filtering); any other user is confined to their own team. */
  function TeamScope(session: Option<Session>): (t: Option<Id>)
    ensures CurrentUser(session).None? ==> t.None?
    ensures IsAdmin(session) ==> t.None?
    ensures CurrentUser(session).Some? && !IsAdmin(session) ==> t == CurrentUser(session).value.teamId
  {
    var u := CurrentUser(session);
    if u.None? then None
    else if u.value.role == AdminRole then None
    else u.value.teamId
  }

  datatype AuthResult = Authorized(user: SessionUser) | Unauthorized

  /** requireAuth: the user, or the "Unauthorized" error. */
  function RequireAuth(session: Option<Session>): (r: AuthResult)
    ensures r.Unauthorized? <==> CurrentUser(session).None?
    ensures r.Authorized? ==> Some(r.user) == CurrentUser(session)
  {
    var u := CurrentUser(session);
    if u.None? then Unauthorized else Authorized(u.value)
  }

  /** A team filter is only ever produced for a signed-in user who is not an administrator,
      and it is that user's own team. */
  lemma ScopedOnlyForMembers(session: Option<Session>)
    requires TeamScope(session).Some?
    ensures RequireAuth(session).Authorized? && !IsAdmin(session)
    ensures TeamScope(session) == RequireAuth(session).user.teamId
  {
  }

  /** An administrator's team id is ignored: whatever team they belong to, they see all. */
  lemma AdminTeamIgnored(u: SessionUser, team: Option<Id>)
    requires u.role == AdminRole
    ensures TeamScope(Some(Session(Some(u.(teamId := team))))) == None
  {
  }
}
