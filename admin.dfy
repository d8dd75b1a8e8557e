/** The administration actions of app/actions/admin.ts: teams and user accounts. Teams and
    users live in their own tables; a team's `code` and a user's `username` are unique there
    (the seed script upserts on both), and a user's `teamId`, when set, names a stored team.
    Password hashing (bcrypt, with a random salt) is a parameter: `hash` stands for the hash
    the call produces. */
module Admin {
  import opened Seqs
  import opened Model
  import opened Text

  datatype Team = Team(id: Id, name: string, code: string)

  datatype User = User(
    id: Id, username: string, password: string, name: string, role: string, teamId: Option<Id>)

  /** The `teamId` a form sends: left out (`undefined`), `null`, `""`, or a team's id. */
  datatype TeamField = Undefined | Null | Blank | TeamRef(team: Id)

  /** `data.teamId || null`. */
  function TeamOrNull(f: TeamField): Option<Id>
  {
    if f.TeamRef? then Some(f.team) else None
  }

  function TeamIds(teams: seq<Team>): set<Id>
  {
    set t | t in teams :: t.id
  }

  function UserIds(users: seq<User>): set<Id>
  {
    set u | u in users :: u.id
  }

  /** An optional team reference is absent or names a stored team. */
  predicate TeamRefOk(teams: seq<Team>, r: Option<Id>)
  {
    r.None? || r.value in TeamIds(teams)
  }

  /** Some team other than `except` already uses `code`. */
  predicate CodeInUse(teams: seq<Team>, code: string, except: Option<Id>)
  {
    exists i :: 0 <= i < |teams| && teams[i].code == code && Some(teams[i].id) != except
  }

  /** Some user other than `except` already uses `username`. */
  predicate UsernameInUse(users: seq<User>, username: string, except: Option<Id>)
  {
    exists i :: 0 <= i < |users| && users[i].username == username && Some(users[i].id) != except
  }

  /** The tables' integrity: unique ids, codes and usernames, ids drawn below `bound`, and no
      user pointing at a missing team. */
  predicate AccountsOk(teams: seq<Team>, users: seq<User>, bound: nat)
  {
    && KeysDistinct(teams, TeamKey) && KeysDistinct(teams, CodeKey)
    && KeysDistinct(users, UserKey) && KeysDistinct(users, NameKey)
    && (forall t :: t in teams ==> t.id < bound)
    && (forall u :: u in users ==> u.id < bound && TeamRefOk(teams, u.teamId))
  }

  function TeamKey(t: Team): Id { t.id }
  function CodeKey(t: Team): string { t.code }
  function UserKey(u: User): Id { u.id }
  function NameKey(u: User): string { u.username }

  /** The fields of `updateUser`'s form; `None` is a field left out. */
  datatype UserUpdate = UserUpdate(
    username: Option<string>, password: Option<string>, name: Option<string>, role: Option<string>,
    teamId: TeamField)

  /** The `updateData` object: `None` is a key that was never set, so the column is kept. */
  datatype UserPatch = UserPatch(
    username: Option<string>, name: Option<string>, role: Option<string>,
    teamId: Option<Option<Id>>, password: Option<string>)

  /** What `updateData` holds once every field has been considered: a text field only when it
      is non-empty; the team whenever the form sent the key at all, null for `""` and `null`;
      the password only when non-empty, and then only as its hash. */
  function UpdateData(data: UserUpdate, hash: string -> string): (p: UserPatch)
    ensures p.username.Some? <==> Truthy(data.username)
    ensures p.name.Some? <==> Truthy(data.name)
    ensures p.role.Some? <==> Truthy(data.role)
    ensures p.username.Some? ==> p.username == data.username
    ensures p.name.Some? ==> p.name == data.name
    ensures p.role.Some? ==> p.role == data.role
    ensures p.teamId.None? <==> data.teamId.Undefined?
    ensures p.teamId == Some(None) <==> data.teamId.Null? || data.teamId.Blank?
    ensures data.teamId.TeamRef? ==> p.teamId == Some(Some(data.teamId.team))
    ensures p.password.Some? <==> Truthy(data.password)
    ensures p.password.Some? ==> p.password.value == hash(data.password.value)
  {
    UserPatch(
      if Truthy(data.username) then data.username else None,
      if Truthy(data.name) then data.name else None,
      if Truthy(data.role) then data.role else None,
      if data.teamId.Undefined? then None else Some(TeamOrNull(data.teamId)),
      if Truthy(data.password) then Some(hash(data.password.value)) else None)
  }

  /** The five `if`s of `updateUser` filling `updateData` one key at a time. */
  method BuildUpdateData(data: UserUpdate, hash: string -> string) returns (updateData: UserPatch)
    ensures updateData == UpdateData(data, hash)
  {
    updateData := UserPatch(None, None, None, None, None);
    if Truthy(data.username) {
      updateData := updateData.(username := data.username);
    }
    if Truthy(data.name) {
      updateData := updateData.(name := data.name);
    }
    if Truthy(data.role) {
      updateData := updateData.(role := data.role);
    }
    if !data.teamId.Undefined? {
      updateData := updateData.(teamId := Some(TeamOrNull(data.teamId)));
    }
    if Truthy(data.password) {
      updateData := updateData.(password := Some(hash(data.password.value)));
    }
  }

  function Or<T>(o: Option<T>, default: T): T
  {
    if o.Some? then o.value else default
  }

  /** `user.update({ data: updateData })`: the keys present overwrite their columns. */
  function ApplyPatch(u: User, p: UserPatch): (v: User)
    ensures v.id == u.id
  {
    User(u.id, Or(p.username, u.username), Or(p.password, u.password), Or(p.name, u.name),
         Or(p.role, u.role), Or(p.teamId, u.teamId))
  }

  /** A form with every field left out or empty, and no team key, changes nothing. */
  lemma EmptyFormChangesNothing(u: User, data: UserUpdate, hash: string -> string)
    requires !Truthy(data.username) && !Truthy(data.name) && !Truthy(data.role) && !Truthy(data.password)
    requires data.teamId.Undefined?
    ensures ApplyPatch(u, UpdateData(data, hash)) == u
  {
  }

  /** After an update the stored password is the old one or the hash of the new one; the
      plaintext is only stored if it is its own hash. */
  lemma PasswordIsHashed(u: User, data: UserUpdate, hash: string -> string)
    ensures var v := ApplyPatch(u, UpdateData(data, hash));
      v.password == u.password || (Truthy(data.password) && v.password == hash(data.password.value))
  {
  }

  /** Sending the same form twice has the effect of sending it once. */
  lemma UpdateIdempotent(u: User, data: UserUpdate, hash: string -> string)
    ensures var p := UpdateData(data, hash);
      ApplyPatch(ApplyPatch(u, p), p) == ApplyPatch(u, p)
  {
  }

  /** The teams, with their numbers of users and dispatches (`_count`). */
  datatype TeamWithCounts = TeamWithCounts(team: Team, users: nat, dispatches: nat)

  function WithCounts(t: Team, users: seq<User>, dispatches: seq<Dispatch>): TeamWithCounts
  {
    TeamWithCounts(t, |Filter(users, (u: User) => u.teamId == Some(t.id))|,
                      |Filter(dispatches, (d: Dispatch) => d.teamId == Some(t.id))|)
  }

  function CodeOf(r: TeamWithCounts): string
  {
    r.team.code
  }

  /** getTeams: every team once, with its counts, ascending by code. */
  function GetTeams(teams: seq<Team>, users: seq<User>, dispatches: seq<Dispatch>): (r: seq<TeamWithCounts>)
    ensures |r| == |teams|
    ensures SortedByText(r, CodeOf)
    ensures forall t :: t in teams ==> WithCounts(t, users, dispatches) in r
    ensures forall x :: x in r ==> x.team in teams && x == WithCounts(x.team, users, dispatches)
  {
    var rows := seq(|teams|, i requires 0 <= i < |teams| => WithCounts(teams[i], users, dispatches));
    var r := SortByText(rows, CodeOf);
    forall t | t in teams ensures WithCounts(t, users, dispatches) in rows {
      var i :| 0 <= i < |teams| && teams[i] == t;
      assert rows[i] == WithCounts(t, users, dispatches);
    }
    r
  }

  /** A user with the team it belongs to (`include: { team: true }`). */
  datatype UserWithTeam = UserWithTeam(user: User, team: Option<Team>)

  /** The stored team with id `id`, if any. */
  function TeamById(teams: seq<Team>, id: Id): (r: Option<Team>)
    ensures r.Some? ==> r.value in teams && r.value.id == id
    ensures r.None? ==> id !in TeamIds(teams)
  {
    if teams == [] then None
    else if teams[0].id == id then Some(teams[0])
    else
      assert forall t :: t in teams ==> t == teams[0] || t in teams[1..];
      TeamById(teams[1..], id)
  }

  function JoinTeam(u: User, teams: seq<Team>): UserWithTeam
  {
    UserWithTeam(u, if u.teamId.Some? then TeamById(teams, u.teamId.value) else None)
  }

  function UsernameOf(r: UserWithTeam): string
  {
    r.user.username
  }

  /** getUsers: every user once, with their team, ascending by username. */
  function GetUsers(users: seq<User>, teams: seq<Team>): (r: seq<UserWithTeam>)
    ensures |r| == |users|
    ensures SortedByText(r, UsernameOf)
    ensures forall u :: u in users ==> JoinTeam(u, teams) in r
    ensures forall x :: x in r ==> x.user in users && x == JoinTeam(x.user, teams)
  {
    var rows := seq(|users|, i requires 0 <= i < |users| => JoinTeam(users[i], teams));
    var r := SortByText(rows, UsernameOf);
    forall u | u in users ensures JoinTeam(u, teams) in rows {
      var i :| 0 <= i < |users| && users[i] == u;
      assert rows[i] == JoinTeam(u, teams);
    }
    r
  }

  /** A user whose team is set and stored is listed with that team. */
  lemma UsersListedWithTheirTeam(users: seq<User>, teams: seq<Team>, u: User)
    requires u in users && u.teamId.Some? && u.teamId.value in TeamIds(teams)
    ensures exists x :: x in GetUsers(users, teams) && x.user == u && x.team.Some? && x.team.value.id == u.teamId.value
  {
    assert JoinTeam(u, teams) in GetUsers(users, teams);
  }

  /** `team.delete`: the users of the deleted team lose their team (the default for an
      optional relation); others are untouched. */
  function Unassign(users: seq<User>, id: Id): (r: seq<User>)
    ensures |r| == |users|
    ensures forall k :: 0 <= k < |users| ==>
      r[k] == users[k].(teamId := if users[k].teamId == Some(id) then None else users[k].teamId)
  {
    seq(|users|, k requires 0 <= k < |users| =>
      users[k].(teamId := if users[k].teamId == Some(id) then None else users[k].teamId))
  }

  class Accounts {
    var teams: seq<Team>
    var users: seq<User>
    var nextId: nat

    ghost predicate Valid()
      reads this
    {
      AccountsOk(teams, users, nextId)
    }

    constructor ()
      ensures Valid() && teams == [] && users == [] && nextId == 0
    {
      teams := [];
      users := [];
      nextId := 0;
    }

    /** createTeam: stores the code in upper case; a code already in use, or a storage fault,
        makes the insert throw and nothing is stored. */
    method CreateTeam(name: string, code: string, storageFails: bool) returns (r: Option<Team>)
      requires Valid()
      modifies this
      ensures Valid() && users == old(users)
      ensures r.None? <==> storageFails || CodeInUse(old(teams), Upper(code), None)
      ensures r.None? ==> teams == old(teams) && nextId == old(nextId)
      ensures r.Some? ==> && r.value == Team(old(nextId), name, Upper(code))
                          && teams == old(teams) + [r.value] && nextId == old(nextId) + 1
      ensures r.Some? ==> forall k :: 0 <= k < |r.value.code| ==> !('a' <= r.value.code[k] <= 'z')
    {
      var upper := Upper(code);
      if storageFails || CodeInUse(teams, upper, None) {
        return None;
      }
      var team := Team(nextId, name, upper);
      teams := teams + [team];
      nextId := nextId + 1;
      UpperIsUpper(code);
      r := Some(team);
    }

    /** updateTeam: renames the team and stores the new code in upper case. A missing id, a
        code another team uses, or a storage fault makes the update throw and nothing changes. */
    method UpdateTeam(id: Id, name: string, code: string, storageFails: bool) returns (r: Option<Team>)
      requires Valid()
      modifies this
      ensures Valid() && users == old(users) && nextId == old(nextId)
      ensures r.None? <==> storageFails || id !in TeamIds(old(teams)) || CodeInUse(old(teams), Upper(code), Some(id))
      ensures r.None? ==> teams == old(teams)
      ensures r.Some? ==> r.value == Team(id, name, Upper(code))
      ensures r.Some? ==> |teams| == |old(teams)| && forall k :: 0 <= k < |teams| ==>
        teams[k] == if old(teams)[k].id == id then Team(id, name, Upper(code)) else old(teams)[k]
    {
      var upper := Upper(code);
      if storageFails || id !in TeamIds(teams) || CodeInUse(teams, upper, Some(id)) {
        return None;
      }
      var t :| t in teams && t.id == id;
      var i :| 0 <= i < |teams| && teams[i] == t;
      var team := Team(id, name, upper);
      RenameTeamKeepsOk(teams, users, i, team, nextId);
      teams := teams[i := team];
      r := Some(team);
    }

    /** deleteTeam: removes the team and clears it from its users. A missing id, or a storage
        fault, makes the delete throw and nothing changes. */
    method DeleteTeam(id: Id, storageFails: bool) returns (o: Outcome)
      requires Valid()
      modifies this
      ensures Valid() && nextId == old(nextId)
      ensures o.Failed? <==> storageFails || id !in TeamIds(old(teams))
      ensures o.Failed? ==> o == Failed(StorageError) && teams == old(teams) && users == old(users)
      ensures o.Success? ==> && teams == Filter(old(teams), (t: Team) => t.id != id)
                             && users == Unassign(old(users), id)
    {
      if storageFails || id !in TeamIds(teams) {
        return Failed(StorageError);
      }
      DeleteTeamKeepsOk(teams, users, id, nextId);
      teams := Filter(teams, (t: Team) => t.id != id);
      users := Unassign(users, id);
      o := Success;
    }

    /** createUser: stores the hash, and null for a team left out, `null` or `""`. A taken
        username, a missing team or a storage fault makes the insert throw and nothing is
        stored. */
    method CreateUser(username: string, password: string, name: string, role: string,
                      teamId: TeamField, hash: string -> string, storageFails: bool)
      returns (r: Option<User>)
      requires Valid()
      modifies this
      ensures Valid() && teams == old(teams)
      ensures r.None? <==> || storageFails || UsernameInUse(old(users), username, None)
                           || !TeamRefOk(teams, TeamOrNull(teamId))
      ensures r.None? ==> users == old(users) && nextId == old(nextId)
      ensures r.Some? ==> && r.value == User(old(nextId), username, hash(password), name, role, TeamOrNull(teamId))
                          && users == old(users) + [r.value] && nextId == old(nextId) + 1
    {
      var hashedPassword := hash(password);
      var team := TeamOrNull(teamId);
      if storageFails || UsernameInUse(users, username, None) || !TeamRefOk(teams, team) {
        return None;
      }
      var user := User(nextId, username, hashedPassword, name, role, team);
      users := users + [user];
      nextId := nextId + 1;
      r := Some(user);
    }

    /** updateUser: builds the patch, then applies it to the user. A missing id, a username
        another user has, a missing team or a storage fault makes the update throw and
        nothing changes. */
    method UpdateUser(id: Id, data: UserUpdate, hash: string -> string, storageFails: bool)
      returns (r: Option<User>)
      requires Valid()
      modifies this
      ensures Valid() && teams == old(teams) && nextId == old(nextId)
      ensures var p := UpdateData(data, hash);
        r.None? <==> || storageFails
                     || id !in UserIds(old(users))
                     || (p.username.Some? && UsernameInUse(old(users), p.username.value, Some(id)))
                     || (p.teamId.Some? && !TeamRefOk(teams, p.teamId.value))
      ensures r.None? ==> users == old(users)
      ensures r.Some? ==> |users| == |old(users)| && forall k :: 0 <= k < |users| ==>
        users[k] == if old(users)[k].id == id then ApplyPatch(old(users)[k], UpdateData(data, hash)) else old(users)[k]
      ensures r.Some? ==> r.value in users && r.value.id == id
    {
      var updateData := BuildUpdateData(data, hash);
      if || storageFails
         || id !in UserIds(users)
         || (updateData.username.Some? && UsernameInUse(users, updateData.username.value, Some(id)))
         || (updateData.teamId.Some? && !TeamRefOk(teams, updateData.teamId.value)) {
        return None;
      }
      var u :| u in users && u.id == id;
      var i :| 0 <= i < |users| && users[i] == u;
      var user := ApplyPatch(u, updateData);
      PatchedUserOk(teams, users, i, updateData, nextId);
      UpdateUserKeepsOk(teams, users, i, user, nextId);
      users := users[i := user];
      r := Some(user);
    }

    /** deleteUser. A missing id, or a storage fault, makes the delete throw and nothing
        changes. */
    method DeleteUser(id: Id, storageFails: bool) returns (o: Outcome)
      requires Valid()
      modifies this
      ensures Valid() && teams == old(teams) && nextId == old(nextId)
      ensures o.Failed? <==> storageFails || id !in UserIds(old(users))
      ensures o.Failed? ==> o == Failed(StorageError) && users == old(users)
      ensures o.Success? ==> users == Filter(old(users), (u: User) => u.id != id)
    {
      if storageFails || id !in UserIds(users) {
        return Failed(StorageError);
      }
      DeleteUserKeepsOk(teams, users, id, nextId);
      users := Filter(users, (u: User) => u.id != id);
      o := Success;
    }
  }

  /** Replacing team `i` by a team with the same id and a code no other team uses keeps the
      tables consistent, and changes exactly the team with that id. */
  lemma RenameTeamKeepsOk(teams: seq<Team>, users: seq<User>, i: nat, t: Team, bound: nat)
    requires AccountsOk(teams, users, bound) && i < |teams| && t.id == teams[i].id
    requires !CodeInUse(teams, t.code, Some(t.id))
    ensures AccountsOk(teams[i := t], users, bound)
    ensures forall k :: 0 <= k < |teams| ==> teams[i := t][k] == if teams[k].id == t.id then t else teams[k]
  {
    var ts := teams[i := t];
    forall a, b | 0 <= a < b < |ts| ensures ts[a].id != ts[b].id && ts[a].code != ts[b].code {
      assert TeamKey(teams[a]) != TeamKey(teams[b]) && CodeKey(teams[a]) != CodeKey(teams[b]);
      if a == i {
        assert Some(teams[b].id) != Some(t.id);
      } else if b == i {
        assert Some(teams[a].id) != Some(t.id);
      }
    }
    assert TeamIds(ts) == TeamIds(teams) by {
      forall x | x in TeamIds(teams) ensures x in TeamIds(ts) {
        var s :| s in teams && s.id == x;
        var k :| 0 <= k < |teams| && teams[k] == s;
        assert ts[k].id == x;
      }
    }
    forall k | 0 <= k < |teams| ensures ts[k] == if teams[k].id == t.id then t else teams[k] {
      if k != i {
        assert TeamKey(teams[k]) != TeamKey(teams[i]) by {
          if k < i { assert TeamKey(teams[k]) != TeamKey(teams[i]); } else { assert TeamKey(teams[i]) != TeamKey(teams[k]); }
        }
      }
    }
  }

  /** Deleting team `id` and clearing it from the users keeps the tables consistent. */
  lemma DeleteTeamKeepsOk(teams: seq<Team>, users: seq<User>, id: Id, bound: nat)
    requires AccountsOk(teams, users, bound)
    ensures AccountsOk(Filter(teams, (t: Team) => t.id != id), Unassign(users, id), bound)
  {
    var kept := Filter(teams, (t: Team) => t.id != id);
    var us := Unassign(users, id);
    FilterDistinct(teams, (t: Team) => t.id != id, TeamKey);
    FilterDistinct(teams, (t: Team) => t.id != id, CodeKey);
    assert KeysDistinct(us, UserKey) && KeysDistinct(us, NameKey) by {
      forall i, j | 0 <= i < j < |us| ensures us[i].id != us[j].id && us[i].username != us[j].username {
        assert UserKey(users[i]) != UserKey(users[j]) && NameKey(users[i]) != NameKey(users[j]);
      }
    }
    forall u | u in us ensures u.id < bound && TeamRefOk(kept, u.teamId) {
      var k :| 0 <= k < |us| && us[k] == u;
      assert users[k] in users;
      if u.teamId.Some? {
        var t :| t in teams && t.id == u.teamId.value;
        assert t in kept;
      }
    }
  }

  /** Replacing user `i` by a patched copy whose username and team pass the checks keeps the
      tables consistent. */
  lemma UpdateUserKeepsOk(teams: seq<Team>, users: seq<User>, i: nat, u: User, bound: nat)
    requires AccountsOk(teams, users, bound) && i < |users| && u.id == users[i].id
    requires !UsernameInUse(users, u.username, Some(u.id)) && TeamRefOk(teams, u.teamId)
    ensures AccountsOk(teams, users[i := u], bound)
    ensures forall k :: 0 <= k < |users| ==> users[i := u][k] == if users[k].id == u.id then u else users[k]
  {
    var us := users[i := u];
    forall k | 0 <= k < |users| ensures us[k] == if users[k].id == u.id then u else users[k] {
      if k != i {
        if k < i { assert UserKey(users[k]) != UserKey(users[i]); } else { assert UserKey(users[i]) != UserKey(users[k]); }
      }
    }
    forall a, b | 0 <= a < b < |us| ensures us[a].id != us[b].id && us[a].username != us[b].username {
      assert UserKey(users[a]) != UserKey(users[b]) && NameKey(users[a]) != NameKey(users[b]);
      if a == i {
        assert Some(users[b].id) != Some(u.id);
      } else if b == i {
        assert Some(users[a].id) != Some(u.id);
      }
    }
    forall v | v in us ensures v.id < bound && TeamRefOk(teams, v.teamId) {
      var k :| 0 <= k < |us| && us[k] == v;
      assert users[k] in users;
    }
  }

  /** A patch whose new username and team pass the checks gives a user that may replace the
      old one: a kept username stays unique and a kept team stays stored. */
  lemma PatchedUserOk(teams: seq<Team>, users: seq<User>, i: nat, p: UserPatch, bound: nat)
    requires AccountsOk(teams, users, bound) && i < |users|
    requires p.username.Some? ==> !UsernameInUse(users, p.username.value, Some(users[i].id))
    requires p.teamId.Some? ==> TeamRefOk(teams, p.teamId.value)
    ensures var u := ApplyPatch(users[i], p);
      !UsernameInUse(users, u.username, Some(u.id)) && TeamRefOk(teams, u.teamId)
  {
    if p.username.None? {
      forall j | 0 <= j < |users| && j != i ensures users[j].username != users[i].username {
        if j < i {
          assert NameKey(users[j]) != NameKey(users[i]);
        } else {
          assert NameKey(users[i]) != NameKey(users[j]);
        }
      }
    }
    assert users[i] in users;
  }

  /** Deleting a user keeps the tables consistent. */
  lemma DeleteUserKeepsOk(teams: seq<Team>, users: seq<User>, id: Id, bound: nat)
    requires AccountsOk(teams, users, bound)
    ensures AccountsOk(teams, Filter(users, (u: User) => u.id != id), bound)
  {
    FilterDistinct(users, (u: User) => u.id != id, UserKey);
    FilterDistinct(users, (u: User) => u.id != id, NameKey);
  }
}
