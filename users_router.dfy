/** The `/users` routes: administrator-only user management, plus `/me` for any signed-in user.
    Responses never carry the password hash or the profile type. */
module UsersRouter {
  import opened Wrappers
  import opened Seqs
  import opened UserEntity
  import opened Errors
  import opened AuthServices
  import opened Repositories
  import opened JwtAuth
  import opened UserCases

  const UserNotFoundError := HttpError(NotFound, "User not found")

  /** `UserResponse`: the fields of a user a client may see. */
  datatype UserResponse = UserResponse(
    id: Uuid,
    username: string,
    email: string,
    role: UserRole,
    createdAt: Timestamp,
    updatedAt: Timestamp,
    companyId: Option<Uuid>)

  function ToResponse(u: User): UserResponse {
    UserResponse(u.id, u.username, u.email, u.role, u.createdAt, u.updatedAt, u.companyId)
  }

  /** The response hides the password hash and the profile type and shows everything else: two
      users give the same response exactly when they differ at most in those two fields. */
  lemma ResponseHidesSecrets(u: User, v: User)
    ensures ToResponse(u) == ToResponse(v) <==>
              u.(hashedPassword := v.hashedPassword, profileType := v.profileType) == v
  {
  }

  /** `GET /users/me`: any authenticated user, whatever the role, gets their own stored record. */
  function CurrentUserInfo(decoded: Option<Claims>, users: seq<User>): (r: Result<UserResponse, HttpError>)
    ensures r.Ok? <==> GetCurrentUser(decoded, users).Ok?
    ensures r.Err? ==> r.error == CredentialsError
    ensures r.Ok? ==> r.value == ToResponse(GetCurrentUser(decoded, users).value)
                      && r.value.id == decoded.value["sub"].text
  {
    match GetCurrentUser(decoded, users)
    case Err(e) => Err(e)
    case Ok(u) => Ok(ToResponse(u))
  }

  /** `GET /users/`: one response per stored user, in table order; 403 for anyone but an
      administrator. */
  function ListUsers(caller: User, rows: seq<User>): (r: Result<seq<UserResponse>, HttpError>)
    ensures caller.role != Admin <==> r == Err(PermissionError)
    ensures r.Ok? ==> |r.value| == |rows| && forall i :: 0 <= i < |rows| ==> r.value[i] == ToResponse(rows[i])
  {
    match RequireAdmin(caller)
    case Err(e) => Err(e)
    case Ok(_) => Ok(seq(|rows|, i requires 0 <= i < |rows| => ToResponse(rows[i])))
  }

  /** `GET /users/{id}`: 403 for anyone but an administrator, then 404 for an unknown id. */
  function GetUser(caller: User, rows: seq<User>, userId: Uuid): (r: Result<UserResponse, HttpError>)
    ensures caller.role != Admin ==> r == Err(PermissionError)
    ensures caller.role == Admin ==> (Find(rows, UserWithId(userId)).None? <==> r == Err(UserNotFoundError))
    ensures r.Ok? ==> Find(rows, UserWithId(userId)).Some? && r.value == ToResponse(Find(rows, UserWithId(userId)).value)
    ensures r.Ok? ==> r.value.id == userId
  {
    match RequireAdmin(caller)
    case Err(e) => Err(e)
    case Ok(_) =>
      match Find(rows, UserWithId(userId))
      case None => Err(UserNotFoundError)
      case Some(u) => Ok(ToResponse(u))
  }

  /** `UserUpdate`: every field optional, `None` meaning "leave as it is". */
  datatype UserUpdate = UserUpdate(
    username: Option<string>,
    email: Option<string>,
    password: Option<string>,
    role: Option<UserRole>,
    companyId: Option<Uuid>)

  /** The user `update_user` writes back: each supplied field replaces the stored one, a supplied
      password is stored as its hash, and nothing else is touched. */
  function MergedUser(u: User, upd: UserUpdate, svc: AuthService): User {
    u.(username := if upd.username.Some? then upd.username.value else u.username,
       email := if upd.email.Some? then upd.email.value else u.email,
       hashedPassword := if upd.password.Some? then GetPasswordHash(svc, upd.password.value) else u.hashedPassword,
       role := if upd.role.Some? then upd.role.value else u.role,
       companyId := if upd.companyId.Some? then upd.companyId else u.companyId)
  }

  /** The merge never changes the id, the creation or update time or the stored profile type
      (which is therefore not re-derived from a new role), and cannot clear a company. */
  lemma MergeKeepsUntouched(u: User, upd: UserUpdate, svc: AuthService)
    ensures var m := MergedUser(u, upd, svc);
            && m.id == u.id && m.createdAt == u.createdAt && m.updatedAt == u.updatedAt
            && m.profileType == u.profileType
            && (u.companyId.Some? ==> m.companyId.Some?)
  {
  }

  /** An update that supplies nothing writes the stored user back unchanged. */
  lemma EmptyUpdateChangesNothing(u: User, svc: AuthService)
    ensures MergedUser(u, UserUpdate(None, None, None, None, None), svc) == u
  {
  }

  /** A supplied password is never stored in the clear, and the stored hash verifies against it. */
  lemma MergedPasswordVerifies(u: User, upd: UserUpdate, svc: AuthService)
    requires Sound(svc.hasher) && upd.password.Some?
    ensures var m := MergedUser(u, upd, svc);
            && m.hashedPassword != upd.password.value
            && VerifyPassword(svc, upd.password.value, m.hashedPassword)
  {
    HashThenVerify(svc, upd.password.value);
  }

  /** After a password change, logging in with the new password finds the updated user, as long
      as emails stay unique. */
  lemma NewPasswordAuthenticates(rows: seq<User>, k: nat, upd: UserUpdate, svc: AuthService)
    requires Sound(svc.hasher) && upd.password.Some? && k < |rows|
    requires KeysDistinct(rows[k := MergedUser(rows[k], upd, svc)], UserEmail)
    ensures var m := MergedUser(rows[k], upd, svc);
            AuthenticateUser(rows[k := m], svc, m.email, upd.password.value) == Some(m)
  {
    var m := MergedUser(rows[k], upd, svc);
    var after := rows[k := m];
    assert after[k] == m;
    FindByUniqueEmail(after, m);
    MergedPasswordVerifies(rows[k], upd, svc);
  }

  /** Writing back a user under its own id keeps ids a primary key. */
  lemma ReplaceKeepsIdsDistinct(rows: seq<User>, k: nat, m: User)
    requires KeysDistinct(rows, UserKey) && k < |rows| && m.id == rows[k].id
    ensures KeysDistinct(rows[k := m], UserKey)
  {
    var after := rows[k := m];
    forall i, j | 0 <= i < j < |after| ensures UserKey(after[i]) != UserKey(after[j]) {
      assert UserKey(after[i]) == UserKey(rows[i]) && UserKey(after[j]) == UserKey(rows[j]);
    }
  }

  /** Deleting a row keeps the remaining ids distinct, and with distinct ids the deleted user can
      no longer be found. */
  lemma DeletedUserIsGone(rows: seq<User>, k: nat)
    requires KeysDistinct(rows, UserKey) && k < |rows|
    ensures KeysDistinct(RemoveAt(rows, k), UserKey)
    ensures Find(RemoveAt(rows, k), UserWithId(rows[k].id)).None?
  {
    var after := RemoveAt(rows, k);
    assert forall i :: 0 <= i < |after| ==> after[i] == rows[if i < k then i else i + 1];
    forall i, j | 0 <= i < j < |after| ensures UserKey(after[i]) != UserKey(after[j]) {
      assert after[i] == rows[if i < k then i else i + 1] && after[j] == rows[if j < k then j else j + 1];
    }
    forall x | x in after ensures !UserWithId(rows[k].id)(x) {
      var i :| 0 <= i < |after| && after[i] == x;
      assert x == rows[if i < k then i else i + 1];
    }
  }

  /** `POST /users/`: 403 for anyone but an administrator; then `create_user`, a taken email or
      username answered with 400. */
  method CreateUser(
    cases: UserUseCases, caller: User, username: string, email: string, password: string, role: UserRole,
    companyId: Option<Uuid>, freshId: Uuid, now: Timestamp)
    returns (r: Result<UserResponse, HttpError>)
    modifies cases.users
    ensures caller.role != Admin ==> r == Err(PermissionError) && cases.users.rows == old(cases.users.rows)
    ensures caller.role == Admin && old(cases.users.GetByEmail(email)).Some? ==>
              r == Err(AsBadRequest(EmailTaken)) && cases.users.rows == old(cases.users.rows)
    ensures caller.role == Admin && old(cases.users.GetByEmail(email)).None? && old(cases.users.GetByUsername(username)).Some? ==>
              r == Err(AsBadRequest(UsernameTaken)) && cases.users.rows == old(cases.users.rows)
    ensures caller.role == Admin && old(cases.users.GetByEmail(email)).None? && old(cases.users.GetByUsername(username)).None? ==>
              var u := RegisteredUser(cases.auth, username, email, password, role, companyId, freshId, now);
              r == Ok(ToResponse(u)) && cases.users.rows == old(cases.users.rows) + [u]
  {
    var gate := RequireAdmin(caller);
    if gate.Err? {
      return Err(gate.error);
    }
    var created := cases.CreateUser(username, email, password, role, companyId, freshId, now);
    match created
    case Err(e) =>
      r := Err(AsBadRequest(e));
    case Ok(u) =>
      r := Ok(ToResponse(u));
  }

  /** `PUT /users/{id}`: 403 for anyone but an administrator, 404 for an unknown id; otherwise the
      stored user is overwritten, field by field, with what the update supplies. */
  method UpdateUser(users: UserRepository, svc: AuthService, caller: User, userId: Uuid, upd: UserUpdate)
    returns (r: Result<UserResponse, HttpError>)
    modifies users
    ensures caller.role != Admin ==> r == Err(PermissionError) && users.rows == old(users.rows)
    ensures caller.role == Admin && FirstIndex(old(users.rows), UserWithId(userId)).None? ==>
              r == Err(UserNotFoundError) && users.rows == old(users.rows)
    ensures caller.role == Admin && FirstIndex(old(users.rows), UserWithId(userId)).Some? ==>
              var k := FirstIndex(old(users.rows), UserWithId(userId)).value;
              var m := MergedUser(old(users.rows)[k], upd, svc);
              users.rows == old(users.rows)[k := m] && r == Ok(ToResponse(m))
  {
    var gate := RequireAdmin(caller);
    if gate.Err? {
      return Err(gate.error);
    }
    var found := users.GetById(userId);
    if found.None? {
      return Err(UserNotFoundError);
    }
    ghost var k := FirstIndex(users.rows, UserWithId(userId)).value;
    assert found.value == users.rows[k] && found.value.id == userId;
    var user := found.value;
    if upd.username.Some? {
      user := user.(username := upd.username.value);
    }
    if upd.email.Some? {
      user := user.(email := upd.email.value);
    }
    if upd.password.Some? {
      user := user.(hashedPassword := GetPasswordHash(svc, upd.password.value));
    }
    if upd.role.Some? {
      user := user.(role := upd.role.value);
    }
    if upd.companyId.Some? {
      user := user.(companyId := upd.companyId);
    }
    assert user == MergedUser(found.value, upd, svc);
    var updated := users.Update(user);
    r := Ok(ToResponse(updated.value));
  }

  /** `DELETE /users/{id}`: 403 for anyone but an administrator, 404 for an unknown id; otherwise
      the first row with that id is removed (`None` is the 204 answer). */
  method DeleteUser(users: UserRepository, caller: User, userId: Uuid) returns (r: Option<HttpError>)
    modifies users
    ensures caller.role != Admin ==> r == Some(PermissionError) && users.rows == old(users.rows)
    ensures caller.role == Admin && FirstIndex(old(users.rows), UserWithId(userId)).None? ==>
              r == Some(UserNotFoundError) && users.rows == old(users.rows)
    ensures caller.role == Admin && FirstIndex(old(users.rows), UserWithId(userId)).Some? ==>
              r.None? && users.rows == RemoveAt(old(users.rows), FirstIndex(old(users.rows), UserWithId(userId)).value)
  {
    var gate := RequireAdmin(caller);
    if gate.Err? {
      return Some(gate.error);
    }
    var deleted := users.Delete(userId);
    if !deleted {
      return Some(UserNotFoundError);
    }
    return None;
  }
}
