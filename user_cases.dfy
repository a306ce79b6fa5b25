/** `UserUseCases`: registering users with a unique email and username, and password login. */
module UserCases {
  import opened Wrappers
  import opened Seqs
  import opened UserEntity
  import opened Errors
  import opened AuthServices
  import opened Repositories

  function UserEmail(u: User): string { u.email }
  function UserUsername(u: User): string { u.username }

  /** The user `create_user` builds: the given fields, the password's hash, a fresh id, both
      timestamps `now` and the profile type derived from role and company. */
  function RegisteredUser(
    svc: AuthService, username: string, email: string, password: string, role: UserRole,
    companyId: Option<Uuid>, freshId: Uuid, now: Timestamp): User
  {
    NewUser(username, email, GetPasswordHash(svc, password), role, None, None, None, companyId, None, freshId, now)
  }

  /** What `create_user` stores, for any sound hashing scheme: the given identity, a hash that is
      not the password and that verifies against it, and the derived profile. */
  lemma RegisteredUserFields(
    svc: AuthService, username: string, email: string, password: string, role: UserRole,
    companyId: Option<Uuid>, freshId: Uuid, now: Timestamp)
    requires Sound(svc.hasher)
    ensures var u := RegisteredUser(svc, username, email, password, role, companyId, freshId, now);
            && u.id == freshId && u.username == username && u.email == email && u.role == role
            && u.companyId == companyId && u.createdAt == now && u.updatedAt == now
            && u.hashedPassword != password && VerifyPassword(svc, password, u.hashedPassword)
            && u.profileType == DetermineProfileType(role, companyId)
  {
    HashThenVerify(svc, password);
  }

  /** `authenticate_user`: the user with this email, when the password verifies against its
      stored hash; `None` when no user has the email or the password does not verify. */
  function AuthenticateUser(users: seq<User>, svc: AuthService, email: string, password: string)
    : (r: Option<User>)
    ensures Find(users, UserWithEmail(email)).None? ==> r.None?
    ensures r.Some? <==>
              Find(users, UserWithEmail(email)).Some?
              && VerifyPassword(svc, password, Find(users, UserWithEmail(email)).value.hashedPassword)
    ensures r.Some? ==> r.value in users && r.value.email == email
  {
    match Find(users, UserWithEmail(email))
    case None => None
    case Some(u) => if !VerifyPassword(svc, password, u.hashedPassword) then None else Some(u)
  }

  /** Emails are unique, so the user an email finds is the one with that email. */
  lemma FindByUniqueEmail(users: seq<User>, u: User)
    requires KeysDistinct(users, UserEmail) && u in users
    ensures Find(users, UserWithEmail(u.email)) == Some(u)
  {
    var r := Find(users, UserWithEmail(u.email));
    assert UserWithEmail(u.email)(u);
    var i, j :| 0 <= i < |users| && users[i] == r.value && 0 <= j < |users| && users[j] == u;
    assert UserEmail(users[i]) == UserEmail(users[j]);
  }

  /** A registered user logs in with the password they registered with. */
  lemma RegisteredUserAuthenticates(
    users: seq<User>, svc: AuthService, username: string, email: string, password: string, role: UserRole,
    companyId: Option<Uuid>, freshId: Uuid, now: Timestamp)
    requires Sound(svc.hasher) && KeysDistinct(users, UserEmail)
    requires RegisteredUser(svc, username, email, password, role, companyId, freshId, now) in users
    ensures AuthenticateUser(users, svc, email, password)
            == Some(RegisteredUser(svc, username, email, password, role, companyId, freshId, now))
  {
    var u := RegisteredUser(svc, username, email, password, role, companyId, freshId, now);
    FindByUniqueEmail(users, u);
    HashThenVerify(svc, password);
  }

  /** Storing a user whose email and username are both unused keeps both unique. */
  lemma CreateKeepsUnique(users: seq<User>, u: User)
    requires KeysDistinct(users, UserEmail) && KeysDistinct(users, UserUsername)
    requires Find(users, UserWithEmail(u.email)).None? && Find(users, UserWithUsername(u.username)).None?
    ensures KeysDistinct(users + [u], UserEmail) && KeysDistinct(users + [u], UserUsername)
  {
    var next := users + [u];
    forall i, j | 0 <= i < j < |next|
      ensures UserEmail(next[i]) != UserEmail(next[j]) && UserUsername(next[i]) != UserUsername(next[j])
    {
      if j == |users| {
        assert !UserWithEmail(u.email)(users[i]) && !UserWithUsername(u.username)(users[i]);
      }
    }
  }

  class UserUseCases {
    const users: UserRepository
    const auth: AuthService

    constructor(users: UserRepository, auth: AuthService)
      ensures this.users == users && this.auth == auth
    {
      this.users := users;
      this.auth := auth;
    }

    /** `create_user`: a taken email is the error before a taken username, and neither stores
        anything; otherwise the registered user is stored and returned. */
    method CreateUser(
      username: string, email: string, password: string, role: UserRole, companyId: Option<Uuid>,
      freshId: Uuid, now: Timestamp)
      returns (r: Result<User, UseCaseError>)
      modifies users
      ensures old(users.GetByEmail(email)).Some? ==> r == Err(EmailTaken) && users.rows == old(users.rows)
      ensures old(users.GetByEmail(email)).None? && old(users.GetByUsername(username)).Some? ==>
                r == Err(UsernameTaken) && users.rows == old(users.rows)
      ensures old(users.GetByEmail(email)).None? && old(users.GetByUsername(username)).None? ==>
                r == Ok(RegisteredUser(auth, username, email, password, role, companyId, freshId, now))
                && users.rows == old(users.rows) + [r.value]
    {
      var existingUser := users.GetByEmail(email);
      if existingUser.Some? {
        return Err(EmailTaken);
      }
      var existingUsername := users.GetByUsername(username);
      if existingUsername.Some? {
        return Err(UsernameTaken);
      }
      var hashedPassword := GetPasswordHash(auth, password);
      var user := NewUser(username, email, hashedPassword, role, None, None, None, companyId, None, freshId, now);
      var created := users.Create(user);
      return Ok(created);
    }
  }
}
