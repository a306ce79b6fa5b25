/** The checks `get_current_user` runs on a decoded token, and the two role gates. Decoding
    itself (signature and expiry) is the JWT library's: its outcome is a parameter, `None` for a
    `JWTError`. */
module JwtAuth {
  import opened Wrappers
  import opened Seqs
  import opened UserEntity
  import opened Errors
  import opened AuthServices
  import opened Repositories

  /** `payload.get(key)` is not `None`: the claim is present and not JSON null. */
  predicate HasClaim(claims: Claims, key: string) {
    key in claims && claims[key] != Null
  }

  /** The user a present `sub` names: only a string subject can equal a stored id. */
  function SubjectUser(sub: Claim, users: seq<User>): Option<User> {
    match sub
    case Text(id) => Find(users, UserWithId(id))
    case _ => None
  }

  /** `get_current_user` after decoding: a decode failure, a missing `sub`, a missing `role` or an
      unknown subject are all the one 401; otherwise the stored user. */
  function GetCurrentUser(decoded: Option<Claims>, users: seq<User>): (r: Result<User, HttpError>)
    ensures r.Err? ==> r.error == CredentialsError
    ensures r.Ok? <==>
              decoded.Some? && HasClaim(decoded.value, "sub") && HasClaim(decoded.value, "role")
              && decoded.value["sub"].Text?
              && exists u :: u in users && u.id == decoded.value["sub"].text
    ensures r.Ok? ==> r.value in users && r.value.id == decoded.value["sub"].text
  {
    match decoded
    case None => Err(CredentialsError)
    case Some(payload) =>
      if !HasClaim(payload, "sub") then Err(CredentialsError)
      else if !HasClaim(payload, "role") then Err(CredentialsError)
      else
        match SubjectUser(payload["sub"], users)
        case None => Err(CredentialsError)
        case Some(u) => Ok(u)
  }

  /** The user comes from the store: the role claim is only required to be present, and its value
      never changes who is authenticated or with which role. */
  lemma RoleClaimIgnored(payload: Claims, otherRole: Claim, users: seq<User>)
    requires HasClaim(payload, "role") && otherRole != Null
    ensures GetCurrentUser(Some(payload["role" := otherRole]), users) == GetCurrentUser(Some(payload), users)
  {
  }

  /** A token issued for a stored user, whatever role it claims, decodes to that stored user (ids
      are a primary key). */
  lemma IssuedTokenAuthenticates(
    svc: AuthService, u: User, claimedRole: UserRole, expiresDelta: Option<int>, now: Timestamp, users: seq<User>)
    requires u in users && KeysDistinct(users, UserKey)
    ensures GetCurrentUser(Some(AccessTokenClaims(svc, u.id, claimedRole, expiresDelta, now)), users) == Ok(u)
  {
    var r := GetCurrentUser(Some(AccessTokenClaims(svc, u.id, claimedRole, expiresDelta, now)), users);
    assert r.Ok?;
    var i, j :| 0 <= i < |users| && users[i] == r.value && 0 <= j < |users| && users[j] == u;
    assert UserKey(users[i]) == UserKey(users[j]);
  }

  /** `get_current_admin_user` after authentication. */
  function RequireAdmin(user: User): (r: Result<User, HttpError>)
    ensures r == Ok(user) <==> user.role == Admin
    ensures r.Err? ==> r.error == PermissionError
  {
    if user.role != Admin then Err(PermissionError) else Ok(user)
  }

  /** `get_current_collector_user` after authentication. */
  function RequireCollector(user: User): (r: Result<User, HttpError>)
    ensures r == Ok(user) <==> user.role == Collector
    ensures r.Err? ==> r.error == PermissionError
  {
    if user.role != Collector then Err(PermissionError) else Ok(user)
  }

  /** The dependency chain `get_current_admin_user(get_current_user(token))`: a 401 comes first, then
      the 403. */
  function CurrentAdminUser(decoded: Option<Claims>, users: seq<User>): (r: Result<User, HttpError>)
    ensures GetCurrentUser(decoded, users).Err? ==> r == GetCurrentUser(decoded, users)
    ensures GetCurrentUser(decoded, users).Ok? ==> r == RequireAdmin(GetCurrentUser(decoded, users).value)
  {
    match GetCurrentUser(decoded, users)
    case Err(e) => Err(e)
    case Ok(u) => RequireAdmin(u)
  }

  /** `get_current_collector_user(get_current_user(token))`. */
  function CurrentCollectorUser(decoded: Option<Claims>, users: seq<User>): (r: Result<User, HttpError>)
    ensures GetCurrentUser(decoded, users).Err? ==> r == GetCurrentUser(decoded, users)
    ensures GetCurrentUser(decoded, users).Ok? ==> r == RequireCollector(GetCurrentUser(decoded, users).value)
  {
    match GetCurrentUser(decoded, users)
    case Err(e) => Err(e)
    case Ok(u) => RequireCollector(u)
  }

  /** Only a stored administrator passes the admin gate, and only a stored collector the
      collector gate; nobody passes both. */
  lemma GatesAreExclusive(decoded: Option<Claims>, users: seq<User>)
    ensures CurrentAdminUser(decoded, users).Ok? ==>
              CurrentAdminUser(decoded, users).value in users && CurrentAdminUser(decoded, users).value.role == Admin
    ensures CurrentCollectorUser(decoded, users).Ok? ==>
              CurrentCollectorUser(decoded, users).value in users
              && CurrentCollectorUser(decoded, users).value.role == Collector
    ensures !(CurrentAdminUser(decoded, users).Ok? && CurrentCollectorUser(decoded, users).Ok?)
  {
  }
}
