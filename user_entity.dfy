/** The `User` entity: roles, profile types and the defaults its constructor fills in. */
module UserEntity {
  import opened Wrappers

  /** Identifiers are UUIDs, held in their canonical string form (the form `str(uuid)` gives). */
  type Uuid = string

  /** A `datetime`, as whole seconds. */
  type Timestamp = int

  datatype UserRole = Admin | Collector | Regular

  /** The string value of each role (`UserRole` is a `str` enum). */
  function RoleName(r: UserRole): string {
    match r
    case Admin => "admin"
    case Collector => "collector"
    case Regular => "regular"
  }

  /** `UserRole(s)`: the role whose value is `s`, or `None` where Python raises `ValueError`. */
  function ParseRole(s: string): (r: Option<UserRole>)
    ensures r.Some? ==> RoleName(r.value) == s
  {
    if s == "admin" then Some(Admin)
    else if s == "collector" then Some(Collector)
    else if s == "regular" then Some(Regular)
    else None
  }

  /** Role names are distinct and parse back to their role. */
  lemma ParseRoleName(r: UserRole)
    ensures ParseRole(RoleName(r)) == Some(r)
  {
  }

  datatype ProfileType = AdminProfile | CompanyOwner | CollectorProfile | RegularUser

  /** The integer value of each profile type (`ProfileType` is an `int` enum). */
  function ProfileValue(p: ProfileType): int {
    match p
    case AdminProfile => 1
    case CompanyOwner => 2
    case CollectorProfile => 3
    case RegularUser => 4
  }

  /** `ProfileType(v)`: the profile type whose value is `v`, or `None` where Python raises `ValueError`. */
  function ProfileFromValue(v: int): (p: Option<ProfileType>)
    ensures p.Some? <==> 1 <= v <= 4
    ensures p.Some? ==> ProfileValue(p.value) == v
  {
    if v == 1 then Some(AdminProfile)
    else if v == 2 then Some(CompanyOwner)
    else if v == 3 then Some(CollectorProfile)
    else if v == 4 then Some(RegularUser)
    else None
  }

  /** The four profile values are distinct: reading a stored value back gives the same profile. */
  lemma ProfileValueRoundTrip(p: ProfileType)
    ensures ProfileFromValue(ProfileValue(p)) == Some(p)
  {
  }

  /** The role a profile type belongs to: company owners are regular users with a company. */
  function ProfileRole(p: ProfileType): UserRole {
    match p
    case AdminProfile => Admin
    case CompanyOwner => Regular
    case CollectorProfile => Collector
    case RegularUser => Regular
  }

  /** `_determine_profile_type`: total over role and company presence. The derived profile
      belongs to the given role, and a regular user is a company owner exactly when a company
      is given. */
  function DetermineProfileType(role: UserRole, companyId: Option<Uuid>): (p: ProfileType)
    ensures ProfileRole(p) == role
    ensures role == Regular ==> (p == CompanyOwner <==> companyId.Some?)
  {
    if role.Admin? then AdminProfile
    else if role.Collector? then CollectorProfile
    else if role.Regular? && companyId.Some? then CompanyOwner
    else RegularUser
  }

  /** Admins and collectors get their profile whatever the company. */
  lemma ProfileIgnoresCompanyForStaff(role: UserRole, a: Option<Uuid>, b: Option<Uuid>)
    requires role != Regular
    ensures DetermineProfileType(role, a) == DetermineProfileType(role, b)
  {
  }

  datatype User = User(
    id: Uuid,
    username: string,
    email: string,
    hashedPassword: string,
    role: UserRole,
    createdAt: Timestamp,
    updatedAt: Timestamp,
    companyId: Option<Uuid>,
    profileType: ProfileType)

  /** `User.__init__`: supplied fields are stored as given; a missing id is the fresh `uuid4()`
      value `freshId`, missing timestamps are `now`, a missing company stays `None`, and a missing
      profile type is derived from role and company. */
  function NewUser(
    username: string, email: string, hashedPassword: string, role: UserRole,
    id: Option<Uuid>, createdAt: Option<Timestamp>, updatedAt: Option<Timestamp>,
    companyId: Option<Uuid>, profileType: Option<ProfileType>,
    freshId: Uuid, now: Timestamp): (u: User)
    ensures u.username == username && u.email == email && u.hashedPassword == hashedPassword
    ensures u.role == role && u.companyId == companyId
    ensures id.Some? ==> u.id == id.value
    ensures id.None? ==> u.id == freshId
    ensures u.createdAt == (if createdAt.Some? then createdAt.value else now)
    ensures u.updatedAt == (if updatedAt.Some? then updatedAt.value else now)
    ensures profileType.Some? ==> u.profileType == profileType.value
    ensures profileType.None? ==> u.profileType == DetermineProfileType(role, companyId)
  {
    User(
      if id.Some? then id.value else freshId,
      username, email, hashedPassword, role,
      if createdAt.Some? then createdAt.value else now,
      if updatedAt.Some? then updatedAt.value else now,
      companyId,
      if profileType.Some? then profileType.value else DetermineProfileType(role, companyId))
  }
}
