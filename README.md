# recicleAi back end: a Dafny model

This project models the request-admission and domain-rule core of the recicleAi waste-collection
back end, a FastAPI service. Regular users request collections of recyclable waste. Each request
goes to the company that serves its zip code. Collectors of that company are assigned to it and
move it through its statuses. Administrators manage users and companies.

The model has these parts:

- **Rate limiting** (`RateLimiting`, `RateLimitingProperties`). The sliding-window throttle
  `RateLimiter` is a class. Its fields are the configuration, the per-client request log
  `requests: map<string, seq<Entry>>` and `lastCleanup`. `Dispatch`, `CheckRateLimit`,
  `CleanupOldRequests` and `CleanupIfDue` are methods. Each one is proved equal to a pure function
  of the old state: `Step`, `RateCheck`, `Swept` and `Prepare`. The throttle's guarantees are
  lemmas about those functions. The main guarantee is that, over any run of requests, no client
  ever holds more auth-path entries than the auth budget.
- **Domain rules.**
  - `UserEntity` covers roles, profile types, the `User` constructor's defaults and profile
    derivation.
  - `AuthServices` covers the access-token claims and the choice of expiry.
  - `JwtAuth` covers the checks `get_current_user` makes after decoding, and the admin and
    collector gates.
  - `CollectionCases`, `CompanyCases` and `UserCases` cover the three use-case classes. Each is a
    class over the repositories. Each decision is also stated as a pure function, and lemmas
    connect them (for example, "zip codes stay owned by at most one company").
- **Routers.** `CollectionsRouter`, `UsersRouter` and `CompaniesRouter` cover role-based listing
  and viewing, admin gating, 404 handling and the conversion of use-case `ValueError`s into 400
  responses. The users and companies `update` endpoints are imperative merges, proved against
  `MergedUser` and `MergedCompany`.
- **Image validation** (`ImageValidation`). This covers the data-URI pattern, the MIME allow-list,
  the size and dimension limits with their messages, and the first-failure scan over a list of
  images.

Repositories (`Repositories`) are in-memory tables: classes holding `rows: seq<...>` in insertion
order. A lookup returns the first matching row, as SQLAlchemy's `.first()` does. Identifiers are
UUIDs in string form. Timestamps are whole seconds. Fresh UUIDs and the current time are
parameters (`freshId`, `now`). bcrypt, JWT encoding and decoding, `base64.b64decode` and
`PIL.Image.open` are function-valued parameters. The model assumes one thing of the password
scheme only where a lemma needs it: `Sound`, meaning `verify(p, hash(p))` holds and
`hash(p) != p`.

Some behaviour of the code worth knowing, all of it modelled as written:

- **Auth requests and the standard budget.** A standard request is measured against all
  in-window entries of the client, auth entries included (`rate_limiter.py:93-94`).
  `RateLimitingProperties.StandardAdmission` states this. A client that used up its standard
  budget on logins is therefore refused on other routes.
- **How auth routes are recognised.** A path is an auth path when it ends with one of the
  configured auth paths (`rate_limiter.py:53`).
- **Default standard limit.** The default standard limit is 60 requests per window
  (`rate_limiter.py:16`).
- **Tokens.** Only access tokens exist (`auth_service.py:29-41`).

## Model

| member | source | states |
|---|---|---|
| RateLimiting.MakeConfig | app/interfaces/api/middlewares/rate_limiter.py:13-28 | The constructor's defaults: an empty or absent auth-path list becomes `["/token", "/refresh"]`. A given list and the exclude list are kept. |
| RateLimiting.RateLimiter.constructor | app/interfaces/api/middlewares/rate_limiter.py:23-35 | The limiter starts with the configured settings, an empty request log and `lastCleanup` at the construction time. |
| RateLimiting.RateLimiter.CheckRateLimit | app/interfaces/api/middlewares/rate_limiter.py:70-94 | The verdict and the new log are those of `RateCheck`. A client with no log is admitted untouched. Otherwise its log is pruned to the window. An auth request is counted against auth entries only, any other request against all entries. |
| RateLimiting.RateLimiter.CleanupOldRequests | app/interfaces/api/middlewares/rate_limiter.py:96-109 | The loop over the clients leaves exactly `Swept(old log)`: every log pruned, and clients whose log became empty removed. |
| RateLimiting.RateLimiter.CleanupIfDue | app/interfaces/api/middlewares/rate_limiter.py:46-50 | Sweeps and moves `lastCleanup` to `now` exactly when more than 60 seconds passed since the last sweep. Otherwise nothing changes. |
| RateLimiting.RateLimiter.Dispatch | app/interfaces/api/middlewares/rate_limiter.py:37-68 | The decision and the new state are those of `Step`: exclusion, then the periodic sweep, then the check, then recording of admitted requests only. |
| RateLimiting.DefaultClientId | app/interfaces/api/middlewares/rate_limiter.py:111-116 | With a non-empty `X-Forwarded-For`, the id contains no comma and has no surrounding whitespace. Otherwise it is the client host, or "unknown". |
| RateLimitingProperties.ClientIdIsFirstHop | app/interfaces/api/middlewares/rate_limiter.py:113-115 | The id is the stripped text before the first comma of the header. |
| RateLimitingProperties.ClientIdSingleHop | app/interfaces/api/middlewares/rate_limiter.py:113-115 | A header holding one trimmed address yields that address. |
| RateLimitingProperties.ExcludedPassesThrough | app/interfaces/api/middlewares/rate_limiter.py:40-41 | A path under an excluded prefix is passed on with the state unchanged: no sweep, no check, no record. |
| RateLimitingProperties.UnknownClientAdmitted | app/interfaces/api/middlewares/rate_limiter.py:72-73 | A client with no log after the sweep is admitted, and its log becomes exactly the one new entry. |
| RateLimitingProperties.PruneKeepsWindow | app/interfaces/api/middlewares/rate_limiter.py:76-83 | Pruning keeps exactly the entries newer than `now - window_size`, in their original order. |
| RateLimitingProperties.PruneIdempotent | app/interfaces/api/middlewares/rate_limiter.py:79-83 | Pruning twice at the same window start is pruning once. |
| RateLimitingProperties.PruneThenPruneLater | app/interfaces/api/middlewares/rate_limiter.py:79-83 | Pruning at an earlier and then a later window start equals pruning once at the later one. |
| RateLimitingProperties.FirstInWindow | app/interfaces/api/middlewares/rate_limiter.py:79-82 | The position of the oldest in-window entry: every entry before it is expired, and it is not. |
| RateLimitingProperties.PruneAllExpired | app/interfaces/api/middlewares/rate_limiter.py:79-82 | The entries before the first in-window one all prune away. |
| RateLimitingProperties.PruneAllRecent | app/interfaces/api/middlewares/rate_limiter.py:79-82 | In a chronological log, everything from the first in-window entry on survives pruning. |
| RateLimitingProperties.PruneChronologicalIsSuffix | app/interfaces/api/middlewares/rate_limiter.py:79-83 | For a log recorded under a clock that never goes back, pruning cuts off a prefix. |
| RateLimitingProperties.CheckPrunesClient | app/interfaces/api/middlewares/rate_limiter.py:75-83 | After a check, a known client's log is its pruned old log, and other clients are untouched. |
| RateLimitingProperties.AuthAdmission | app/interfaces/api/middlewares/rate_limiter.py:86-91 | An auth request from a known client is admitted iff fewer than `auth_rate_limit_per_minute` in-window entries are for auth paths. |
| RateLimitingProperties.StandardAdmission | app/interfaces/api/middlewares/rate_limiter.py:93-94 | Any other request is admitted iff the in-window entry count, auth entries included, is below `rate_limit_per_minute`. |
| RateLimitingProperties.StepRecordsOnlyAdmitted | app/interfaces/api/middlewares/rate_limiter.py:56-65 | An admitted request appends exactly `(now, path)` to the pruned log of its client. A rejected one leaves the pruned log without the entry. No other client changes. |
| RateLimitingProperties.CountsPartition | app/interfaces/api/middlewares/rate_limiter.py:86-94 | Every entry is counted as either an auth entry or an other entry, so the two counts add up to the log's length. |
| RateLimitingProperties.CountsAppend | app/interfaces/api/middlewares/rate_limiter.py:65 | Recording an entry raises exactly one of the two counts, by one. |
| RateLimitingProperties.CountsPruned | app/interfaces/api/middlewares/rate_limiter.py:79-83 | Pruning never raises either count. |
| RateLimitingProperties.SweptIsClean | app/interfaces/api/middlewares/rate_limiter.py:96-109 | After the sweep, every remaining log is non-empty and fully in-window. A client stays iff it had an in-window entry. Each log is a subsequence of the old one. |
| RateLimitingProperties.SweptIdempotent | app/interfaces/api/middlewares/rate_limiter.py:96-109 | Sweeping twice at the same window start is sweeping once. |
| RateLimitingProperties.PruneKeepsLogBounded | app/interfaces/api/middlewares/rate_limiter.py:79-83 | Pruning keeps a log within both budgets. |
| RateLimitingProperties.SweptKeepsBounds | app/interfaces/api/middlewares/rate_limiter.py:96-109 | Sweeping keeps every log within both budgets. |
| RateLimitingProperties.PrepareKeepsBounds | app/interfaces/api/middlewares/rate_limiter.py:46-50 | The periodic sweep keeps every log within both budgets. |
| RateLimitingProperties.UpdateKeepsBounds | app/interfaces/api/middlewares/rate_limiter.py:83 | Replacing one client's log with one within budget keeps the whole map within budget. |
| RateLimitingProperties.CheckKeepsBounds | app/interfaces/api/middlewares/rate_limiter.py:70-94 | A check keeps every log within both budgets. |
| RateLimitingProperties.AdmittedLogBounded | app/interfaces/api/middlewares/rate_limiter.py:63-94 | Appending an admitted entry to a log within budget keeps the log within budget. The argument needs an auth limit of at least 1. |
| RateLimitingProperties.AdmitKeepsBounds | app/interfaces/api/middlewares/rate_limiter.py:56-65 | Recording an admitted request keeps every log within both budgets. |
| RateLimitingProperties.StepKeepsBounds | app/interfaces/api/middlewares/rate_limiter.py:37-68 | One `dispatch` keeps every client's log within both budgets. |
| RateLimitingProperties.RunKeepsAuthBudget | app/interfaces/api/middlewares/rate_limiter.py:63-91 | With an auth limit of at least 1, after any sequence of requests, with any timestamps, no client's log holds more auth-path entries than the auth limit, in any window. |
| UserEntity.ParseRole | app/domain/entities/user.py:7-10 | `UserRole(s)` gives the role whose value is `s`, or fails. |
| UserEntity.ParseRoleName | app/domain/entities/user.py:7-10 | Every role's value parses back to the role. |
| UserEntity.ProfileFromValue | app/domain/entities/user.py:13-17 | `ProfileType(v)` succeeds iff `v` is 1 to 4, and gives the profile with that value. |
| UserEntity.ProfileValueRoundTrip | app/domain/entities/user.py:13-17 | The four profile values are distinct: reading a stored value back gives the same profile. |
| UserEntity.DetermineProfileType | app/domain/entities/user.py:43-52 | Derivation is total. The profile belongs to the given role. A regular user is a company owner iff a company is given. |
| UserEntity.ProfileIgnoresCompanyForStaff | app/domain/entities/user.py:45-48 | Admins and collectors get their profile whatever the company. |
| UserEntity.NewUser | app/domain/entities/user.py:21-52 | Supplied fields are stored as given. A missing id is fresh, missing timestamps are `now` and a missing company stays `None`. An explicit profile type wins; otherwise the profile is `DetermineProfileType(role, companyId)`. |
| AuthServices.NewAuthService | app/application/services/auth_service.py:12-21 | Omitted arguments default to "HS256" and 30 minutes. |
| AuthServices.HashThenVerify | app/application/services/auth_service.py:23-27 | With a sound scheme, a stored hash verifies against its password and differs from it. |
| AuthServices.ZeroDeltaIsDefault | app/application/services/auth_service.py:33-38 | A zero `expires_delta` is falsy and gives the default lifetime, as no delta does. |
| AuthServices.DefaultLifetimeIsThirtyMinutes | app/application/services/auth_service.py:16-38 | With the default configuration, `exp` is `now + 1800` seconds. |
| AuthServices.DeltaOverridesLifetime | app/application/services/auth_service.py:33-34 | With a non-zero delta, `exp - now` is exactly the delta. |
| AuthServices.AccessTokenClaims | app/application/services/auth_service.py:32-39 | The payload has exactly the keys `sub`, `role` and `exp`, holding the user id's string form, the role's value and the chosen expiry. |
| AuthServices.CreateAccessToken | app/application/services/auth_service.py:29-41 | The token is the encoder's output, under the service's key and algorithm, on a payload with exactly the keys `sub`, `role` and `exp`, holding the user id, the role's value and the chosen expiry. |
| JwtAuth.GetCurrentUser | app/infrastructure/auth/jwt.py:20-45 | Every failure is the one 401. Success happens iff decoding succeeded, `sub` and `role` are present and a stored user has id `sub`. The user returned is that stored user. |
| JwtAuth.RoleClaimIgnored | app/infrastructure/auth/jwt.py:35-45 | The value of the token's `role` claim does not affect which user is returned. |
| JwtAuth.IssuedTokenAuthenticates | app/infrastructure/auth/jwt.py:29-45 | The claims of a token issued for a stored user authenticate exactly that user, whatever role the token claims. |
| JwtAuth.RequireAdmin | app/infrastructure/auth/jwt.py:52-58 | Passes the user iff the role is ADMIN, else 403 "Not enough permissions". |
| JwtAuth.RequireCollector | app/infrastructure/auth/jwt.py:61-67 | Passes the user iff the role is COLLECTOR, else 403. |
| JwtAuth.CurrentAdminUser | app/infrastructure/auth/jwt.py:52-58 | Authentication errors come first, then the admin gate. |
| JwtAuth.CurrentCollectorUser | app/infrastructure/auth/jwt.py:61-67 | Authentication errors come first, then the collector gate. |
| JwtAuth.GatesAreExclusive | app/infrastructure/auth/jwt.py:52-67 | A caller passing a gate is a stored user of that role, and no caller passes both gates. |
| CollectionCases.RequestedCollection | app/application/use_cases/collection_use_cases.py:37-46 | The new collection has status REQUESTED, no collector, the zip-code owner's company and the given fields. |
| CollectionCases.CollectionUseCases.RequestCollection | app/application/use_cases/collection_use_cases.py:22-49 | With no company for the zip code, it fails with the zip-code message and stores nothing. Otherwise the owner serves that zip code, and the new collection is appended. |
| CollectionCases.AssignDecision | app/application/use_cases/collection_use_cases.py:55-72 | The checks run in order: collection exists, collector exists, collector's role, collector's company. The first failure is the error. Success sets only `collector_id` and status ASSIGNED. |
| CollectionCases.CollectionUseCases.AssignCollection | app/application/use_cases/collection_use_cases.py:51-74 | The outcome is `AssignDecision` on the stored rows. On success, exactly the collection's row is overwritten; on failure, nothing is. |
| CollectionCases.StatusDecision | app/application/use_cases/collection_use_cases.py:80-89 | Fails if the collection is missing or the caller is not its assigned collector. Otherwise only the status changes, to any status. |
| CollectionCases.CollectionUseCases.UpdateCollectionStatus | app/application/use_cases/collection_use_cases.py:76-91 | The outcome is `StatusDecision` on the stored rows. On success, exactly that row is overwritten. |
| CollectionCases.OnlyAssigneeMovesStatus | app/application/use_cases/collection_use_cases.py:71-86 | After an assignment, a status update succeeds iff the caller is the assigned collector. |
| CollectionCases.StatusUpdateKeepsAssignee | app/application/use_cases/collection_use_cases.py:85-91 | A status update keeps the assignee, so the same collector can update again, and no order of statuses is enforced. |
| CollectionCases.WriteBackFound | app/infrastructure/repositories/collection_repository_impl.py:73-91 | Writing back a fetched collection targets the row it was read from. |
| CompanyCases.NewCompany | app/domain/entities/company.py:7-21 | The new company has exactly the given name, description and zip codes, a fresh id and `now` as both timestamps. |
| CompanyCases.CompanyUseCases.CreateCompany | app/application/use_cases/company_use_cases.py:12-29 | The first listed zip code any company serves is the error, and nothing is stored (all checks precede the write). Otherwise the new company is appended. |
| CompanyCases.CompanyUseCases.UpdateCompany | app/application/use_cases/company_use_cases.py:40-47 | The first listed zip code served by a company with another id is the error, and nothing is written. Otherwise the row with that id is overwritten. |
| CompanyCases.OwnZipsNeverConflict | app/application/use_cases/company_use_cases.py:42-45 | The company's own zip codes never conflict in an update. |
| CompanyCases.ServingFound | app/infrastructure/repositories/company_repository_impl.py:73-81 | A zip code some company serves is found by the zip-code lookup. |
| CompanyCases.FoundIsTheServer | app/infrastructure/repositories/company_repository_impl.py:73-81 | When zip codes are owned once, the lookup finds the one company serving the zip code. |
| CompanyCases.CreateKeepsZipsOwnedOnce | app/application/use_cases/company_use_cases.py:16-29 | A successful create keeps every zip code served by at most one company. |
| CompanyCases.UpdateKeepsZipsOwnedOnce | app/application/use_cases/company_use_cases.py:42-47 | A successful update keeps every zip code served by at most one company. |
| CompanyCases.CreateKeepsIdsDistinct | app/application/use_cases/company_use_cases.py:22-29 | Creating a company under an unused id keeps ids distinct. |
| CompanyCases.UpdateKeepsIdsDistinct | app/infrastructure/repositories/company_repository_impl.py:108-147 | Updating a company in place keeps ids distinct. |
| UserCases.RegisteredUserFields | app/application/use_cases/user_use_cases.py:27-39 | The stored user carries a hash (not the password) that verifies against the password, plus the given username, email, role and company, a fresh id and the derived profile. |
| UserCases.UserUseCases.CreateUser | app/application/use_cases/user_use_cases.py:14-39 | A taken email is the error before a taken username, and neither stores anything. Otherwise the registered user is appended. |
| UserCases.CreateKeepsUnique | app/application/use_cases/user_use_cases.py:18-24 | A successful create keeps emails and usernames unique. |
| UserCases.AuthenticateUser | app/application/use_cases/user_use_cases.py:41-47 | No user has the email gives `None`. Otherwise the result is the stored user iff the password verifies against its hash. |
| UserCases.FindByUniqueEmail | app/infrastructure/repositories/user_repository_impl.py:40-45 | With unique emails, the email lookup gives the user with that email. |
| UserCases.RegisteredUserAuthenticates | app/application/use_cases/user_use_cases.py:27-47 | A registered user logs in with the password they registered with. |
| Repositories.RemoveAt | app/infrastructure/repositories/user_repository_impl.py:77-85 | Exactly the row at the index is removed: rows before it stay in place, rows after it move up by one, and the multiset of rows loses one copy of that row. |
| Repositories.UserRepository.Create | app/infrastructure/repositories/user_repository_impl.py:16-31 | The user is appended and returned. |
| Repositories.UserRepository.Update | app/infrastructure/repositories/user_repository_impl.py:59-75 | A missing id raises "User with id … not found". Otherwise the first row with the id is overwritten, keeping `created_at`. |
| Repositories.UserRepository.Delete | app/infrastructure/repositories/user_repository_impl.py:77-85 | Returns whether a row had the id, and removes the first such row. |
| Repositories.CompanyRepository.Create | app/infrastructure/repositories/company_repository_impl.py:16-50 | The company is appended and returned. |
| Repositories.CompanyRepository.Update | app/infrastructure/repositories/company_repository_impl.py:108-147 | A missing id raises. Otherwise the row is overwritten, keeping `created_at`, and the zip-code list is replaced. |
| Repositories.CompanyRepository.Delete | app/infrastructure/repositories/company_repository_impl.py:149-163 | Returns whether a row had the id, and removes the first such row. |
| Repositories.CollectionRepository.Create | app/infrastructure/repositories/collection_repository_impl.py:16-34 | The collection is appended and returned. |
| Repositories.CollectionRepository.Update | app/infrastructure/repositories/collection_repository_impl.py:73-91 | A missing id raises. Otherwise the row is overwritten, keeping `user_id` and `created_at`. |
| CollectionsRouter.ListCollections | app/interfaces/api/controllers/collections.py:81-86 | An administrator gets every collection in table order. |
| CollectionsRouter.ListingMembers | app/interfaces/api/controllers/collections.py:81-86 | A collector gets exactly the collections assigned to them. A regular user gets exactly those they requested. All listings keep table order. |
| CollectionsRouter.GetCollection | app/interfaces/api/controllers/collections.py:120-145 | An unknown id gives 404 "Collection not found". Success happens iff the stored collection is viewable, and any other error is 403. |
| CollectionsRouter.ViewRules | app/interfaces/api/controllers/collections.py:128-145 | Admins see everything. Regular users see what they requested. Collectors see a collection iff they are its collector or share its company (two missing companies count as equal). |
| CollectionsRouter.ListedIsViewable | app/interfaces/api/controllers/collections.py:81-145 | Every listed collection can also be fetched by its id. |
| CollectionsRouter.CollectorViewsBeyondListing | app/interfaces/api/controllers/collections.py:137-145 | A collector can fetch collections of their company that the listing does not show. |
| CollectionsRouter.AssignGate | app/interfaces/api/controllers/collections.py:170-174 | Only administrators and collectors pass. Anyone else gets 403. |
| CollectionsRouter.ToHttp | app/interfaces/api/controllers/collections.py:62-66 | A use-case `ValueError` becomes 400 with its message. A value passes through. |
| CollectionsRouter.CreateCollection | app/interfaces/api/controllers/collections.py:26-66 | Any caller requests for themself. A zip code nobody serves gives 400 with nothing stored. Otherwise the new collection is appended. |
| CollectionsRouter.AssignCollection | app/interfaces/api/controllers/collections.py:163-206 | 403 for other roles before any lookup, with nothing written. Otherwise the assign decision, with its errors as 400 and nothing written; on success the found row, and only it, is overwritten by the assigned collection. |
| CollectionsRouter.UpdateCollectionStatus | app/interfaces/api/controllers/collections.py:209-247 | The collector gate comes first (403). Then the status decision with the caller as collector, its errors as 400 and nothing written; on success the found row, and only it, is overwritten by the updated collection. |
| UsersRouter.ResponseHidesSecrets | app/interfaces/api/controllers/users.py:42-50 | Two users give the same response iff they differ at most in password hash and profile type. |
| UsersRouter.CurrentUserInfo | app/interfaces/api/controllers/users.py:86-98 | `/me` serves every authenticated caller, whatever the role, with their own stored record. |
| UsersRouter.ListUsers | app/interfaces/api/controllers/users.py:58-83 | 403 for anyone but an administrator. Otherwise one response per stored user, in order. |
| UsersRouter.GetUser | app/interfaces/api/controllers/users.py:101-129 | 403 for anyone but an administrator. An unknown id gives 404 "User not found". Otherwise the stored user's response. |
| UsersRouter.MergeKeepsUntouched | app/interfaces/api/controllers/users.py:154-163 | The merge never changes id, timestamps or the stored profile type, and cannot clear a company. |
| UsersRouter.EmptyUpdateChangesNothing | app/interfaces/api/controllers/users.py:154-163 | An update supplying nothing writes the user back unchanged. |
| UsersRouter.MergedPasswordVerifies | app/interfaces/api/controllers/users.py:158-159 | A supplied password is stored only as a hash, and that hash verifies against it. |
| UsersRouter.NewPasswordAuthenticates | app/interfaces/api/controllers/users.py:158-165 | After a password change, logging in with the new password finds the updated user, as long as emails stay unique. |
| UsersRouter.ReplaceKeepsIdsDistinct | app/interfaces/api/controllers/users.py:165 | Writing a user back under its own id keeps ids distinct. |
| UsersRouter.DeletedUserIsGone | app/interfaces/api/controllers/users.py:191 | With distinct ids, deleting a row keeps ids distinct, and the user can no longer be found. |
| UsersRouter.CreateUser | app/interfaces/api/controllers/users.py:20-55 | 403 for anyone but an administrator. A taken email, then a taken username, gives 400 with nothing stored. Otherwise the registered user is appended. |
| UsersRouter.UpdateUser | app/interfaces/api/controllers/users.py:132-174 | 403 for anyone but an administrator. An unknown id gives 404. Otherwise the row is replaced by `MergedUser`: each supplied field replaced, a password hashed. |
| UsersRouter.DeleteUser | app/interfaces/api/controllers/users.py:177-196 | 403 for anyone but an administrator. 404 when no row was deleted. Otherwise the row is removed. |
| CompaniesRouter.GetCompany | app/interfaces/api/controllers/companies.py:69-91 | 403 for anyone but an administrator. An unknown id gives 404 "Company not found". Otherwise the stored company. |
| CompaniesRouter.ListCompanies | app/interfaces/api/controllers/companies.py:47-66 | 403 for anyone but an administrator. Otherwise every company. |
| CompaniesRouter.MergeKeepsIdentity | app/interfaces/api/controllers/companies.py:111-116 | The merge keeps id and timestamps. An update supplying nothing changes nothing. |
| CompaniesRouter.KeptZipsNeverConflict | app/interfaces/api/controllers/companies.py:111-119 | An update that leaves the zip codes alone never meets a zip-code conflict, while zip codes are owned once. |
| CompaniesRouter.CreateCompany | app/interfaces/api/controllers/companies.py:17-44 | 403 for anyone but an administrator. A zip-code conflict gives 400 with nothing stored. Otherwise the new company is appended. |
| CompaniesRouter.UpdateCompany | app/interfaces/api/controllers/companies.py:94-132 | 403 for anyone but an administrator. An unknown id gives 404. Then the merged company goes through `update_company`: a conflict gives 400 with nothing written, else the row is replaced by the merge. |
| CompaniesRouter.DeleteCompany | app/interfaces/api/controllers/companies.py:135-149 | 403 for anyone but an administrator. 404 when no row was deleted. Otherwise the row is removed. |
| ImageValidation.MatchIsSound | app/infrastructure/utils/image_validator.py:41-46 | A match means the string is `data:image/<lower-case letters>;base64,<data>` followed by the end or a newline, with non-empty data and no newline in it. |
| ImageValidation.MatchIsComplete | app/infrastructure/utils/image_validator.py:41-46 | Every string of that shape matches, with those two groups. |
| ImageValidation.ValidateBase64Image | app/infrastructure/utils/image_validator.py:26-73 | Valid iff no message. An empty string gives "Imagem vazia", a non-matching one "Formato base64 inválido", and a MIME type outside the list the allow-list message. |
| ImageValidation.ValidIffAcceptable | app/infrastructure/utils/image_validator.py:36-68 | A string is valid iff every check passes: it matches the pattern, has an allowed type, decodes to at most 5 MiB, and opens as an image at most 4000 by 4000. |
| ImageValidation.LimitMessages | app/infrastructure/utils/image_validator.py:52-71 | Undecodable data, more than 5 MiB of bytes and an image wider or taller than 4000 each give their own message. |
| ImageValidation.TooLargeMessageText | app/infrastructure/utils/image_validator.py:58 | The size message reads "… Tamanho máximo: 5.0MB". |
| ImageValidation.TooWideMessageText | app/infrastructure/utils/image_validator.py:66 | The dimension message reads "… Máximo: 4000x4000". |
| ImageValidation.OnlyListedTypesPass | app/infrastructure/utils/image_validator.py:49-50 | Only jpeg, png and gif images can be valid. |
| ImageValidation.ValidateImages | app/infrastructure/utils/image_validator.py:76-94 | Valid iff every image is valid, and valid iff no message. An empty list or no invalid image gives `(True, None)`. Otherwise the first invalid image `i` is reported as "Imagem {i+1}: …". |

## Left out

- Persistence: SQLAlchemy sessions, ORM models, database constraints and the zip-code table are left out. Tables are in-memory rows. A unique-constraint violation, for example after `update_user` writes an email another user has, would be a database error. That error is not modelled.
- Concurrency and async plumbing: the model is a single sequential caller. Concurrent mutation of the limiter's shared dictionary is not modelled.
- Time: `time.time()` and `datetime.utcnow()` become one integer `now` per request or operation. The two separate clock reads in `dispatch` and `_check_rate_limit` are merged into one value. Fractional seconds and `timedelta` subtleties are not modelled.
- Floating point: collection latitude and longitude, the `Location` value object and `MAX_SIZE / 1024 / 1024` are left out. That last value is a float, and only its printed form "5.0" is modelled.
- Libraries the code calls: bcrypt, python-jose (`encode`, `decode`, signature and `exp` checks), `base64.b64decode` and `PIL.Image.open` are parameters. The decode outcome is the input of `JwtAuth.GetCurrentUser`. The text of exceptions raised by those libraries is a parameter.
- AuthServices.GetPasswordHash: bcrypt salts each hash, so two hashes of one password differ. The model treats the hash as a function of the password.
- Python `re` details: `MatchDataUri` models the one pattern used, with `.` not matching a newline. Other regex features do not occur.
- Wiring: `main.py` does not register the rate-limiter middleware, so the limiter is modelled standalone. Router dependency injection, response status codes on success (201, 204) and the `WWW-Authenticate` header are left out.
- Refresh tokens, rotation and revocation: the code has no such feature, and the model does not invent one.
- Logging: `security_logger.py` and `request_logger.py` are left out.
- Configuration and `jwt_utils.py`: environment reading and a header-splitting helper that only calls the library decoder.
- The frontend (`src/**/*.js`) is left out.
- The `updated_at` column: the ORM refreshes it on every update (`onupdate` in `models.py`). That is a persistence effect and is left out; the model keeps the value the entity carries.
- Use-case methods that only forward to a repository query (`get_collections_by_company`, `get_collections_by_status`, `get_collections_by_zip_code`, `get_collectors_by_company`) are not used by the routers, so they are not modelled.
