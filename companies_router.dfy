/** The `/companies` routes: administrator-only management of collection companies. The response
    model carries every field of a company, so a response is the company itself. */
module CompaniesRouter {
  import opened Wrappers
  import opened Seqs
  import opened UserEntity
  import opened CompanyEntity
  import opened Errors
  import opened Repositories
  import opened JwtAuth
  import opened CompanyCases

  const CompanyNotFoundError := HttpError(NotFound, "Company not found")

  /** `GET /companies/{id}`: 403 for anyone but an administrator, then 404 for an unknown id. */
  function GetCompany(caller: User, rows: seq<Company>, companyId: Uuid): (r: Result<Company, HttpError>)
    ensures caller.role != Admin ==> r == Err(PermissionError)
    ensures caller.role == Admin ==> (Find(rows, CompanyWithId(companyId)).None? <==> r == Err(CompanyNotFoundError))
    ensures r.Ok? ==> r.value in rows && r.value.id == companyId
  {
    match RequireAdmin(caller)
    case Err(e) => Err(e)
    case Ok(_) =>
      match Find(rows, CompanyWithId(companyId))
      case None => Err(CompanyNotFoundError)
      case Some(c) => Ok(c)
  }

  /** `GET /companies/`: every company, for an administrator only. */
  function ListCompanies(caller: User, rows: seq<Company>): (r: Result<seq<Company>, HttpError>)
    ensures caller.role != Admin <==> r == Err(PermissionError)
    ensures r.Ok? ==> r.value == rows
  {
    match RequireAdmin(caller)
    case Err(e) => Err(e)
    case Ok(_) => Ok(rows)
  }

  /** `CompanyUpdate`: every field optional, `None` meaning "leave as it is". */
  datatype CompanyUpdate = CompanyUpdate(name: Option<string>, description: Option<string>, zipCodes: Option<seq<string>>)

  /** The company `update_company` hands to the use case: each supplied field replaces the stored
      one; a supplied zip-code list replaces the whole list. */
  function MergedCompany(c: Company, upd: CompanyUpdate): Company {
    c.(name := if upd.name.Some? then upd.name.value else c.name,
       description := if upd.description.Some? then upd.description.value else c.description,
       zipCodes := if upd.zipCodes.Some? then upd.zipCodes.value else c.zipCodes)
  }

  /** The merge keeps id and timestamps, and an update that supplies nothing changes nothing. */
  lemma MergeKeepsIdentity(c: Company, upd: CompanyUpdate)
    ensures var m := MergedCompany(c, upd);
            m.id == c.id && m.createdAt == c.createdAt && m.updatedAt == c.updatedAt
    ensures MergedCompany(c, CompanyUpdate(None, None, None)) == c
  {
  }

  /** An update that leaves the zip codes alone never meets a zip-code conflict, while each
      company serves zip codes no other company serves. */
  lemma KeptZipsNeverConflict(rows: seq<Company>, k: nat, upd: CompanyUpdate)
    requires ZipsOwnedOnce(rows) && k < |rows| && upd.zipCodes.None?
    ensures FirstIndex(MergedCompany(rows[k], upd).zipCodes, ZipTakenByOther(rows, rows[k].id)).None?
  {
    OwnZipsNeverConflict(rows, k, MergedCompany(rows[k], upd));
  }

  /** `POST /companies/`: 403 for anyone but an administrator; then `create_company`, a zip-code
      conflict answered with 400. */
  method CreateCompany(
    cases: CompanyUseCases, caller: User, name: string, description: string, zipCodes: seq<string>,
    freshId: Uuid, now: Timestamp)
    returns (r: Result<Company, HttpError>)
    modifies cases.companies
    ensures caller.role != Admin ==> r == Err(PermissionError) && cases.companies.rows == old(cases.companies.rows)
    ensures caller.role == Admin && FirstIndex(zipCodes, ZipTaken(old(cases.companies.rows))).Some? ==>
              var i := FirstIndex(zipCodes, ZipTaken(old(cases.companies.rows))).value;
              r == Err(AsBadRequest(ZipCodeTaken(zipCodes[i]))) && cases.companies.rows == old(cases.companies.rows)
    ensures caller.role == Admin && FirstIndex(zipCodes, ZipTaken(old(cases.companies.rows))).None? ==>
              r == Ok(NewCompany(name, description, zipCodes, freshId, now))
              && cases.companies.rows == old(cases.companies.rows) + [r.value]
  {
    var gate := RequireAdmin(caller);
    if gate.Err? {
      return Err(gate.error);
    }
    var created := cases.CreateCompany(name, description, zipCodes, freshId, now);
    match created
    case Err(e) =>
      r := Err(AsBadRequest(e));
    case Ok(c) =>
      r := Ok(c);
  }

  /** `PUT /companies/{id}`: 403 for anyone but an administrator, 404 for an unknown id; then the
      merged company goes through `update_company`, whose zip-code conflict is answered with 400
      and leaves the table alone. */
  method UpdateCompany(cases: CompanyUseCases, caller: User, companyId: Uuid, upd: CompanyUpdate)
    returns (r: Result<Company, HttpError>)
    modifies cases.companies
    ensures caller.role != Admin ==> r == Err(PermissionError) && cases.companies.rows == old(cases.companies.rows)
    ensures caller.role == Admin && FirstIndex(old(cases.companies.rows), CompanyWithId(companyId)).None? ==>
              r == Err(CompanyNotFoundError) && cases.companies.rows == old(cases.companies.rows)
    ensures caller.role == Admin && FirstIndex(old(cases.companies.rows), CompanyWithId(companyId)).Some? ==>
              var k := FirstIndex(old(cases.companies.rows), CompanyWithId(companyId)).value;
              var m := MergedCompany(old(cases.companies.rows)[k], upd);
              match FirstIndex(m.zipCodes, ZipTakenByOther(old(cases.companies.rows), companyId))
              case Some(i) =>
                r == Err(AsBadRequest(ZipCodeTaken(m.zipCodes[i]))) && cases.companies.rows == old(cases.companies.rows)
              case None =>
                cases.companies.rows == old(cases.companies.rows)[k := m] && r == Ok(m)
  {
    var gate := RequireAdmin(caller);
    if gate.Err? {
      return Err(gate.error);
    }
    var found := cases.companies.GetById(companyId);
    if found.None? {
      return Err(CompanyNotFoundError);
    }
    var company := found.value;
    if upd.name.Some? {
      company := company.(name := upd.name.value);
    }
    if upd.description.Some? {
      company := company.(description := upd.description.value);
    }
    if upd.zipCodes.Some? {
      company := company.(zipCodes := upd.zipCodes.value);
    }
    assert company == MergedCompany(found.value, upd);
    var updated := cases.UpdateCompany(company);
    match updated
    case Err(e) =>
      r := Err(AsBadRequest(e));
    case Ok(c) =>
      r := Ok(c);
  }

  /** `DELETE /companies/{id}`: 403 for anyone but an administrator, 404 for an unknown id;
      otherwise the company is removed (`None` is the 204 answer). */
  method DeleteCompany(companies: CompanyRepository, caller: User, companyId: Uuid) returns (r: Option<HttpError>)
    modifies companies
    ensures caller.role != Admin ==> r == Some(PermissionError) && companies.rows == old(companies.rows)
    ensures caller.role == Admin && FirstIndex(old(companies.rows), CompanyWithId(companyId)).None? ==>
              r == Some(CompanyNotFoundError) && companies.rows == old(companies.rows)
    ensures caller.role == Admin && FirstIndex(old(companies.rows), CompanyWithId(companyId)).Some? ==>
              r.None? && companies.rows == RemoveAt(old(companies.rows), FirstIndex(old(companies.rows), CompanyWithId(companyId)).value)
  {
    var gate := RequireAdmin(caller);
    if gate.Err? {
      return Some(gate.error);
    }
    var deleted := companies.Delete(companyId);
    if !deleted {
      return Some(CompanyNotFoundError);
    }
    return None;
  }
}
