/** `CompanyUseCases`: creating and updating companies so that no zip code is claimed twice. */
module CompanyCases {
  import opened Wrappers
  import opened Seqs
  import opened UserEntity
  import opened CompanyEntity
  import opened Errors
  import opened Repositories

  /** Some stored company already serves the zip code. */
  predicate Taken(rows: seq<Company>, zipCode: string) {
    Find(rows, CompanyServing(zipCode)).Some?
  }

  /** The company found serving the zip code is not the company with this id. */
  predicate TakenByOther(rows: seq<Company>, id: Uuid, zipCode: string) {
    Find(rows, CompanyServing(zipCode)).Some? && Find(rows, CompanyServing(zipCode)).value.id != id
  }

  function ZipTaken(rows: seq<Company>): string -> bool {
    (z: string) => Taken(rows, z)
  }

  function ZipTakenByOther(rows: seq<Company>, id: Uuid): string -> bool {
    (z: string) => TakenByOther(rows, id, z)
  }

  /** The two lists share no zip code. */
  ghost predicate Disjoint(a: seq<string>, b: seq<string>) {
    forall z :: z in a ==> z !in b
  }

  /** No zip code is served by two stored companies. */
  ghost predicate ZipsOwnedOnce(rows: seq<Company>) {
    forall i, j :: 0 <= i < j < |rows| ==> Disjoint(rows[i].zipCodes, rows[j].zipCodes)
  }

  /** The company `create_company` builds: the given fields, a fresh id and both timestamps `now`. */
  function NewCompany(name: string, description: string, zipCodes: seq<string>, freshId: Uuid, now: Timestamp)
    : (c: Company)
    ensures c.id == freshId && c.name == name && c.description == description && c.zipCodes == zipCodes
    ensures c.createdAt == now && c.updatedAt == now
  {
    Company(freshId, name, description, zipCodes, now, now)
  }

  /** A zip code a company serves finds that company or another one serving it too. */
  lemma ServingFound(rows: seq<Company>, i: nat, z: string)
    requires i < |rows| && z in rows[i].zipCodes
    ensures Find(rows, CompanyServing(z)).Some?
  {
    assert CompanyServing(z)(rows[i]);
  }

  /** In a table where no zip code is served twice, the company found for a zip code is the one
      serving it. */
  lemma FoundIsTheServer(rows: seq<Company>, i: nat, z: string)
    requires ZipsOwnedOnce(rows)
    requires i < |rows| && z in rows[i].zipCodes
    ensures Find(rows, CompanyServing(z)) == Some(rows[i])
  {
    var m := FirstIndex(rows, CompanyServing(z));
    assert CompanyServing(z)(rows[i]);
    var k := m.value;
    if k < i {
      assert false;
    } else if k > i {
      assert false;
    }
  }

  /** Adding a company none of whose zip codes is taken keeps every zip code served at most once. */
  lemma CreateKeepsZipsOwnedOnce(rows: seq<Company>, company: Company)
    requires ZipsOwnedOnce(rows)
    requires FirstIndex(company.zipCodes, ZipTaken(rows)).None?
    ensures ZipsOwnedOnce(rows + [company])
  {
    var next := rows + [company];
    forall i, j | 0 <= i < j < |next| ensures Disjoint(next[i].zipCodes, next[j].zipCodes) {
      if j == |rows| {
        forall z | z in next[i].zipCodes ensures z !in company.zipCodes {
          ServingFound(rows, i, z);
        }
      }
    }
  }

  /** Replacing the company with this id by one whose zip codes no other company serves keeps
      every zip code served at most once. */
  lemma UpdateKeepsZipsOwnedOnce(rows: seq<Company>, company: Company)
    requires ZipsOwnedOnce(rows) && KeysDistinct(rows, CompanyKey)
    requires FirstIndex(rows, CompanyWithId(company.id)).Some?
    requires FirstIndex(company.zipCodes, ZipTakenByOther(rows, company.id)).None?
    ensures var k := FirstIndex(rows, CompanyWithId(company.id)).value;
            ZipsOwnedOnce(rows[k := company.(createdAt := rows[k].createdAt)])
  {
    var k := FirstIndex(rows, CompanyWithId(company.id)).value;
    var next := rows[k := company.(createdAt := rows[k].createdAt)];
    forall i, j | 0 <= i < j < |next| ensures Disjoint(next[i].zipCodes, next[j].zipCodes) {
      if i == k || j == k {
        var other := if i == k then j else i;
        assert CompanyKey(rows[other]) != CompanyKey(rows[k]);
        forall z | z in company.zipCodes ensures z !in rows[other].zipCodes {
          var n :| 0 <= n < |company.zipCodes| && company.zipCodes[n] == z;
          NotServedByOther(rows, company.id, other, z);
        }
      }
    }
  }

  /** A zip code not taken by another company is not served by any company with another id. */
  lemma NotServedByOther(rows: seq<Company>, id: Uuid, other: nat, z: string)
    requires ZipsOwnedOnce(rows)
    requires other < |rows| && rows[other].id != id
    requires !TakenByOther(rows, id, z)
    ensures z !in rows[other].zipCodes
  {
    if z in rows[other].zipCodes {
      FoundIsTheServer(rows, other, z);
    }
  }

  /** Saving a company again with zip codes it already serves never conflicts. */
  lemma OwnZipsNeverConflict(rows: seq<Company>, k: nat, company: Company)
    requires ZipsOwnedOnce(rows) && k < |rows| && rows[k].id == company.id
    requires forall z :: z in company.zipCodes ==> z in rows[k].zipCodes
    ensures FirstIndex(company.zipCodes, ZipTakenByOther(rows, company.id)).None?
  {
    forall j | 0 <= j < |company.zipCodes| ensures !TakenByOther(rows, company.id, company.zipCodes[j]) {
      FoundIsTheServer(rows, k, company.zipCodes[j]);
    }
  }

  /** A company with an unused id keeps ids a primary key. */
  lemma CreateKeepsIdsDistinct(rows: seq<Company>, company: Company)
    requires KeysDistinct(rows, CompanyKey)
    requires Find(rows, CompanyWithId(company.id)).None?
    ensures KeysDistinct(rows + [company], CompanyKey)
  {
    var next := rows + [company];
    forall i, j | 0 <= i < j < |next| ensures CompanyKey(next[i]) != CompanyKey(next[j]) {
      if j == |rows| {
        assert !CompanyWithId(company.id)(rows[i]);
      }
    }
  }

  /** An update keeps the row's id, so ids stay a primary key. */
  lemma UpdateKeepsIdsDistinct(rows: seq<Company>, company: Company)
    requires KeysDistinct(rows, CompanyKey)
    requires FirstIndex(rows, CompanyWithId(company.id)).Some?
    ensures var k := FirstIndex(rows, CompanyWithId(company.id)).value;
            KeysDistinct(rows[k := company.(createdAt := rows[k].createdAt)], CompanyKey)
  {
    var k := FirstIndex(rows, CompanyWithId(company.id)).value;
    var next := rows[k := company.(createdAt := rows[k].createdAt)];
    forall i, j | 0 <= i < j < |next| ensures CompanyKey(next[i]) != CompanyKey(next[j]) {
      assert CompanyKey(next[i]) == CompanyKey(rows[i]) && CompanyKey(next[j]) == CompanyKey(rows[j]);
    }
  }

  class CompanyUseCases {
    const companies: CompanyRepository

    constructor(companies: CompanyRepository)
      ensures this.companies == companies
    {
      this.companies := companies;
    }

    /** `create_company`: the first listed zip code some company already serves is the error, and
        nothing is stored; otherwise the new company is stored as given. */
    method CreateCompany(name: string, description: string, zipCodes: seq<string>, freshId: Uuid, now: Timestamp)
      returns (r: Result<Company, UseCaseError>)
      modifies companies
      ensures FirstIndex(zipCodes, ZipTaken(old(companies.rows))).Some? ==>
                r == Err(ZipCodeTaken(zipCodes[FirstIndex(zipCodes, ZipTaken(old(companies.rows))).value]))
                && companies.rows == old(companies.rows)
      ensures FirstIndex(zipCodes, ZipTaken(old(companies.rows))).None? ==>
                r == Ok(NewCompany(name, description, zipCodes, freshId, now))
                && companies.rows == old(companies.rows) + [r.value]
    {
      ghost var rows := companies.rows;
      for i := 0 to |zipCodes|
        invariant companies.rows == rows
        invariant forall j :: 0 <= j < i ==> !Taken(rows, zipCodes[j])
      {
        var existing := companies.GetByZipCode(zipCodes[i]);
        if existing.Some? {
          FirstIndexAt(zipCodes, ZipTaken(rows), i);
          return Err(ZipCodeTaken(zipCodes[i]));
        }
      }
      var created := companies.Create(NewCompany(name, description, zipCodes, freshId, now));
      return Ok(created);
    }

    /** `update_company`: the first listed zip code served by a company with another id is the
        error, and nothing is written; the company's own zip codes never conflict. */
    method UpdateCompany(company: Company) returns (r: Result<Company, UseCaseError>)
      modifies companies
      ensures FirstIndex(company.zipCodes, ZipTakenByOther(old(companies.rows), company.id)).Some? ==>
                var k := FirstIndex(company.zipCodes, ZipTakenByOther(old(companies.rows), company.id)).value;
                r == Err(ZipCodeTaken(company.zipCodes[k])) && companies.rows == old(companies.rows)
      ensures FirstIndex(company.zipCodes, ZipTakenByOther(old(companies.rows), company.id)).None? ==>
                match FirstIndex(old(companies.rows), CompanyWithId(company.id))
                case None => r == Err(CompanyRowMissing(company.id)) && companies.rows == old(companies.rows)
                case Some(k) =>
                  companies.rows == old(companies.rows)[k := company.(createdAt := old(companies.rows)[k].createdAt)]
                  && r == Ok(companies.rows[k])
    {
      ghost var rows := companies.rows;
      var zipCodes := company.zipCodes;
      for i := 0 to |zipCodes|
        invariant companies.rows == rows
        invariant forall j :: 0 <= j < i ==> !TakenByOther(rows, company.id, zipCodes[j])
      {
        var existing := companies.GetByZipCode(zipCodes[i]);
        if existing.Some? && existing.value.id != company.id {
          FirstIndexAt(zipCodes, ZipTakenByOther(rows, company.id), i);
          return Err(ZipCodeTaken(zipCodes[i]));
        }
      }
      r := companies.Update(company);
    }
  }
}
