/** The three repositories as in-memory tables. Each table is a sequence of rows in insertion
    order; a lookup returns the first matching row, as a query ending in `.first()` does. */
module Repositories {
  import opened Wrappers
  import opened Seqs
  import opened UserEntity
  import opened CollectionEntity
  import opened CompanyEntity
  import opened Errors

  function UserWithId(id: Uuid): User -> bool { (u: User) => u.id == id }
  function UserWithEmail(email: string): User -> bool { (u: User) => u.email == email }
  function UserWithUsername(username: string): User -> bool { (u: User) => u.username == username }
  function UserKey(u: User): Uuid { u.id }

  function CompanyWithId(id: Uuid): Company -> bool { (c: Company) => c.id == id }
  function CompanyServing(zipCode: string): Company -> bool { (c: Company) => zipCode in c.zipCodes }
  function CompanyKey(c: Company): Uuid { c.id }

  function CollectionWithId(id: Uuid): Collection -> bool { (c: Collection) => c.id == id }
  function RequestedBy(userId: Uuid): Collection -> bool { (c: Collection) => c.userId == userId }
  function AssignedTo(collectorId: Uuid): Collection -> bool { (c: Collection) => c.collectorId == Some(collectorId) }
  function CollectionKey(c: Collection): Uuid { c.id }

  /** `rows` without its element at `k`: the rows before it stay in place, the rows after it move
      up by one, and exactly one copy of `rows[k]` is gone. */
  function RemoveAt<T>(rows: seq<T>, k: nat): (r: seq<T>)
    requires k < |rows|
    ensures |r| == |rows| - 1
    ensures forall x :: x in r ==> x in rows
    ensures forall i :: 0 <= i < k ==> r[i] == rows[i]
    ensures forall i :: k <= i < |r| ==> r[i] == rows[i + 1]
    ensures multiset(r) + multiset{rows[k]} == multiset(rows)
  {
    assert rows == rows[..k] + [rows[k]] + rows[k + 1..];
    rows[..k] + rows[k + 1..]
  }

  class UserRepository {
    var rows: seq<User>

    constructor()
      ensures rows == []
    {
      rows := [];
    }

    function GetById(id: Uuid): Option<User>
      reads this
    {
      Find(rows, UserWithId(id))
    }

    function GetByEmail(email: string): Option<User>
      reads this
    {
      Find(rows, UserWithEmail(email))
    }

    function GetByUsername(username: string): Option<User>
      reads this
    {
      Find(rows, UserWithUsername(username))
    }

    method Create(user: User) returns (created: User)
      modifies this
      ensures rows == old(rows) + [user] && created == user
    {
      rows := rows + [user];
      created := user;
    }

    /** Overwrites every column but `id` and `created_at` of the row with the user's id. */
    method Update(user: User) returns (r: Result<User, UseCaseError>)
      modifies this
      ensures FirstIndex(old(rows), UserWithId(user.id)).None? ==>
                r == Err(UserRowMissing(user.id)) && rows == old(rows)
      ensures FirstIndex(old(rows), UserWithId(user.id)).Some? ==>
                var k := FirstIndex(old(rows), UserWithId(user.id)).value;
                rows == old(rows)[k := user.(createdAt := old(rows)[k].createdAt)] && r == Ok(rows[k])
    {
      match FirstIndex(rows, UserWithId(user.id))
      case None =>
        r := Err(UserRowMissing(user.id));
      case Some(k) =>
        rows := rows[k := user.(createdAt := rows[k].createdAt)];
        r := Ok(rows[k]);
    }

    method Delete(id: Uuid) returns (deleted: bool)
      modifies this
      ensures deleted == FirstIndex(old(rows), UserWithId(id)).Some?
      ensures !deleted ==> rows == old(rows)
      ensures deleted ==> rows == RemoveAt(old(rows), FirstIndex(old(rows), UserWithId(id)).value)
    {
      match FirstIndex(rows, UserWithId(id))
      case None =>
        deleted := false;
      case Some(k) =>
        rows := RemoveAt(rows, k);
        deleted := true;
    }
  }

  class CompanyRepository {
    var rows: seq<Company>

    constructor()
      ensures rows == []
    {
      rows := [];
    }

    function GetById(id: Uuid): Option<Company>
      reads this
    {
      Find(rows, CompanyWithId(id))
    }

    /** The company owning the first zip-code row with this code. */
    function GetByZipCode(zipCode: string): Option<Company>
      reads this
    {
      Find(rows, CompanyServing(zipCode))
    }

    method Create(company: Company) returns (created: Company)
      modifies this
      ensures rows == old(rows) + [company] && created == company
    {
      rows := rows + [company];
      created := company;
    }

    /** Overwrites name, description, `updated_at` and the zip codes of the row with the company's id. */
    method Update(company: Company) returns (r: Result<Company, UseCaseError>)
      modifies this
      ensures FirstIndex(old(rows), CompanyWithId(company.id)).None? ==>
                r == Err(CompanyRowMissing(company.id)) && rows == old(rows)
      ensures FirstIndex(old(rows), CompanyWithId(company.id)).Some? ==>
                var k := FirstIndex(old(rows), CompanyWithId(company.id)).value;
                rows == old(rows)[k := company.(createdAt := old(rows)[k].createdAt)] && r == Ok(rows[k])
    {
      match FirstIndex(rows, CompanyWithId(company.id))
      case None =>
        r := Err(CompanyRowMissing(company.id));
      case Some(k) =>
        rows := rows[k := company.(createdAt := rows[k].createdAt)];
        r := Ok(rows[k]);
    }

    method Delete(id: Uuid) returns (deleted: bool)
      modifies this
      ensures deleted == FirstIndex(old(rows), CompanyWithId(id)).Some?
      ensures !deleted ==> rows == old(rows)
      ensures deleted ==> rows == RemoveAt(old(rows), FirstIndex(old(rows), CompanyWithId(id)).value)
    {
      match FirstIndex(rows, CompanyWithId(id))
      case None =>
        deleted := false;
      case Some(k) =>
        rows := RemoveAt(rows, k);
        deleted := true;
    }
  }

  class CollectionRepository {
    var rows: seq<Collection>

    constructor()
      ensures rows == []
    {
      rows := [];
    }

    function GetById(id: Uuid): Option<Collection>
      reads this
    {
      Find(rows, CollectionWithId(id))
    }

    function GetByUserId(userId: Uuid): seq<Collection>
      reads this
    {
      Filter(rows, RequestedBy(userId))
    }

    function GetByCollectorId(collectorId: Uuid): seq<Collection>
      reads this
    {
      Filter(rows, AssignedTo(collectorId))
    }

    method Create(collection: Collection) returns (created: Collection)
      modifies this
      ensures rows == old(rows) + [collection] && created == collection
    {
      rows := rows + [collection];
      created := collection;
    }

    /** Overwrites every column but `id`, `user_id` and `created_at` of the row with the collection's id. */
    method Update(collection: Collection) returns (r: Result<Collection, UseCaseError>)
      modifies this
      ensures FirstIndex(old(rows), CollectionWithId(collection.id)).None? ==>
                r == Err(CollectionRowMissing(collection.id)) && rows == old(rows)
      ensures FirstIndex(old(rows), CollectionWithId(collection.id)).Some? ==>
                var k := FirstIndex(old(rows), CollectionWithId(collection.id)).value;
                rows == old(rows)[k := collection.(userId := old(rows)[k].userId, createdAt := old(rows)[k].createdAt)]
                && r == Ok(rows[k])
    {
      match FirstIndex(rows, CollectionWithId(collection.id))
      case None =>
        r := Err(CollectionRowMissing(collection.id));
      case Some(k) =>
        rows := rows[k := collection.(userId := rows[k].userId, createdAt := rows[k].createdAt)];
        r := Ok(rows[k]);
    }
  }
}
