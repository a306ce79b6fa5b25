/** `CollectionUseCases`: requesting a collection, assigning it to a collector and moving its status. */
module CollectionCases {
  import opened Wrappers
  import opened Seqs
  import opened UserEntity
  import opened CollectionEntity
  import opened CompanyEntity
  import opened Errors
  import opened Repositories

  /** The collection `request_collection` builds for the company owning the zip code: status
      REQUESTED, no collector, a fresh id and both timestamps `now`. */
  function RequestedCollection(
    userId: Uuid, description: string, zipCode: string, images: seq<string>,
    owner: Company, freshId: Uuid, now: Timestamp): (c: Collection)
    ensures c.id == freshId && c.userId == userId && c.description == description
    ensures c.zipCode == zipCode && c.images == images
    ensures c.status == Requested && c.collectorId.None? && c.companyId == Some(owner.id)
    ensures c.createdAt == now && c.updatedAt == now
  {
    Collection(freshId, userId, description, zipCode, images, Requested, now, now, None, Some(owner.id))
  }

  /** The checks of `assign_collection`, in their order, on what the two lookups found; on success
      the collection with its collector set and status ASSIGNED. */
  function AssignDecision(collection: Option<Collection>, collector: Option<User>, collectorId: Uuid)
    : (r: Result<Collection, UseCaseError>)
    ensures collection.None? ==> r == Err(CollectionNotFound)
    ensures collection.Some? && collector.None? ==> r == Err(CollectorNotFound)
    ensures collection.Some? && collector.Some? && collector.value.role != Collector ==> r == Err(NotACollector)
    ensures (collection.Some? && collector.Some? && collector.value.role == Collector
             && collector.value.companyId != collection.value.companyId) ==> r == Err(CollectorOfOtherCompany)
    ensures r.Ok? <==>
              collection.Some? && collector.Some? && collector.value.role == Collector
              && collector.value.companyId == collection.value.companyId
    ensures r.Ok? ==> r.value == collection.value.(collectorId := Some(collectorId), status := Assigned)
  {
    match collection
    case None => Err(CollectionNotFound)
    case Some(c) =>
      match collector
      case None => Err(CollectorNotFound)
      case Some(u) =>
        if u.role != Collector then Err(NotACollector)
        else if u.companyId != c.companyId then Err(CollectorOfOtherCompany)
        else Ok(c.(collectorId := Some(collectorId), status := Assigned))
  }

  /** The check of `update_collection_status`; on success the collection with only its status
      replaced. Any status may follow any other. */
  function StatusDecision(collection: Option<Collection>, status: CollectionStatus, collectorId: Uuid)
    : (r: Result<Collection, UseCaseError>)
    ensures collection.None? ==> r == Err(CollectionNotFound)
    ensures r.Ok? <==> collection.Some? && collection.value.collectorId == Some(collectorId)
    ensures collection.Some? && !r.Ok? ==> r == Err(CollectorNotAssigned)
    ensures r.Ok? ==> r.value == collection.value.(status := status)
  {
    match collection
    case None => Err(CollectionNotFound)
    case Some(c) =>
      if c.collectorId != Some(collectorId) then Err(CollectorNotAssigned)
      else Ok(c.(status := status))
  }

  /** Once assigned, a collection's status can be moved by its collector and by nobody else. */
  lemma OnlyAssigneeMovesStatus(
    collection: Collection, collector: User, collectorId: Uuid, status: CollectionStatus, caller: Uuid)
    requires AssignDecision(Some(collection), Some(collector), collectorId).Ok?
    ensures var given := AssignDecision(Some(collection), Some(collector), collectorId).value;
            StatusDecision(Some(given), status, caller).Ok? <==> caller == collectorId
  {
  }

  /** A status update keeps the assignment, so the same collector can move the status again. */
  lemma StatusUpdateKeepsAssignee(collection: Collection, s1: CollectionStatus, s2: CollectionStatus, caller: Uuid)
    requires StatusDecision(Some(collection), s1, caller).Ok?
    ensures StatusDecision(Some(StatusDecision(Some(collection), s1, caller).value), s2, caller)
            == Ok(collection.(status := s2))
  {
  }

  /** Writing back a row just read by its id changes only that row, to the new value (the columns
      the repository keeps are the ones the row already had). */
  lemma WriteBackFound(rows: seq<Collection>, id: Uuid, updated: Collection)
    requires Find(rows, CollectionWithId(id)).Some?
    requires updated.id == id
    requires updated.userId == Find(rows, CollectionWithId(id)).value.userId
    requires updated.createdAt == Find(rows, CollectionWithId(id)).value.createdAt
    ensures FirstIndex(rows, CollectionWithId(updated.id)).Some?
    ensures var k := FirstIndex(rows, CollectionWithId(updated.id)).value;
            rows[k] == Find(rows, CollectionWithId(id)).value
            && updated.(userId := rows[k].userId, createdAt := rows[k].createdAt) == updated
  {
  }

  class CollectionUseCases {
    const collections: CollectionRepository
    const companies: CompanyRepository
    const users: UserRepository

    constructor(collections: CollectionRepository, companies: CompanyRepository, users: UserRepository)
      ensures this.collections == collections && this.companies == companies && this.users == users
    {
      this.collections := collections;
      this.companies := companies;
      this.users := users;
    }

    /** `request_collection`: fails, storing nothing, when no company serves the zip code;
        otherwise stores and returns a REQUESTED collection of the company serving it. */
    method RequestCollection(
      userId: Uuid, description: string, zipCode: string, images: seq<string>, freshId: Uuid, now: Timestamp)
      returns (r: Result<Collection, UseCaseError>)
      modifies collections
      ensures companies.GetByZipCode(zipCode).None? ==>
                r == Err(NoCompanyForZipCode(zipCode)) && collections.rows == old(collections.rows)
      ensures companies.GetByZipCode(zipCode).Some? ==>
                var owner := companies.GetByZipCode(zipCode).value;
                owner in companies.rows && zipCode in owner.zipCodes
                && r == Ok(RequestedCollection(userId, description, zipCode, images, owner, freshId, now))
                && collections.rows == old(collections.rows) + [r.value]
    {
      var company := companies.GetByZipCode(zipCode);
      if company.None? {
        return Err(NoCompanyForZipCode(zipCode));
      }
      var collection := RequestedCollection(userId, description, zipCode, images, company.value, freshId, now);
      var created := collections.Create(collection);
      return Ok(created);
    }

    /** `assign_collection`: the first failing check is the error and nothing is written;
        otherwise the collection's row gets the collector and status ASSIGNED, all else kept. */
    method AssignCollection(collectionId: Uuid, collectorId: Uuid) returns (r: Result<Collection, UseCaseError>)
      modifies collections
      ensures var decision := AssignDecision(old(collections.GetById(collectionId)), users.GetById(collectorId), collectorId);
              && (decision.Err? ==> r == decision && collections.rows == old(collections.rows))
              && (decision.Ok? ==>
                    r == decision
                    && var k := FirstIndex(old(collections.rows), CollectionWithId(collectionId)).value;
                    collections.rows == old(collections.rows)[k := decision.value])
    {
      var collection := collections.GetById(collectionId);
      var collector := users.GetById(collectorId);
      var decision := AssignDecision(collection, collector, collectorId);
      if decision.Err? {
        return decision;
      }
      WriteBackFound(collections.rows, collectionId, decision.value);
      r := collections.Update(decision.value);
    }

    /** `update_collection_status`: only the assigned collector may change the status, and only the
        status changes. */
    method UpdateCollectionStatus(collectionId: Uuid, status: CollectionStatus, collectorId: Uuid)
      returns (r: Result<Collection, UseCaseError>)
      modifies collections
      ensures var decision := StatusDecision(old(collections.GetById(collectionId)), status, collectorId);
              && (decision.Err? ==> r == decision && collections.rows == old(collections.rows))
              && (decision.Ok? ==>
                    r == decision
                    && var k := FirstIndex(old(collections.rows), CollectionWithId(collectionId)).value;
                    collections.rows == old(collections.rows)[k := decision.value])
    {
      var collection := collections.GetById(collectionId);
      var decision := StatusDecision(collection, status, collectorId);
      if decision.Err? {
        return decision;
      }
      WriteBackFound(collections.rows, collectionId, decision.value);
      r := collections.Update(decision.value);
    }
  }
}
