/** The `/collections` routes: who may list, view, assign and move which collections, and how
    use-case errors become HTTP errors. The response model carries every modelled field of the
    collection, so a response is the collection itself. */
module CollectionsRouter {
  import opened Wrappers
  import opened Seqs
  import opened UserEntity
  import opened CollectionEntity
  import opened Errors
  import opened Repositories
  import opened JwtAuth
  import opened CollectionCases

  const CollectionNotFoundError := HttpError(NotFound, "Collection not found")

  /** `get_collections`: every collection for an administrator, the ones assigned to the caller
      for a collector, and the ones the caller requested for anybody else, in table order. */
  function ListCollections(caller: User, rows: seq<Collection>): (r: seq<Collection>)
    ensures caller.role == Admin ==> r == rows
  {
    if caller.role == Admin then rows
    else if caller.role == Collector then Filter(rows, AssignedTo(caller.id))
    else Filter(rows, RequestedBy(caller.id))
  }

  /** Which collections the listing holds, role by role, and that it keeps table order. */
  lemma ListingMembers(caller: User, rows: seq<Collection>)
    ensures caller.role == Collector ==>
              forall c :: c in ListCollections(caller, rows) <==> c in rows && c.collectorId == Some(caller.id)
    ensures caller.role == Regular ==>
              forall c :: c in ListCollections(caller, rows) <==> c in rows && c.userId == caller.id
    ensures IsSubsequence(ListCollections(caller, rows), rows)
  {
    FilterMembers(rows, AssignedTo(caller.id));
    FilterMembers(rows, RequestedBy(caller.id));
    FilterIsSubsequence(rows, AssignedTo(caller.id));
    FilterIsSubsequence(rows, RequestedBy(caller.id));
    if caller.role == Admin {
      IsSubsequenceRefl(rows);
    }
  }

  lemma {:induction false} IsSubsequenceRefl<T>(s: seq<T>)
    ensures IsSubsequence(s, s)
    decreases |s|
  {
    if s != [] {
      IsSubsequenceRefl(s[1..]);
    }
  }

  /** The permission checks of `get_collection`: a regular user only sees what they requested; a
      collector sees what is assigned to them or belongs to their company (compared as optional
      values, so two missing companies are equal); an administrator sees everything. */
  predicate MayView(caller: User, c: Collection) {
    && !(caller.role == Regular && c.userId != caller.id)
    && !(caller.role == Collector && c.collectorId != Some(caller.id) && c.companyId != caller.companyId)
  }

  /** `get_collection`: 404 for an unknown id, then 403 unless the caller may view it. */
  function GetCollection(caller: User, rows: seq<Collection>, collectionId: Uuid): (r: Result<Collection, HttpError>)
    ensures Find(rows, CollectionWithId(collectionId)).None? <==> r == Err(CollectionNotFoundError)
    ensures r.Ok? <==> Find(rows, CollectionWithId(collectionId)).Some? && MayView(caller, Find(rows, CollectionWithId(collectionId)).value)
    ensures r.Ok? ==> r.value in rows && r.value.id == collectionId
    ensures r.Err? && r != Err(CollectionNotFoundError) ==> r == Err(PermissionError)
  {
    match Find(rows, CollectionWithId(collectionId))
    case None => Err(CollectionNotFoundError)
    case Some(c) => if !MayView(caller, c) then Err(PermissionError) else Ok(c)
  }

  /** Each role's view rule, spelled out. */
  lemma ViewRules(caller: User, c: Collection)
    ensures caller.role == Admin ==> MayView(caller, c)
    ensures caller.role == Regular ==> (MayView(caller, c) <==> c.userId == caller.id)
    ensures caller.role == Collector ==>
              (MayView(caller, c) <==> c.collectorId == Some(caller.id) || c.companyId == caller.companyId)
  {
  }

  /** Whatever the listing shows, fetching it by id shows too (ids are a primary key). */
  lemma ListedIsViewable(caller: User, rows: seq<Collection>, c: Collection)
    requires KeysDistinct(rows, CollectionKey)
    requires c in ListCollections(caller, rows)
    ensures GetCollection(caller, rows, c.id) == Ok(c)
  {
    ListingMembers(caller, rows);
    var found := Find(rows, CollectionWithId(c.id));
    assert CollectionWithId(c.id)(c);
    var i, j :| 0 <= i < |rows| && rows[i] == found.value && 0 <= j < |rows| && rows[j] == c;
    assert CollectionKey(rows[i]) == CollectionKey(rows[j]);
  }

  /** A collector also sees, one by one, the collections of their company that are not assigned
      to them, although the listing does not show those. */
  lemma CollectorViewsBeyondListing(caller: User, rows: seq<Collection>, c: Collection)
    requires caller.role == Collector && c in rows && c.collectorId != Some(caller.id)
    requires c.companyId == caller.companyId
    ensures MayView(caller, c) && c !in ListCollections(caller, rows)
  {
    ListingMembers(caller, rows);
  }

  /** The role check `assign_collection` makes before any lookup. */
  function AssignGate(caller: User): (r: Option<HttpError>)
    ensures r.None? <==> caller.role == Admin || caller.role == Collector
    ensures r.Some? ==> r.value == PermissionError
  {
    if caller.role != Admin && caller.role != Collector then Some(PermissionError) else None
  }

  /** `except ValueError as e: raise HTTPException(400, str(e))` around a use case. */
  function ToHttp<T>(r: Result<T, UseCaseError>): (h: Result<T, HttpError>)
    ensures r.Ok? ==> h == Ok(r.value)
    ensures r.Err? ==> h == Err(AsBadRequest(r.error)) && h.error.status == BadRequest
  {
    match r
    case Ok(v) => Ok(v)
    case Err(e) => Err(AsBadRequest(e))
  }

  /** `POST /collections/`: any authenticated user requests a collection for themself. */
  method CreateCollection(
    cases: CollectionUseCases, caller: User, description: string, zipCode: string, images: seq<string>,
    freshId: Uuid, now: Timestamp)
    returns (r: Result<Collection, HttpError>)
    modifies cases.collections
    ensures cases.companies.GetByZipCode(zipCode).None? ==>
              r == Err(HttpError(BadRequest, "No collection company available for zip code " + zipCode))
              && cases.collections.rows == old(cases.collections.rows)
    ensures cases.companies.GetByZipCode(zipCode).Some? ==>
              r == Ok(RequestedCollection(caller.id, description, zipCode, images,
                                          cases.companies.GetByZipCode(zipCode).value, freshId, now))
              && cases.collections.rows == old(cases.collections.rows) + [r.value]
  {
    var requested := cases.RequestCollection(caller.id, description, zipCode, images, freshId, now);
    r := ToHttp(requested);
  }

  /** `POST /collections/{id}/assign`: 403 for anyone but an administrator or a collector, with
      nothing looked up or written; otherwise the use case, its errors as 400. */
  method AssignCollection(cases: CollectionUseCases, caller: User, collectionId: Uuid, collectorId: Uuid)
    returns (r: Result<Collection, HttpError>)
    modifies cases.collections
    ensures AssignGate(caller).Some? ==> r == Err(PermissionError) && cases.collections.rows == old(cases.collections.rows)
    ensures AssignGate(caller).None? ==>
              var decision := AssignDecision(old(cases.collections.GetById(collectionId)), cases.users.GetById(collectorId), collectorId);
              && r == ToHttp(decision)
              && (decision.Err? ==> cases.collections.rows == old(cases.collections.rows))
              && (decision.Ok? ==>
                    cases.collections.rows ==
                    old(cases.collections.rows)[FirstIndex(old(cases.collections.rows), CollectionWithId(collectionId)).value := decision.value])
  {
    var gate := AssignGate(caller);
    if gate.Some? {
      return Err(gate.value);
    }
    var outcome := cases.AssignCollection(collectionId, collectorId);
    r := ToHttp(outcome);
  }

  /** `POST /collections/{id}/status`: the collector gate first (403), then the use case with the
      caller as the collector, its errors as 400. */
  method UpdateCollectionStatus(
    cases: CollectionUseCases, caller: User, collectionId: Uuid, status: CollectionStatus)
    returns (r: Result<Collection, HttpError>)
    modifies cases.collections
    ensures caller.role != Collector ==> r == Err(PermissionError) && cases.collections.rows == old(cases.collections.rows)
    ensures caller.role == Collector ==>
              var decision := StatusDecision(old(cases.collections.GetById(collectionId)), status, caller.id);
              && r == ToHttp(decision)
              && (decision.Err? ==> cases.collections.rows == old(cases.collections.rows))
              && (decision.Ok? ==>
                    cases.collections.rows ==
                    old(cases.collections.rows)[FirstIndex(old(cases.collections.rows), CollectionWithId(collectionId)).value := decision.value])
  {
    var gate := RequireCollector(caller);
    if gate.Err? {
      return Err(gate.error);
    }
    var moved := cases.UpdateCollectionStatus(collectionId, status, caller.id);
    r := ToHttp(moved);
  }
}
