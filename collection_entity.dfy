/** The `Collection` entity: one waste-collection request and its lifecycle status. */
module CollectionEntity {
  import opened Wrappers
  import opened UserEntity

  datatype CollectionStatus = Requested | Assigned | InProgress | Completed | Cancelled

  /** The string value of each status (`CollectionStatus` is a `str` enum). */
  function StatusName(s: CollectionStatus): string {
    match s
    case Requested => "REQUESTED"
    case Assigned => "ASSIGNED"
    case InProgress => "IN_PROGRESS"
    case Completed => "COMPLETED"
    case Cancelled => "CANCELLED"
  }

  /** A collection request; its latitude and longitude (floats) are not part of this model. */
  datatype Collection = Collection(
    id: Uuid,
    userId: Uuid,
    description: string,
    zipCode: string,
    images: seq<string>,
    status: CollectionStatus,
    createdAt: Timestamp,
    updatedAt: Timestamp,
    collectorId: Option<Uuid>,
    companyId: Option<Uuid>)
}
