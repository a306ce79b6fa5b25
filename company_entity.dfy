/** The `Company` entity: a collection company and the zip codes it serves. */
module CompanyEntity {
  import opened UserEntity

  datatype Company = Company(
    id: Uuid,
    name: string,
    description: string,
    zipCodes: seq<string>,
    createdAt: Timestamp,
    updatedAt: Timestamp)
}
