/** The `ValueError`s the use cases and repositories raise, and the HTTP errors the routers answer with. */
module Errors {
  import opened UserEntity

  /** Each `ValueError` raised by a use case or repository, with its message as data. */
  datatype UseCaseError =
    | NoCompanyForZipCode(zipCode: string)
    | CollectionNotFound
    | CollectorNotFound
    | NotACollector
    | CollectorOfOtherCompany
    | CollectorNotAssigned
    | ZipCodeTaken(zipCode: string)
    | EmailTaken
    | UsernameTaken
    | UserRowMissing(userId: Uuid)
    | CompanyRowMissing(companyId: Uuid)
    | CollectionRowMissing(collectionId: Uuid)

  /** `str(e)` for each error. */
  function Message(e: UseCaseError): string {
    match e
    case NoCompanyForZipCode(z) => "No collection company available for zip code " + z
    case CollectionNotFound => "Collection not found"
    case CollectorNotFound => "Collector not found"
    case NotACollector => "User is not a collector"
    case CollectorOfOtherCompany => "Collector does not belong to the company responsible for this collection"
    case CollectorNotAssigned => "Collector is not assigned to this collection"
    case ZipCodeTaken(z) => "Zip code " + z + " is already assigned to another company"
    case EmailTaken => "User with this email already exists"
    case UsernameTaken => "User with this username already exists"
    case UserRowMissing(id) => "User with id " + id + " not found"
    case CompanyRowMissing(id) => "Company with id " + id + " not found"
    case CollectionRowMissing(id) => "Collection with id " + id + " not found"
  }

  /** An `HTTPException`: status code and detail. */
  datatype HttpError = HttpError(status: int, detail: string)

  const BadRequest := 400
  const Unauthorized := 401
  const Forbidden := 403
  const NotFound := 404

  /** The 401 every failed credential check raises. */
  const CredentialsError := HttpError(Unauthorized, "Could not validate credentials")

  /** The 403 every role check raises. */
  const PermissionError := HttpError(Forbidden, "Not enough permissions")

  /** `except ValueError as e: raise HTTPException(400, str(e))`. */
  function AsBadRequest(e: UseCaseError): HttpError {
    HttpError(BadRequest, Message(e))
  }
}
