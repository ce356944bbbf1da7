/** The replies of the route handlers: an HTTP status with either a payload or an error tag
    standing for the `{ error: ... }` message of the JSON body. */
module Http {
  import opened Models

  datatype Error =
    | Unauthorized
    | UnreadableBody   // `request.json()` threw inside the handler's try block
    | InvalidJson
    | MissingRequiredFields
    | InvalidProductId
    | InvalidConsumerId
    | InvalidLicenseId
    | OnlyUpgradeToFull
    | ProductNotFound
    | ConsumerNotFound
    | LicenseNotFound
    | LicenseAlreadyFull
    | MissingOrInvalidFields
    | ConsumerFieldsRequired
    | EmailExists
    | AccountNumberExists
    | DuplicateEntry
    | EmailOrAccountRequired
    | NameRequired
    | ProductExists
    | ServerError(cause: DbError)

  datatype Response<T> = Ok(status: int, value: T) | Err(status: int, error: Error)

  /** A reply together with the collection a handler writes, as it is after the request. */
  datatype Outcome<T, D> = Outcome(reply: Response<T>, after: seq<D>)
}
