/** Outcomes of the service operations. A JavaScript `throw` becomes
    `Failure(e)`, where `e` says which error was thrown; `Message(e)` is the
    text callers of the service see. */
module Results {

  datatype Option<+T> = None | Some(value: T)

  /** Every error the core throws, by origin. */
  datatype Error =
    // Firestore, through the document store
    | InvalidPath(argument: string)
    | NoDocumentToUpdate(collection: string, id: string)
    | RetrieveFailed
    // TypeError and SyntaxError of the JavaScript runtime
    | ReadOfNullish(holder: string, key: string)
    | NullishToObject
    | NotJson(text: string)
    | NotAFunction(expression: string)
    // Raised by the services themselves
    | SchemaIdNotFound(schemaId: string)
    | ValidationFailed(errorsText: string)
    | ReferenceNotFound(field: string, uuid: string)
    | NoChildSchema(field: string)
    | SchemaNotFound
    | UpdatedSchemaUnreadable
    | RequestFailed(status: string)
    | CreateSchemaFailed(cause: Error)
    | UpdateSchemaFailed(cause: Error)
    | CreateTableFailed(cause: Error)
    // Thrown by a collaborator that is not part of this model (Ajv, SchemaBuilder)
    | Thrown(message: string)

  /** The `message` of the thrown error. */
  function Message(e: Error): string
  {
    match e
    case InvalidPath(argument) =>
      "Value for argument \"" + argument + "\" is not a valid resource path. Path must be a non-empty string."
    case NoDocumentToUpdate(collection, id) => "5 NOT_FOUND: No document to update: " + collection + "/" + id
    case RetrieveFailed => "Failed to retrieve documents"
    case ReadOfNullish(holder, key) => "Cannot read properties of " + holder + " (reading '" + key + "')"
    case NullishToObject => "Cannot convert undefined or null to object"
    case NotJson(text) => "\"" + text + "\" is not valid JSON"
    case NotAFunction(expression) => expression + " is not a function"
    case SchemaIdNotFound(schemaId) => "Schema with id " + schemaId + " not found"
    case ValidationFailed(errorsText) => "Validation failed: " + errorsText
    case ReferenceNotFound(field, uuid) => "Referenced " + field + " with uuid " + uuid + " not found"
    case NoChildSchema(field) => "No child schema found for field " + field
    case SchemaNotFound => "Schema not found"
    case UpdatedSchemaUnreadable => "Failed to retrieve updated schema"
    case RequestFailed(status) => "Request failed with status code " + status
    case CreateSchemaFailed(cause) => "Failed to create schema: " + Message(cause)
    case UpdateSchemaFailed(cause) => "Failed to update schema: " + Message(cause)
    case CreateTableFailed(cause) => "Failed to create table: " + Message(cause)
    case Thrown(message) => message
  }

  /** The wrappers of the registry and of table creation put their prefix in
      front of the cause's message. */
  lemma WrappedMessages(cause: Error)
    ensures "Failed to create schema: " <= Message(CreateSchemaFailed(cause))
    ensures "Failed to update schema: " <= Message(UpdateSchemaFailed(cause))
    ensures "Failed to create table: " <= Message(CreateTableFailed(cause))
  {
  }

  /** A value-returning operation that either resolves or throws. */
  datatype Result<+T> = Success(value: T) | Failure(error: Error)

  /** An operation that resolves to `undefined` or throws. */
  datatype Outcome = Pass | Fail(error: Error)
}
