/** What a handler sends back: a status with a `{ message }` body, a JSON
    document, or the error handler's `{ message, stack }` body for an error
    thrown inside an async handler. */
module Answer {
  import opened Common
  import opened ErrorMiddleware

  datatype Payload<D> = Note(message: string) | Json(value: D) | Fault(message: string, stack: string)

  datatype Answer<D> = Answer(status: int, payload: Payload<D>)

  /** `res.status(status).json({ message })`. */
  function Says<D>(status: int, message: string): (a: Answer<D>)
    ensures a.status == status && a.payload.Note? && a.payload.message == message
  {
    Answer(status, Note(message))
  }

  /** An error thrown by a handler wrapped in `asyncHandler`: it reaches the
      error handler while the response status is still 200. */
  function Thrown<D>(err: AppError, production: bool): (a: Answer<D>)
    ensures 400 <= a.status <= 500
    ensures a.payload.Fault?
  {
    var r := ErrorHandler(err, 200, production);
    Answer(r.status, Fault(r.message, r.stack))
  }

  /** A Mongoose validation error naming the required paths that are missing. */
  function MissingPaths(paths: seq<string>): AppError {
    AppError("ValidationError", "validation failed", "", None, None, [], MissingPathMessages(paths))
  }

  function MissingPathMessages(paths: seq<string>): (ms: seq<string>)
    ensures |ms| == |paths|
  {
    if paths == [] then [] else ["Path `" + paths[0] + "` is required."] + MissingPathMessages(paths[1..])
  }

  /** A validation error for one missing path answers 400 with that path's message. */
  lemma MissingPathReply(path: string, production: bool)
    ensures ErrorHandler(MissingPaths([path]), 200, production).status == 400
    ensures ErrorHandler(MissingPaths([path]), 200, production).message == "Path `" + path + "` is required."
  {
    assert [path][1..] == [];
  }

  /** A `TypeError` from reading a property of `null`. */
  function NullRead(property: string): AppError {
    AppError("TypeError", "Cannot read properties of null (reading '" + property + "')", "", None, None, [], [])
  }

  /** A `TypeError` from calling a method on `undefined`. */
  function UndefinedRead(property: string): AppError {
    AppError("TypeError", "Cannot read properties of undefined (reading '" + property + "')", "", None, None, [], [])
  }

  /** A `TypeError` from assigning a property of `undefined`. */
  function UndefinedWrite(property: string): AppError {
    AppError("TypeError", "Cannot set properties of undefined (setting '" + property + "')", "", None, None, [], [])
  }

  /** A `TypeError` from `new URL(text)` on a string that is not a URL. */
  function InvalidUrl(): AppError {
    AppError("TypeError", "Invalid URL", "", None, None, [], [])
  }

  /** A `ReferenceError` from using a name the module never imports. */
  function Undeclared(name: string): AppError {
    AppError("ReferenceError", name + " is not defined", "", None, None, [], [])
  }

  /** The `MissingSchemaError` Mongoose raises when a query is asked to
      populate from a model name no schema was registered under. */
  function UnregisteredModel(name: string): AppError {
    AppError("MissingSchemaError", "Schema hasn't been registered for model \"" + name + "\".\nUse mongoose.model(name, schema)",
             "", None, None, [], [])
  }

  /** The `CastError` a query raises for an id that is not an ObjectId. */
  function MalformedId(id: string): AppError {
    AppError("CastError", "Cast to ObjectId failed for value \"" + id + "\"", "", None, Some("ObjectId"), [], [])
  }

  /** A unique-index violation on the given keys. */
  function DuplicateKey(keys: seq<string>): AppError {
    AppError("MongoServerError", "E11000 duplicate key error", "", Some(11000), None, keys, [])
  }

  /** A database error answered through the error handler. */
  function StoreFailure(message: string): AppError {
    AppError("MongoServerError", message, "", None, None, [], [])
  }
}
