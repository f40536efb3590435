/** middleware/errorMiddleware.js: the catch-all 404 and the mapping from a
    thrown error to a status code and a message. */
module ErrorMiddleware {
  import opened Common
  import opened Text

  /** The parts of a thrown error the handler looks at: its name, message and
      stack, Mongo's numeric `code`, a cast error's `kind`, the keys of a
      duplicate-key error's `keyValue`, and a validation error's per-field messages. */
  datatype AppError = AppError(
    name: string,
    message: string,
    stack: string,
    code: Option<int>,
    kind: Option<string>,
    keyValue: seq<string>,
    fieldMessages: seq<string>)

  /** A plain `new Error(message)`. */
  function PlainError(message: string): AppError {
    AppError("Error", message, "", None, None, [], [])
  }

  datatype ErrorReply = ErrorReply(status: int, message: string, stack: string)

  /** What production responses carry instead of the stack. */
  const HiddenStack: string := "\U{1F95E}"

  /** `notFound`: the response status becomes 404 and the error names the URL. */
  function NotFound(url: string): (r: (int, AppError))
    ensures r.0 == 404 && r.1.message == "Not Found - " + url
  {
    (404, PlainError("Not Found - " + url))
  }

  /** Message of a duplicate-key error: the first key of `keyValue`
      (`undefined` when there is none). */
  function DuplicateMessage(keys: seq<string>): string {
    "Duplicate field value: " + (if keys == [] then "undefined" else keys[0]) + " already exists"
  }

  /** `errorHandler(err, req, res)` where `resStatus` is the status the
      response had when the error arrived. The checks run in order and a
      later match overrides an earlier one. */
  function ErrorHandler(err: AppError, resStatus: int, production: bool): (r: ErrorReply)
    ensures r.stack == (if production then HiddenStack else err.stack)
    ensures err.name == "MulterError" ==>
      r.status == 400 && r.message == (if err.message != [] then err.message else "File upload error")
    ensures err.name == "TokenExpiredError" ==> r.status == 401 && r.message == "Token has expired"
    ensures err.name == "JsonWebTokenError" ==> r.status == 401 && r.message == "Invalid token"
    ensures err.name == "ValidationError" ==> r.status == 400 && r.message == Join(err.fieldMessages, ", ")
    ensures err.code == Some(11000) && err.name !in NamedErrors ==>
      r.status == 400 && r.message == DuplicateMessage(err.keyValue)
    ensures err.name == "CastError" && err.kind == Some("ObjectId") && err.code != Some(11000) ==>
      r.status == 404 && r.message == "Resource not found"
    ensures Unclassified(err) ==>
      r.status == (if resStatus == 200 then 500 else resStatus) && r.message == err.message
  {
    var s0 := if resStatus == 200 then 500 else resStatus;
    var (s1, m1) := if err.name == "CastError" && err.kind == Some("ObjectId") then (404, "Resource not found") else (s0, err.message);
    var (s2, m2) := if err.code == Some(11000) then (400, DuplicateMessage(err.keyValue)) else (s1, m1);
    var (s3, m3) := if err.name == "ValidationError" then (400, Join(err.fieldMessages, ", ")) else (s2, m2);
    var (s4, m4) := if err.name == "JsonWebTokenError" then (401, "Invalid token") else (s3, m3);
    var (s5, m5) := if err.name == "TokenExpiredError" then (401, "Token has expired") else (s4, m4);
    var (s6, m6) := if err.name == "MulterError" then (400, if err.message != [] then err.message else "File upload error") else (s5, m5);
    ErrorReply(s6, m6, if production then HiddenStack else err.stack)
  }

  /** The error names the handler maps by name alone. */
  const NamedErrors: set<string> := {"ValidationError", "JsonWebTokenError", "TokenExpiredError", "MulterError"}

  /** An error none of the mappings applies to. */
  predicate Unclassified(err: AppError) {
    err.name !in NamedErrors && err.code != Some(11000) && !(err.name == "CastError" && err.kind == Some("ObjectId"))
  }

  /** The catch-all route's error reaches the handler as a 404 naming the URL. */
  lemma NotFoundReply(url: string, production: bool)
    ensures var (status, err) := NotFound(url);
      ErrorHandler(err, status, production) == ErrorReply(404, "Not Found - " + url, if production then HiddenStack else "")
  {
  }

  /** A status set before the error arrived survives for an unclassified error;
      only a still-200 response becomes 500, so an error never answers 200. */
  lemma UnclassifiedNeverOk(err: AppError, resStatus: int, production: bool)
    requires Unclassified(err)
    ensures ErrorHandler(err, resStatus, production).status != 200
  {
  }
}
