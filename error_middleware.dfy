/**
 * The Express error handler of the user-panel server
 * (`src/middlewares/error.middleware.js`): an ordered chain of tests on the
 * error's `name` and `code` that picks the HTTP status and the JSON body. The
 * first test that matches decides the reply.
 */
module ErrorMiddleware {
  import opened Wrappers
  import opened Js

  /** `err.code`: absent, a number (MongoDB's 11000) or a string (multer's `LIMIT_*`). */
  datatype ErrorCode = NoCode | NumCode(n: int) | StrCode(s: string)

  /**
   * The parts of an error object the handler reads. `subMessages` are the
   * messages of `err.errors` in their enumeration order, `keyValueKeys` the keys
   * of `err.keyValue` in theirs, `statusCode` is `err.statusCode` (0 when unset).
   */
  datatype AppError = AppError(
    name: string,
    code: ErrorCode,
    subMessages: seq<string>,
    keyValueKeys: seq<string>,
    statusCode: int,
    message: string,
    stack: string)

  /** The JSON reply (`success` is always false), or a handler that throws. */
  datatype Reply =
    | Json(status: int, message: string, errors: Option<seq<string>>, stack: Option<string>)
    | Threw

  /** `field.charAt(0).toUpperCase() + field.slice(1)`. */
  function Capitalize(field: string): (r: string)
    ensures |r| == |field|
    ensures field != [] ==> r[0] == UpperChar(field[0]) && r[1..] == field[1..]
  {
    if field == [] then [] else [UpperChar(field[0])] + field[1..]
  }

  function Plain(status: int, message: string): Reply {
    Json(status, message, None, None)
  }

  /** `errorHandler(err, req, res, next)` with `process.env.NODE_ENV` as `nodeEnv`. */
  function ErrorHandler(err: AppError, nodeEnv: string): (r: Reply)
    ensures r.Threw? <==> err.name != "ValidationError" && err.code == NumCode(11000) && err.keyValueKeys == []
    ensures r.Json? && r.stack.Some? ==> nodeEnv == "development" && r.stack == Some(err.stack)
    ensures r.Json? && r.errors.Some? ==> err.name == "ValidationError" && r.errors == Some(err.subMessages)
  {
    if err.name == "ValidationError" then
      Json(400, "Validation Error", Some(err.subMessages), None)
    else if err.code == NumCode(11000) then
      if err.keyValueKeys == [] then Threw
      else Plain(400, Capitalize(err.keyValueKeys[0]) + " already exists")
    else if err.name == "CastError" then Plain(400, "Invalid ID format")
    else if err.name == "JsonWebTokenError" then Plain(401, "Invalid token")
    else if err.name == "TokenExpiredError" then Plain(401, "Token expired")
    else if err.code == StrCode("LIMIT_FILE_SIZE") then Plain(400, "File size too large")
    else if err.code == StrCode("LIMIT_FILE_COUNT") then Plain(400, "Too many files")
    else
      Json(if err.statusCode != 0 then err.statusCode else 500,
           if err.message != "" then err.message else "Internal Server Error",
           None,
           if nodeEnv == "development" then Some(err.stack) else None)
  }

  /** The errors the chain recognises before its default branch. */
  predicate Recognised(err: AppError) {
    err.name in {"ValidationError", "CastError", "JsonWebTokenError", "TokenExpiredError"}
    || err.code in {NumCode(11000), StrCode("LIMIT_FILE_SIZE"), StrCode("LIMIT_FILE_COUNT")}
  }

  /** Recognised errors are client errors: 401 for the two token errors, 400 for the rest, never a stack. */
  lemma RecognisedAreClientErrors(err: AppError, nodeEnv: string)
    requires Recognised(err)
    ensures var r := ErrorHandler(err, nodeEnv);
      r.Json? ==> r.stack.None? && (r.status == 401 <==>
        err.name != "ValidationError" && err.code != NumCode(11000) && err.name != "CastError"
        && err.name in {"JsonWebTokenError", "TokenExpiredError"})
    ensures var r := ErrorHandler(err, nodeEnv); r.Json? ==> r.status == 400 || r.status == 401
  {
  }

  /** An unrecognised error keeps its own status and message, with 500 and a fixed text as defaults. */
  lemma DefaultBranch(err: AppError, nodeEnv: string)
    requires !Recognised(err)
    ensures var r := ErrorHandler(err, nodeEnv);
      r.Json? && r.errors.None?
      && r.status == (if err.statusCode == 0 then 500 else err.statusCode)
      && r.message == (if err.message == "" then "Internal Server Error" else err.message)
      && (r.stack.Some? <==> nodeEnv == "development")
  {
  }

  /** A validation error wins over every later test, whatever its code. */
  lemma ValidationWins(err: AppError, nodeEnv: string)
    requires err.name == "ValidationError"
    ensures ErrorHandler(err, nodeEnv) == Json(400, "Validation Error", Some(err.subMessages), None)
  {
  }

  /** A duplicate key on field `f` is reported as `F already exists`, whatever the other keys. */
  lemma DuplicateKeyMessage(err: AppError, nodeEnv: string, f: string, rest: seq<string>)
    requires err.name != "ValidationError" && err.code == NumCode(11000)
    requires err.keyValueKeys == [f] + rest
    ensures ErrorHandler(err, nodeEnv) == Plain(400, Capitalize(f) + " already exists")
  {
  }
}
