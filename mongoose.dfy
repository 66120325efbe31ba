/**
 * The two errors a Mongoose `save` of the modelled schemas can end with, built
 * as the error objects the error handler receives: a validation error carrying
 * the failed validators' messages, and MongoDB's duplicate-key error (code
 * 11000) naming the fields of the unique index that was hit.
 */
module Mongoose {
  import opened Wrappers
  import ErrorMiddleware
  import Js

  /** How a `save` ends: the stored document, or the error it rejects with. */
  datatype SaveOutcome<T> = Saved(doc: T) | Rejected(error: ErrorMiddleware.AppError)

  /** A `ValidationError` whose sub-errors carry `messages`. */
  function ValidationError(messages: seq<string>): (e: ErrorMiddleware.AppError)
    ensures e.name == "ValidationError" && e.subMessages == messages
  {
    ErrorMiddleware.AppError("ValidationError", ErrorMiddleware.NoCode, messages, [], 0,
                             "Validation failed", "")
  }

  /** A duplicate-key error on the unique index over `keys`. */
  function DuplicateKey(keys: seq<string>): (e: ErrorMiddleware.AppError)
    ensures e.code == ErrorMiddleware.NumCode(11000) && e.keyValueKeys == keys
  {
    ErrorMiddleware.AppError("MongoServerError", ErrorMiddleware.NumCode(11000), [], keys, 0,
                             "E11000 duplicate key error", "")
  }

  /** The error handler answers a validation error with 400 and the messages themselves. */
  lemma ValidationErrorReply(messages: seq<string>, nodeEnv: string)
    ensures ErrorMiddleware.ErrorHandler(ValidationError(messages), nodeEnv)
         == ErrorMiddleware.Json(400, "Validation Error", Some(messages), None)
  {
  }

  /** The error handler answers a duplicate key with 400 and the first key, capitalised. */
  lemma DuplicateKeyReply(first: string, rest: seq<string>, nodeEnv: string)
    ensures ErrorMiddleware.ErrorHandler(DuplicateKey([first] + rest), nodeEnv)
         == ErrorMiddleware.Json(400, ErrorMiddleware.Capitalize(first) + " already exists", None, None)
  {
  }

  /**
   * A unique slug index that is hit (Template.js:12, MasterCategory.js:13) is
   * answered `Slug already exists`.
   */
  lemma SlugClashReply(nodeEnv: string)
    ensures ErrorMiddleware.ErrorHandler(DuplicateKey(["slug"]), nodeEnv)
         == ErrorMiddleware.Json(400, "Slug already exists", None, None)
  {
    var e := DuplicateKey(["slug"]);
    assert e.name != "ValidationError" && e.keyValueKeys == ["slug"] + [];
    ErrorMiddleware.DuplicateKeyMessage(e, nodeEnv, "slug", []);
    CapitalizedSlug();
  }

  lemma CapitalizedSlug()
    ensures ErrorMiddleware.Capitalize("slug") + " already exists" == "Slug already exists"
  {
    assert Js.UpperChar('s') == 'S';
    assert ErrorMiddleware.Capitalize("slug") == ['S'] + "lug" == "Slug";
  }
}
