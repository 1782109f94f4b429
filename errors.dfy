/** The central error handler: it maps a thrown error to an HTTP status, a
    message and an optional list of field errors. The handler runs a series
    of independent checks, each of which may overwrite the status and message
    set by the ones before it, so the last applicable check wins. */
module Errors {
  import opened Collections
  import opened Text

  /** What the handler reads from a thrown error. `statusCode` 0 and an empty
      `message` stand for absent ones (all falsy); `fieldErrors` are the
      entries of a validation error's `errors` object in key order; `path` and
      `value` are a cast error's, `value` already converted to text;
      `keyValue` is a duplicate-key error's key/value object in key order,
      `None` when the error has none. */
  datatype ThrownError = ThrownError(
    name: ErrorName,
    message: string,
    statusCode: int,
    code: int,
    fieldErrors: seq<(string, string)>,
    path: string,
    value: string,
    keyValue: Option<seq<(string, string)>>,
    stack: string)

  /** The error names the handler tests for; any other name is `OtherName`. */
  datatype ErrorName = ValidationError | CastError | JsonWebTokenError | TokenExpiredError | OtherName

  /** One entry of the reply's `errors` list; `field` is `None` where the
      handler reads `undefined` (it is then dropped from the JSON). */
  datatype FieldError = FieldError(field: Option<string>, message: string)

  datatype ErrorReply = ErrorReply(
    status: int,
    success: bool,
    message: string,
    errors: Option<seq<FieldError>>,
    stack: Option<string>)

  const DuplicateKeyCode: int := 11000

  // ---------------------------------------------------------------- specification

  /** The message test of the last check: a non-empty message mentioning "AI". */
  predicate MentionsAi(err: ThrownError)
  {
    err.message != [] && Includes(err.message, "AI")
  }

  /** The status the reply carries: the last check that applies decides. */
  function StatusFor(err: ThrownError): int
  {
    if MentionsAi(err) then 503
    else if err.name == TokenExpiredError || err.name == JsonWebTokenError then 401
    else if err.code == DuplicateKeyCode || err.name == CastError || err.name == ValidationError then 400
    else if err.statusCode != 0 then err.statusCode
    else 500
  }

  /** The message the reply carries, by the same priority. */
  function MessageFor(err: ThrownError): string
  {
    if MentionsAi(err) then "AI service temporarily unavailable"
    else if err.name == TokenExpiredError then "Token expired"
    else if err.name == JsonWebTokenError then "Invalid token"
    else if err.code == DuplicateKeyCode then "Duplicate entry found"
    else if err.name == CastError then "Invalid " + err.path + ": " + err.value
    else if err.name == ValidationError then "Validation Error"
    else if err.message != [] then err.message
    else "Internal Server Error"
  }

  /** The entry reported for a duplicate key: the first key of `keyValue`
      and its value; an empty object gives `undefined` for both. */
  function DuplicateEntry(keyValue: seq<(string, string)>): FieldError
  {
    if keyValue == [] then FieldError(None, "undefined 'undefined' already exists")
    else FieldError(Some(keyValue[0].0), keyValue[0].0 + " '" + keyValue[0].1 + "' already exists")
  }

  /** A validation error's entries, field and message, in order. */
  function ValidationEntries(fieldErrors: seq<(string, string)>): seq<FieldError>
  {
    seq(|fieldErrors|, i requires 0 <= i < |fieldErrors| => FieldError(Some(fieldErrors[i].0), fieldErrors[i].1))
  }

  /** The field errors: a validation error's entries, then the duplicate key. */
  function EntriesFor(err: ThrownError): seq<FieldError>
    requires err.code == DuplicateKeyCode ==> err.keyValue.Some?
  {
    (if err.name == ValidationError then ValidationEntries(err.fieldErrors) else [])
    + (if err.code == DuplicateKeyCode then [DuplicateEntry(err.keyValue.value)] else [])
  }

  /** The reply for `err`, or `None` when the handler itself throws: a
      duplicate-key error without `keyValue`. */
  function Respond(err: ThrownError, development: bool): Option<ErrorReply>
  {
    if err.code == DuplicateKeyCode && err.keyValue.None? then None
    else
      var entries := EntriesFor(err);
      Some(ErrorReply(StatusFor(err), false, MessageFor(err),
                      if entries == [] then None else Some(entries),
                      if development then Some(err.stack) else None))
  }

  // ---------------------------------------------------------------- the handler

  /** The `for…in` loop over a validation error's `errors` object. */
  method CollectFieldErrors(fieldErrors: seq<(string, string)>) returns (errors: seq<FieldError>)
    ensures errors == ValidationEntries(fieldErrors)
  {
    errors := [];
    var i := 0;
    while i < |fieldErrors|
      invariant 0 <= i <= |fieldErrors|
      invariant errors == ValidationEntries(fieldErrors[..i])
    {
      assert fieldErrors[..i + 1] == fieldErrors[..i] + [fieldErrors[i]];
      errors := errors + [FieldError(Some(fieldErrors[i].0), fieldErrors[i].1)];
      i := i + 1;
    }
    assert fieldErrors[..i] == fieldErrors;
  }

  /** `errorHandler`, check by check. */
  method ErrorHandler(err: ThrownError, development: bool) returns (r: Option<ErrorReply>)
    ensures r == Respond(err, development)
  {
    var status := if err.statusCode != 0 then err.statusCode else 500;
    var message := if err.message != [] then err.message else "Internal Server Error";
    var errors: seq<FieldError> := [];

    if err.name == ValidationError {
      status := 400;
      message := "Validation Error";
      errors := CollectFieldErrors(err.fieldErrors);
    }

    if err.name == CastError {
      status := 400;
      message := "Invalid " + err.path + ": " + err.value;
    }

    if err.code == DuplicateKeyCode {
      status := 400;
      message := "Duplicate entry found";
      if err.keyValue.None? {
        // Object.keys(undefined) throws inside the handler.
        return None;
      }
      errors := errors + [DuplicateEntry(err.keyValue.value)];
    }

    if err.name == JsonWebTokenError {
      status := 401;
      message := "Invalid token";
    }

    if err.name == TokenExpiredError {
      status := 401;
      message := "Token expired";
    }

    if err.message != [] && Includes(err.message, "AI") {
      status := 503;
      message := "AI service temporarily unavailable";
    }

    assert errors == EntriesFor(err);
    r := Some(ErrorReply(status, false, message,
                         if |errors| > 0 then Some(errors) else None,
                         if development then Some(err.stack) else None));
  }

  // ---------------------------------------------------------------- properties

  /** Every reply reports failure, carries the stack only in development and
      leaves out an empty error list. */
  lemma ReplyShape(err: ThrownError, development: bool)
    ensures Respond(err, development).None? <==> err.code == DuplicateKeyCode && err.keyValue.None?
    ensures Respond(err, development).Some? ==>
      var reply := Respond(err, development).value;
      && !reply.success
      && (reply.stack.Some? <==> development)
      && (reply.errors.Some? ==> reply.errors.value != [])
  {
  }

  /** A message mentioning "AI" turns any error into 503, whatever its kind. */
  lemma AiServiceWins(err: ThrownError, development: bool)
    requires Includes(err.message, "AI")
    requires err.code == DuplicateKeyCode ==> err.keyValue.Some?
    ensures Respond(err, development).Some?
    ensures Respond(err, development).value.status == 503
    ensures Respond(err, development).value.message == "AI service temporarily unavailable"
  {
  }

  /** The kinds the handler knows, when the message does not mention "AI":
      token errors give 401, validation, cast and duplicate-key errors 400,
      and any other error keeps its own truthy status or becomes 500. */
  lemma StatusByKind(err: ThrownError)
    requires !MentionsAi(err)
    ensures err.name == TokenExpiredError ==> StatusFor(err) == 401 && MessageFor(err) == "Token expired"
    ensures err.name == JsonWebTokenError ==> StatusFor(err) == 401 && MessageFor(err) == "Invalid token"
    ensures err.name == ValidationError && err.code != DuplicateKeyCode ==>
      StatusFor(err) == 400 && MessageFor(err) == "Validation Error"
    ensures err.name == CastError && err.code != DuplicateKeyCode ==>
      StatusFor(err) == 400 && MessageFor(err) == "Invalid " + err.path + ": " + err.value
    ensures err.code == DuplicateKeyCode && err.name != TokenExpiredError && err.name != JsonWebTokenError ==>
      StatusFor(err) == 400 && MessageFor(err) == "Duplicate entry found"
    ensures StatusFor(err) != 401 && StatusFor(err) != 400 ==>
      StatusFor(err) == (if err.statusCode != 0 then err.statusCode else 500)
  {
  }

  /** An error of no known kind passes its own status and message through,
      falling back to 500 and "Internal Server Error". */
  lemma UnknownErrorPassesThrough(err: ThrownError)
    requires !MentionsAi(err) && err.code != DuplicateKeyCode
    requires err.name == OtherName
    ensures StatusFor(err) == (if err.statusCode != 0 then err.statusCode else 500)
    ensures MessageFor(err) == (if err.message != [] then err.message else "Internal Server Error")
  {
  }

  /** The reply lists a validation error's fields in order, followed by the
      duplicated key of a duplicate-key error; for any other error the list is
      left out. */
  lemma ErrorsListed(err: ThrownError, development: bool)
    requires err.code == DuplicateKeyCode ==> err.keyValue.Some?
    ensures var reply := Respond(err, development).value;
      && (reply.errors.Some? <==> (err.name == ValidationError && err.fieldErrors != []) || err.code == DuplicateKeyCode)
      && (reply.errors.Some? && err.name == ValidationError ==>
            |reply.errors.value| >= |err.fieldErrors|
            && forall i :: 0 <= i < |err.fieldErrors| ==>
                 reply.errors.value[i] == FieldError(Some(err.fieldErrors[i].0), err.fieldErrors[i].1))
      && (err.code == DuplicateKeyCode ==>
            reply.errors.value[|reply.errors.value| - 1] == DuplicateEntry(err.keyValue.value))
  {
  }

  /** The duplicate-key entry names the first key and quotes its value. */
  lemma DuplicateEntryNamesKey(field: string, value: string, rest: seq<(string, string)>)
    ensures DuplicateEntry([(field, value)] + rest) == FieldError(Some(field), field + " '" + value + "' already exists")
  {
  }
}
