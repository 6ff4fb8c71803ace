/**
 * The error middleware of middleware/errorHandler.js: from the fields of a
 * thrown error to the status code and JSON body of the response. The checks
 * run in a fixed order: database codes, then validation, then the token
 * error, then the default. `NODE_ENV` is an input; logging is left out.
 */
module ErrorHandler {
  import opened Wrappers

  /** One entry of a validation error's `details`. */
  datatype Detail = Detail(message: string)

  /**
   * The fields of an error the handler reads. A missing property is `None`;
   * `isJoi` is whether the property is truthy.
   */
  datatype Err = Err(code: Option<string>, isJoi: bool, details: seq<Detail>, name: Option<string>,
                     statusCode: Option<int>, message: Option<string>, stack: Option<string>)

  /** The JSON body; a key that is absent, or whose value is `undefined`, is `None`. */
  datatype Body = Body(error: Option<string>, message: Option<string>, details: Option<seq<string>>,
                       stack: Option<string>)

  datatype Response = Response(status: int, body: Body)

  const UniqueViolation: string := "23505"
  const ForeignKeyViolation: string := "23503"

  /** `err.details.map(d => d.message)` */
  function DetailMessages(ds: seq<Detail>): (ms: seq<string>)
    ensures |ms| == |ds|
    ensures forall k :: 0 <= k < |ds| ==> ms[k] == ds[k].message
  {
    if ds == [] then [] else [ds[0].message] + DetailMessages(ds[1..])
  }

  predicate IsProduction(nodeEnv: Option<string>)
  {
    nodeEnv == Some("production")
  }

  /** None of the four special cases applies. */
  predicate IsDefault(err: Err)
  {
    && err.code != Some(UniqueViolation) && err.code != Some(ForeignKeyViolation)
    && !err.isJoi && err.name != Some("JsonWebTokenError")
  }

  /** `err.statusCode || 500` */
  function DefaultStatus(err: Err): (status: int)
    ensures status != 0
    ensures err.statusCode.Some? && err.statusCode.value != 0 ==> status == err.statusCode.value
    ensures err.statusCode.None? || err.statusCode.value == 0 ==> status == 500
  {
    if err.statusCode.Some? && err.statusCode.value != 0 then err.statusCode.value else 500
  }

  /** `errorHandler`: the response sent for `err`. */
  function HandleError(err: Err, nodeEnv: Option<string>): (r: Response)
    ensures r.status != 0
    ensures !IsDefault(err) ==> r.status in {409, 400, 401}
  {
    if err.code == Some(UniqueViolation) then
      Response(409, Body(Some("Duplicate entry"), Some("This record already exists"), None, None))
    else if err.code == Some(ForeignKeyViolation) then
      Response(400, Body(Some("Invalid reference"), Some("Referenced record does not exist"), None, None))
    else if err.isJoi then
      Response(400, Body(Some("Validation error"), None, Some(DetailMessages(err.details)), None))
    else if err.name == Some("JsonWebTokenError") then
      Response(401, Body(Some("Invalid token"), None, None, None))
    else
      Response(DefaultStatus(err),
               Body(if IsProduction(nodeEnv) then Some("Internal server error") else err.message,
                    None, None, if IsProduction(nodeEnv) then None else err.stack))
  }

  /** A unique violation is a 409 `Duplicate entry`, whatever else the error says. */
  lemma DuplicateEntry(err: Err, nodeEnv: Option<string>)
    requires err.code == Some(UniqueViolation)
    ensures HandleError(err, nodeEnv).status == 409
    ensures HandleError(err, nodeEnv).body.error == Some("Duplicate entry")
    ensures HandleError(err, nodeEnv).body.message == Some("This record already exists")
  {
  }

  /** A foreign-key violation is a 400 `Invalid reference`, whatever else the error says. */
  lemma InvalidReference(err: Err, nodeEnv: Option<string>)
    requires err.code == Some(ForeignKeyViolation)
    ensures HandleError(err, nodeEnv).status == 400
    ensures HandleError(err, nodeEnv).body.error == Some("Invalid reference")
    ensures HandleError(err, nodeEnv).body.message == Some("Referenced record does not exist")
  {
  }

  /**
   * A validation error without a database code is a 400 whose details are
   * the messages of the error's details, in order.
   */
  lemma ValidationError(err: Err, nodeEnv: Option<string>)
    requires err.code != Some(UniqueViolation) && err.code != Some(ForeignKeyViolation) && err.isJoi
    ensures var r := HandleError(err, nodeEnv);
      && r.status == 400 && r.body.error == Some("Validation error")
      && r.body.details.Some? && |r.body.details.value| == |err.details|
      && forall k :: 0 <= k < |err.details| ==> r.body.details.value[k] == err.details[k].message
  {
  }

  /** A bad token that is neither a database nor a validation error is a 401. */
  lemma InvalidToken(err: Err, nodeEnv: Option<string>)
    requires err.code != Some(UniqueViolation) && err.code != Some(ForeignKeyViolation) && !err.isJoi
    requires err.name == Some("JsonWebTokenError")
    ensures HandleError(err, nodeEnv) == Response(401, Body(Some("Invalid token"), None, None, None))
  {
  }

  /**
   * Any other error keeps its own non-zero status code, or gets 500. In
   * production the body says only `Internal server error` and carries no
   * stack; elsewhere it carries the error's message and stack.
   */
  lemma DefaultResponse(err: Err, nodeEnv: Option<string>)
    requires IsDefault(err)
    ensures var r := HandleError(err, nodeEnv);
      && (err.statusCode.Some? && err.statusCode.value != 0 ==> r.status == err.statusCode.value)
      && (err.statusCode.None? || err.statusCode.value == 0 ==> r.status == 500)
      && r.body.message.None? && r.body.details.None?
      && (IsProduction(nodeEnv) ==> r.body.error == Some("Internal server error") && r.body.stack.None?)
      && (!IsProduction(nodeEnv) ==> r.body.error == err.message && r.body.stack == err.stack)
  {
  }

  /** In production no response carries a stack trace or the error's own message, unless it is a fixed text. */
  lemma ProductionHidesInternals(err: Err)
    ensures HandleError(err, Some("production")).body.stack.None?
    ensures HandleError(err, Some("production")).body.error in
      {Some("Duplicate entry"), Some("Invalid reference"), Some("Validation error"), Some("Invalid token"),
       Some("Internal server error")}
  {
  }

  /** The response depends on `NODE_ENV` only in the default case. */
  lemma EnvironmentOnlyInDefault(err: Err, env1: Option<string>, env2: Option<string>)
    requires !IsDefault(err)
    ensures HandleError(err, env1) == HandleError(err, env2)
  {
  }
}
